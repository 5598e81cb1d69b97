/**
 * The quality catalogue that `get_video_info` builds from the extractor's
 * format list (app.py:91-151), and the set of available qualities that
 * `download_video` reports when a requested quality has no format
 * (app.py:203-213).
 */
module QualityCatalogue {
  import opened Common
  import opened Formats

  /** One catalogue entry: the dictionaries built at app.py:100-108 and app.py:136-146. */
  datatype Entry = Entry(
    formatId: Field<string>,
    quality: Quality,
    height: Field<int>,
    tbr: Field<real>,
    vcodec: Field<string>,
    acodec: Field<string>)

  /** The audio entry; it has no 'height' and no 'vcodec' key. */
  function AudioEntry(f: Format): Entry
  {
    Entry(GetOr(f.formatId, ""), Audio, Absent, GetOr(f.tbr, 0.0), Absent, GetOr(f.acodec, ""))
  }

  /** The entry for a video format of the given height, listed under tier q. */
  function VideoEntry(f: Format, height: int, q: Quality): Entry
  {
    Entry(GetOr(f.formatId, ""), q, Present(height), GetOr(f.tbr, 0.0), GetOr(f.vcodec, ""), GetOr(f.acodec, ""))
  }

  /** The text of the TypeError Python raises when it compares a None height with a number. */
  const NoneComparison := "'>=' not supported between instances of 'NoneType' and 'int'"

  /** The format has both streams and a numeric height that falls in video tier q. */
  predicate InBucket(f: Format, q: Quality)
  {
    HasVideoAndAudio(f) && f.height.Present? && Bucket(f.height.value) == Some(q)
  }

  function InBucketOf(q: Quality): Format -> bool
  {
    f => InBucket(f, q)
  }

  /** Some format with both streams has the height None, which the tier chain cannot compare. */
  predicate HasNullVideoHeight(fs: seq<Format>)
  {
    exists i :: 0 <= i < |fs| && HasVideoAndAudio(fs[i]) && fs[i].height.Null?
  }

  predicate IsFirstWhere(fs: seq<Format>, p: Format -> bool, i: int)
  {
    0 <= i < |fs| && p(fs[i]) && forall j :: 0 <= j < i ==> !p(fs[j])
  }

  /** The index of the first format satisfying p. */
  function FirstWhere(fs: seq<Format>, p: Format -> bool): (r: Option<nat>)
    ensures r.None? <==> NoneSatisfy(fs, p)
    ensures r.Some? ==> IsFirstWhere(fs, p, r.value)
    decreases |fs|
  {
    if |fs| == 0 then None
    else
      var last := |fs| - 1;
      var m := FirstWhere(fs[..last], p);
      if m.Some? then m else if p(fs[last]) then Some(last) else None
  }

  /**
   * The entry the catalogue lists for tier q, if any: for audio, the audio-only
   * format with the greatest abr (first on ties); for a video tier, the first
   * format with both streams whose height falls in that tier.
   */
  function EntryFor(fs: seq<Format>, q: Quality): (r: Option<Entry>)
    ensures r.Some? ==> r.value.quality == q
  {
    if q == Audio then
      match FirstMax(fs, IsAudioOnly, AudioRate)
      case None => None
      case Some(i) => Some(AudioEntry(fs[i]))
    else
      match FirstWhere(fs, InBucketOf(q))
      case None => None
      case Some(i) =>
        assert InBucketOf(q)(fs[i]);
        Some(VideoEntry(fs[i], fs[i].height.value, q))
  }

  /**
   * What the catalogue keeps for a tier (app.py:94-108, 116-147): the audio
   * entry exists exactly when some format is audio-only and is built from the
   * first format of greatest abr; a video tier's entry exists exactly when some
   * format with both streams falls in the tier, and is built from the first
   * such format, with the tier's label and that format's height.
   */
  lemma EntryForMeaning(fs: seq<Format>, q: Quality)
    ensures q == Audio ==> (EntryFor(fs, q).Some? <==> exists i :: 0 <= i < |fs| && IsAudioOnly(fs[i]))
    ensures q == Audio && EntryFor(fs, q).Some? ==>
      exists i :: IsFirstMax(fs, IsAudioOnly, AudioRate, i) && EntryFor(fs, q).value == AudioEntry(fs[i])
    ensures q != Audio ==> (EntryFor(fs, q).Some? <==> exists i :: 0 <= i < |fs| && InBucket(fs[i], q))
    ensures q != Audio && EntryFor(fs, q).Some? ==>
      exists i :: 0 <= i < |fs| && InBucket(fs[i], q) && (forall j :: 0 <= j < i ==> !InBucket(fs[j], q)) &&
                  EntryFor(fs, q).value == VideoEntry(fs[i], fs[i].height.value, q)
  {
    if q != Audio {
      var m := FirstWhere(fs, InBucketOf(q));
      if m.Some? {
        assert InBucketOf(q)(fs[m.value]);
        forall j | 0 <= j < m.value ensures !InBucket(fs[j], q) {
          assert !InBucketOf(q)(fs[j]);
        }
      } else {
        forall j | 0 <= j < |fs| ensures !InBucket(fs[j], q) {
          assert !InBucketOf(q)(fs[j]);
        }
      }
    }
  }

  /** An optional entry as a list of zero or one element. */
  function AsList(o: Option<Entry>): seq<Entry>
  {
    if o.Some? then [o.value] else []
  }

  /** The entry of each tier of qs that pick gives one, in the order of qs. */
  function Collect(pick: Quality -> Option<Entry>, qs: seq<Quality>): seq<Entry>
    decreases |qs|
  {
    if qs == [] then [] else AsList(pick(qs[0])) + Collect(pick, qs[1..])
  }

  /** The entry of each tier, as a function. */
  function EntriesOf(fs: seq<Format>): Quality -> Option<Entry>
  {
    q => EntryFor(fs, q)
  }

  /** The entry for tier q as a list of zero or one element. */
  function Picked(fs: seq<Format>, q: Quality): seq<Entry>
  {
    AsList(EntryFor(fs, q))
  }

  /** pick gives every tier an entry of that tier or none. */
  predicate Labelled(pick: Quality -> Option<Entry>)
  {
    forall q :: pick(q).Some? ==> pick(q).value.quality == q
  }

  const VideoTiers: seq<Quality> := [P2160, P1440, P1080, P720, P480]

  /** The order of app.py:150. */
  const DisplayOrder: seq<Quality> := VideoTiers + [Audio]

  /**
   * The catalogue as a declarative reference: one entry per tier that has a
   * format, listed in display order.
   */
  function Catalogue(fs: seq<Format>): seq<Entry>
  {
    Collect(EntriesOf(fs), DisplayOrder)
  }

  predicate RankIncreasing(qs: seq<Quality>)
  {
    forall i, j :: 0 <= i < j < |qs| ==> Rank(qs[i]) < Rank(qs[j])
  }

  /** Sorted by `quality_order` with no label twice. */
  predicate StrictlyRanked(s: seq<Entry>)
  {
    forall i, j :: 0 <= i < j < |s| ==> Rank(s[i].quality) < Rank(s[j].quality)
  }

  /** Sorted by `quality_order`. */
  predicate Ranked(s: seq<Entry>)
  {
    forall i, j :: 0 <= i < j < |s| ==> Rank(s[i].quality) <= Rank(s[j].quality)
  }

  /** Tier q appears in the list. */
  predicate Listed(s: seq<Entry>, q: Quality)
  {
    exists k :: 0 <= k < |s| && s[k].quality == q
  }

  /** Tier q is backed by some input format: an audio-only one, or a video one whose height falls in q. */
  predicate Offered(fs: seq<Format>, q: Quality)
  {
    if q == Audio then exists i :: 0 <= i < |fs| && IsAudioOnly(fs[i])
    else exists i :: 0 <= i < |fs| && InBucket(fs[i], q)
  }

  /** Collect lists, for each tier of qs, the entry pick gives it, and nothing else. */
  lemma {:induction false} CollectMembers(pick: Quality -> Option<Entry>, qs: seq<Quality>)
    requires Labelled(pick)
    ensures forall e :: e in Collect(pick, qs) <==> e.quality in qs && pick(e.quality) == Some(e)
    decreases |qs|
  {
    if qs != [] {
      CollectMembers(pick, qs[1..]);
      assert forall q :: q in qs <==> q == qs[0] || q in qs[1..];
    }
  }

  /** A list with no rank twice stays so with an entry of smaller rank in front. */
  lemma ConsStrictlyRanked(x: Entry, rest: seq<Entry>)
    requires StrictlyRanked(rest)
    requires forall k :: 0 <= k < |rest| ==> Rank(x.quality) < Rank(rest[k].quality)
    ensures StrictlyRanked([x] + rest)
  {
    forall i, j | 0 <= i < j < |[x] + rest| ensures Rank(([x] + rest)[i].quality) < Rank(([x] + rest)[j].quality) {
      assert ([x] + rest)[j] == rest[j - 1];
      if i > 0 {
        assert ([x] + rest)[i] == rest[i - 1];
      }
    }
  }

  /** Collecting tiers of increasing rank gives a list with increasing ranks. */
  lemma {:induction false} CollectRanked(pick: Quality -> Option<Entry>, qs: seq<Quality>)
    requires Labelled(pick) && RankIncreasing(qs)
    ensures StrictlyRanked(Collect(pick, qs))
    decreases |qs|
  {
    if qs != [] {
      var rest := Collect(pick, qs[1..]);
      RankIncreasingTail(qs);
      CollectRanked(pick, qs[1..]);
      if pick(qs[0]).Some? {
        CollectMembers(pick, qs[1..]);
        forall k | 0 <= k < |rest| ensures Rank(qs[0]) < Rank(rest[k].quality) {
          assert rest[k] in rest;
          var m :| 0 <= m < |qs[1..]| && qs[1..][m] == rest[k].quality;
          assert qs[m + 1] == rest[k].quality;
        }
        ConsStrictlyRanked(pick(qs[0]).value, rest);
      }
    }
  }

  lemma CollectFacts(fs: seq<Format>, qs: seq<Quality>)
    requires RankIncreasing(qs)
    ensures StrictlyRanked(Collect(EntriesOf(fs), qs))
    ensures forall e :: e in Collect(EntriesOf(fs), qs) <==> e.quality in qs && EntryFor(fs, e.quality) == Some(e)
  {
    assert Labelled(EntriesOf(fs));
    CollectRanked(EntriesOf(fs), qs);
    CollectMembers(EntriesOf(fs), qs);
  }

  /**
   * The catalogue is sorted by 2160p < 1440p < 1080p < 720p < 480p < audio
   * with each label at most once; every entry is the one its tier calls for;
   * and a tier is listed exactly when some input format backs it.
   */
  lemma CatalogueShape(fs: seq<Format>)
    ensures StrictlyRanked(Catalogue(fs))
    ensures forall e :: e in Catalogue(fs) <==> EntryFor(fs, e.quality) == Some(e)
    ensures forall q :: Listed(Catalogue(fs), q) <==> Offered(fs, q)
  {
    var c := Catalogue(fs);
    CollectFacts(fs, DisplayOrder);
    forall q ensures q in DisplayOrder {
      InDisplayOrder(q);
    }
    forall q ensures Listed(c, q) <==> Offered(fs, q) {
      if Listed(c, q) {
        var k :| 0 <= k < |c| && c[k].quality == q;
        assert c[k] in c;
        assert EntryFor(fs, q).Some?;
      }
      if Offered(fs, q) {
        if q == Audio {
          var i :| 0 <= i < |fs| && IsAudioOnly(fs[i]);
          assert !NoneSatisfy(fs, IsAudioOnly);
        } else {
          var i :| 0 <= i < |fs| && InBucket(fs[i], q);
          assert InBucketOf(q)(fs[i]);
          assert !NoneSatisfy(fs, InBucketOf(q));
        }
        var e := EntryFor(fs, q).value;
        assert e in c;
        var k :| 0 <= k < |c| && c[k] == e;
        assert c[k].quality == q;
      }
    }
  }

  /** A sorted list stays sorted with an entry of no greater rank than its head in front. */
  lemma ConsRanked(x: Entry, rest: seq<Entry>)
    requires Ranked(rest) && (rest == [] || Rank(x.quality) <= Rank(rest[0].quality))
    ensures Ranked([x] + rest)
  {
    forall i, j | 0 <= i < j < |[x] + rest| ensures Rank(([x] + rest)[i].quality) <= Rank(([x] + rest)[j].quality) {
      assert ([x] + rest)[j] == rest[j - 1];
      if i > 0 {
        assert ([x] + rest)[i] == rest[i - 1];
      } else if j > 1 {
        assert Rank(rest[0].quality) <= Rank(rest[j - 1].quality);
      }
    }
  }

  /** Inserts e after every element of no greater rank. */
  function Insert(s: seq<Entry>, e: Entry): (r: seq<Entry>)
    requires Ranked(s)
    ensures Ranked(r)
    ensures multiset(r) == multiset(s) + multiset{e}
    ensures |r| > 0 && (r[0] == e || (|s| > 0 && r[0] == s[0]))
    decreases |s|
  {
    if s == [] then [e]
    else if Rank(e.quality) < Rank(s[0].quality) then
      ConsRanked(e, s);
      [e] + s
    else
      assert s == [s[0]] + s[1..];
      assert Ranked(s[1..]) by {
        forall i, j | 0 <= i < j < |s[1..]| ensures Rank(s[1..][i].quality) <= Rank(s[1..][j].quality) {
          assert s[1..][i] == s[i + 1] && s[1..][j] == s[j + 1];
        }
      }
      var rest := Insert(s[1..], e);
      assert |s| > 1 ==> Rank(s[0].quality) <= Rank(s[1].quality);
      ConsRanked(s[0], rest);
      [s[0]] + rest
  }

  /** `list.sort(key=quality_order)`: a stable sort by rank, written as an insertion sort. */
  function SortByRank(s: seq<Entry>): (r: seq<Entry>)
    ensures Ranked(r)
    ensures multiset(r) == multiset(s)
    decreases |s|
  {
    if s == [] then []
    else
      assert s == s[..|s| - 1] + [s[|s| - 1]];
      Insert(SortByRank(s[..|s| - 1]), s[|s| - 1])
  }

  /** Two orderings by rank of the same entries start with the same entry when one of them has no rank twice. */
  lemma RankedHeadsAgree(a: seq<Entry>, b: seq<Entry>)
    requires Ranked(a) && StrictlyRanked(b) && multiset(a) == multiset(b) && a != [] && b != []
    ensures a[0] == b[0]
  {
    assert a[0] in multiset(b);
    var j :| 0 <= j < |b| && b[j] == a[0];
    assert b[0] in multiset(a);
    var k :| 0 <= k < |a| && a[k] == b[0];
    assert Rank(a[0].quality) <= Rank(a[k].quality);
  }

  /** Dropping the common head keeps the two lists permutations of each other. */
  lemma TailsPermuted(a: seq<Entry>, b: seq<Entry>)
    requires multiset(a) == multiset(b) && a != [] && b != [] && a[0] == b[0]
    ensures multiset(a[1..]) == multiset(b[1..])
  {
    assert a == [a[0]] + a[1..] && b == [b[0]] + b[1..];
    assert multiset(a) == multiset{a[0]} + multiset(a[1..]);
    assert multiset(b) == multiset{b[0]} + multiset(b[1..]);
    assert multiset(a[1..]) == multiset(a) - multiset{a[0]};
    assert multiset(b[1..]) == multiset(b) - multiset{b[0]};
  }

  /** Two orderings by rank of the same entries agree when one of them has no rank twice. */
  lemma {:induction false} RankedPermutationUnique(a: seq<Entry>, b: seq<Entry>)
    requires Ranked(a) && StrictlyRanked(b) && multiset(a) == multiset(b)
    ensures a == b
    decreases |a|
  {
    assert |a| == |multiset(a)| == |multiset(b)| == |b|;
    if a != [] {
      RankedHeadsAgree(a, b);
      TailsPermuted(a, b);
      RankedPermutationUnique(a[1..], b[1..]);
      assert a == [a[0]] + a[1..] && b == [b[0]] + b[1..];
    }
  }

  lemma {:induction false} CollectAppend(pick: Quality -> Option<Entry>, qs: seq<Quality>, rs: seq<Quality>)
    ensures Collect(pick, qs + rs) == Collect(pick, qs) + Collect(pick, rs)
    decreases |qs|
  {
    if qs == [] {
      assert qs + rs == rs;
    } else {
      assert (qs + rs)[0] == qs[0];
      assert (qs + rs)[1..] == qs[1..] + rs;
      CollectAppend(pick, qs[1..], rs);
    }
  }

  /** Extending the scanned prefix by fs[i] fills tier q exactly when q was empty and fs[i] falls in it. */
  lemma EntryForStep(fs: seq<Format>, i: int, q: Quality)
    requires 0 <= i < |fs| && q != Audio
    ensures EntryFor(fs[..i + 1], q) ==
      if EntryFor(fs[..i], q).None? && InBucket(fs[i], q)
      then Some(VideoEntry(fs[i], fs[i].height.value, q))
      else EntryFor(fs[..i], q)
  {
    assert fs[..i + 1][..i] == fs[..i];
    assert fs[..i + 1][i] == fs[i];
    assert InBucketOf(q)(fs[i]) == InBucket(fs[i], q);
  }

  /** Tiers whose entries did not change contribute the same entries. */
  lemma {:induction false} CollectSame(pa: Quality -> Option<Entry>, pb: Quality -> Option<Entry>, qs: seq<Quality>)
    requires forall q :: q in qs ==> pa(q) == pb(q)
    ensures Collect(pa, qs) == Collect(pb, qs)
    decreases |qs|
  {
    if qs != [] {
      assert qs[0] in qs;
      CollectSame(pa, pb, qs[1..]);
    }
  }

  lemma RankIncreasingTail(qs: seq<Quality>)
    requires RankIncreasing(qs) && qs != []
    ensures RankIncreasing(qs[1..]) && qs[0] !in qs[1..]
  {
    forall i, j | 0 <= i < j < |qs[1..]| ensures Rank(qs[1..][i]) < Rank(qs[1..][j]) {
      assert qs[1..][i] == qs[i + 1] && qs[1..][j] == qs[j + 1];
    }
    forall k | 0 <= k < |qs[1..]| ensures qs[1..][k] != qs[0] {
      assert qs[1..][k] == qs[k + 1];
    }
  }

  /** Filling one empty tier adds exactly its entry. */
  lemma {:induction false} CollectAdd(pa: Quality -> Option<Entry>, pb: Quality -> Option<Entry>,
                                      qs: seq<Quality>, q: Quality, e: Entry)
    requires RankIncreasing(qs) && q in qs
    requires pa(q).None? && pb(q) == Some(e)
    requires forall q' :: q' in qs && q' != q ==> pa(q') == pb(q')
    ensures multiset(Collect(pb, qs)) == multiset(Collect(pa, qs)) + multiset{e}
    decreases |qs|
  {
    RankIncreasingTail(qs);
    var tail := qs[1..];
    assert forall q' :: q' in tail ==> q' in qs;
    if qs[0] == q {
      CollectSame(pa, pb, tail);
    } else {
      assert qs[0] in qs;
      assert q in tail by {
        assert qs == [qs[0]] + tail;
      }
      CollectAdd(pa, pb, tail, q, e);
    }
  }

  /** The video tier a format is listed under, if any. */
  function VideoTier(f: Format): Option<Quality>
  {
    if HasVideoAndAudio(f) && f.height.Present? then Bucket(f.height.value) else None
  }

  /** `seen_qualities` holds exactly the video tiers that the formats scanned so far fill. */
  ghost predicate SeenTiers(fs: seq<Format>, i: int, seen: set<Quality>)
    requires 0 <= i <= |fs|
  {
    forall q :: q in seen <==> q != Audio && EntryFor(fs[..i], q).Some?
  }

  /** Scanning fs[i] adds its tier to the seen tiers, and nothing else. */
  lemma ScanSeen(fs: seq<Format>, i: int, seen: set<Quality>, seen': set<Quality>)
    requires 0 <= i < |fs| && SeenTiers(fs, i, seen)
    requires seen' == if VideoTier(fs[i]).Some? then seen + {VideoTier(fs[i]).value} else seen
    ensures SeenTiers(fs, i + 1, seen')
  {
    forall q
      ensures q in seen' <==> q != Audio && EntryFor(fs[..i + 1], q).Some?
    {
      if q != Audio {
        EntryForStep(fs, i, q);
      }
    }
  }

  /** The entries of the video tiers grow by the entry of the tier fs[i] fills, if it fills one. */
  lemma ScanCollect(fs: seq<Format>, i: int)
    requires 0 <= i < |fs|
    ensures multiset(Collect(EntriesOf(fs[..i + 1]), VideoTiers)) ==
      multiset(Collect(EntriesOf(fs[..i]), VideoTiers)) +
      if VideoTier(fs[i]).Some? && EntryFor(fs[..i], VideoTier(fs[i]).value).None?
      then multiset{VideoEntry(fs[i], fs[i].height.value, VideoTier(fs[i]).value)}
      else multiset{}
  {
    var t := VideoTier(fs[i]);
    if t.Some? && EntryFor(fs[..i], t.value).None? {
      forall q | q in VideoTiers && q != t.value
        ensures EntryFor(fs[..i], q) == EntryFor(fs[..i + 1], q)
      {
        EntryForStep(fs, i, q);
      }
      EntryForStep(fs, i, t.value);
      assert t.value in VideoTiers by { InDisplayOrder(t.value); }
      CollectAdd(EntriesOf(fs[..i]), EntriesOf(fs[..i + 1]), VideoTiers, t.value,
                 VideoEntry(fs[i], fs[i].height.value, t.value));
    } else {
      forall q | q in VideoTiers
        ensures EntryFor(fs[..i], q) == EntryFor(fs[..i + 1], q)
      {
        EntryForStep(fs, i, q);
      }
      CollectSame(EntriesOf(fs[..i]), EntriesOf(fs[..i + 1]), VideoTiers);
    }
  }

  /** Before any format is scanned no tier has an entry. */
  lemma CollectOfNothing(qs: seq<Quality>)
    ensures Collect(EntriesOf([]), qs) == []
  {
    forall q ensures EntryFor([], q) == None {
      if q == Audio {
        assert NoneSatisfy([], IsAudioOnly);
      } else {
        assert NoneSatisfy([], InBucketOf(q));
      }
    }
    CollectSame(EntriesOf([]), _ => None, qs);
    CollectNone(qs);
  }

  lemma {:induction false} CollectNone(qs: seq<Quality>)
    ensures Collect(_ => None, qs) == []
    decreases |qs|
  {
    if qs != [] {
      CollectNone(qs[1..]);
    }
  }

  /** Sorting what the scan collected gives the catalogue in display order. */
  lemma SortedScanIsCatalogue(fs: seq<Format>, scanned: seq<Entry>)
    requires Gathered(fs, |fs|, scanned)
    ensures SortByRank(scanned) == Catalogue(fs)
  {
    GatheredAll(fs, scanned);
    CatalogueShape(fs);
    RankedPermutationUnique(SortByRank(scanned), Catalogue(fs));
  }

  /** After the whole scan the list holds the catalogue's entries, in some order. */
  lemma GatheredAll(fs: seq<Format>, scanned: seq<Entry>)
    requires Gathered(fs, |fs|, scanned)
    ensures multiset(scanned) == multiset(Catalogue(fs))
  {
    assert fs[..|fs|] == fs;
    assert [Audio][1..] == [];
    assert Collect(EntriesOf(fs), [Audio]) == Picked(fs, Audio);
    CollectAppend(EntriesOf(fs), VideoTiers, [Audio]);
  }

  /**
   * What the scan of app.py:112-147 knows after the first i formats: none of
   * them made the tier chain raise, `seen_qualities` holds exactly the video
   * tiers those formats fill, and the list holds the audio entry and the
   * entries of those tiers.
   */
  ghost predicate Scanned(fs: seq<Format>, i: int, seen: set<Quality>, formats: seq<Entry>)
  {
    && 0 <= i <= |fs|
    && NoNullBefore(fs, i)
    && SeenTiers(fs, i, seen)
    && Gathered(fs, i, formats)
  }

  /** The list holds the audio entry and the entries of the video tiers the first i formats fill, in some order. */
  ghost predicate Gathered(fs: seq<Format>, i: int, formats: seq<Entry>)
    requires 0 <= i <= |fs|
  {
    multiset(formats) == multiset(Picked(fs, Audio)) + multiset(Collect(EntriesOf(fs[..i]), VideoTiers))
  }

  /** Scanning fs[i] appends its tier's entry exactly when that tier was not yet seen. */
  lemma GatherStep(fs: seq<Format>, i: int, seen: set<Quality>, formats: seq<Entry>, formats': seq<Entry>)
    requires 0 <= i < |fs| && SeenTiers(fs, i, seen) && Gathered(fs, i, formats)
    requires VideoTier(fs[i]).Some? && VideoTier(fs[i]).value !in seen ==>
      formats' == formats + [VideoEntry(fs[i], fs[i].height.value, VideoTier(fs[i]).value)]
    requires !(VideoTier(fs[i]).Some? && VideoTier(fs[i]).value !in seen) ==> formats' == formats
    ensures Gathered(fs, i + 1, formats')
  {
    ScanCollect(fs, i);
    var audio := multiset(Picked(fs, Audio));
    var before := multiset(Collect(EntriesOf(fs[..i]), VideoTiers));
    var after := multiset(Collect(EntriesOf(fs[..i + 1]), VideoTiers));
    var t := VideoTier(fs[i]);
    if t.Some? && t.value !in seen {
      var e := VideoEntry(fs[i], fs[i].height.value, t.value);
      assert after == before + multiset{e};
      assert multiset(formats') == multiset(formats) + multiset{e};
    } else {
      assert after == before;
    }
  }

  /** One iteration of the scan keeps `Scanned`: a format adds its tier's entry when the tier is not yet seen. */
  lemma ScanAdvance(fs: seq<Format>, i: int, next: int, seen: set<Quality>, formats: seq<Entry>,
                    seen': set<Quality>, formats': seq<Entry>)
    requires 0 <= i < |fs| && next == i + 1 && Scanned(fs, i, seen, formats)
    requires !(HasVideoAndAudio(fs[i]) && fs[i].height.Null?)
    requires VideoTier(fs[i]).Some? && VideoTier(fs[i]).value !in seen ==>
      seen' == seen + {VideoTier(fs[i]).value} &&
      formats' == formats + [VideoEntry(fs[i], fs[i].height.value, VideoTier(fs[i]).value)]
    requires !(VideoTier(fs[i]).Some? && VideoTier(fs[i]).value !in seen) ==>
      seen' == seen && formats' == formats
    ensures Scanned(fs, next, seen', formats')
  {
    ScanSeen(fs, i, seen, seen');
    GatherStep(fs, i, seen, formats, formats');
  }

  /** The scan starts from the audio entry alone. */
  lemma ScanStart(fs: seq<Format>, formats: seq<Entry>)
    requires formats == Picked(fs, Audio)
    ensures Scanned(fs, 0, {}, formats)
  {
    CollectOfNothing(VideoTiers);
    assert fs[..0] == [];
  }

  /** The two variables the scan of app.py:112-147 updates: the list of entries and `seen_qualities`. */
  datatype ScanState = ScanState(formats: seq<Entry>, seen: set<Quality>)

  /**
   * One iteration of the scan: a format without both streams is skipped, a
   * None height raises (None), and a format whose tier is not yet seen adds
   * its entry and its tier.
   */
  function Visit(st: ScanState, f: Format): Option<ScanState>
  {
    if !HasVideoAndAudio(f) then Some(st)
    else if f.height.Null? then None
    else
      var t := VideoTier(f);
      if t.Some? && t.value !in st.seen
      then Some(ScanState(st.formats + [VideoEntry(f, f.height.value, t.value)], st.seen + {t.value}))
      else Some(st)
  }

  /** The scan over fs, starting from the list init and no seen tier. */
  function Scan(fs: seq<Format>, init: seq<Entry>): Option<ScanState>
    decreases |fs|
  {
    if fs == [] then Some(ScanState(init, {}))
    else
      match Scan(fs[..|fs| - 1], init)
      case None => None
      case Some(st) => Visit(st, fs[|fs| - 1])
  }

  /** No format among the first k has both streams and a None height. */
  predicate NoNullBefore(fs: seq<Format>, k: int)
    requires 0 <= k <= |fs|
  {
    forall j :: 0 <= j < k ==> !(HasVideoAndAudio(fs[j]) && fs[j].height.Null?)
  }

  /** Scanning one more format is one more `Visit`. */
  lemma ScanLast(fs: seq<Format>, k: int, init: seq<Entry>)
    requires 0 < k <= |fs|
    ensures Scan(fs[..k], init) ==
      if Scan(fs[..k - 1], init).None? then None else Visit(Scan(fs[..k - 1], init).value, fs[k - 1])
  {
    assert fs[..k][..k - 1] == fs[..k - 1];
    assert fs[..k][k - 1] == fs[k - 1];
  }

  /** A visit raises exactly on a None height, and otherwise keeps `Scanned`. */
  lemma VisitKeepsScanned(fs: seq<Format>, i: int, st: ScanState)
    requires 0 <= i < |fs| && Scanned(fs, i, st.seen, st.formats)
    ensures Visit(st, fs[i]).None? <==> HasVideoAndAudio(fs[i]) && fs[i].height.Null?
    ensures Visit(st, fs[i]).Some? ==> Scanned(fs, i + 1, Visit(st, fs[i]).value.seen, Visit(st, fs[i]).value.formats)
  {
    var next := Visit(st, fs[i]);
    if next.Some? {
      ScanAdvance(fs, i, i + 1, st.seen, st.formats, next.value.seen, next.value.formats);
    }
  }

  /** Scanning the first k formats from the audio entry raises exactly on a None height, and otherwise keeps `Scanned`. */
  lemma {:induction false} ScanMeaning(fs: seq<Format>, k: int)
    requires 0 <= k <= |fs|
    ensures Scan(fs[..k], Picked(fs, Audio)).None? <==> !NoNullBefore(fs, k)
    ensures Scan(fs[..k], Picked(fs, Audio)).Some? ==>
      Scanned(fs, k, Scan(fs[..k], Picked(fs, Audio)).value.seen, Scan(fs[..k], Picked(fs, Audio)).value.formats)
    decreases k
  {
    if k == 0 {
      assert fs[..0] == [];
      ScanStart(fs, Picked(fs, Audio));
    } else {
      ScanMeaning(fs, k - 1);
      ScanLast(fs, k, Picked(fs, Audio));
      var prev := Scan(fs[..k - 1], Picked(fs, Audio));
      if prev.Some? {
        VisitKeepsScanned(fs, k - 1, prev.value);
      }
    }
  }

  /** The scan over all formats, sorted, is the catalogue; it raises exactly when a format with both streams has a None height. */
  lemma ScanOutcome(fs: seq<Format>)
    ensures Scan(fs, Picked(fs, Audio)).None? <==> HasNullVideoHeight(fs)
    ensures Scan(fs, Picked(fs, Audio)).Some? ==>
      SortByRank(Scan(fs, Picked(fs, Audio)).value.formats) == Catalogue(fs)
  {
    ScanMeaning(fs, |fs|);
    assert fs[..|fs|] == fs;
    assert NoNullBefore(fs, |fs|) <==> !HasNullVideoHeight(fs);
    var st := Scan(fs, Picked(fs, Audio));
    if st.Some? {
      SortedScanIsCatalogue(fs, st.value.formats);
    }
  }

  /**
   * The format processing of `get_video_info` (app.py:91-151), as the source
   * runs it: pick the best audio-only format, walk the formats with both
   * streams keeping the first one per height tier, then sort by tier. A
   * format with both streams and a None height makes the tier comparison
   * raise, which `get_video_info` turns into an error.
   */
  method BuildCatalogue(fs: seq<Format>) returns (r: Result<seq<Entry>>)
    ensures r.Err? <==> HasNullVideoHeight(fs)
    ensures r.Err? ==> r.message == NoneComparison
    ensures r.Ok? ==> r.value == Catalogue(fs)
  {
    var formats: seq<Entry> := [];
    var seen: set<Quality> := {};

    var best := FirstMax(fs, IsAudioOnly, AudioRate);
    if best.Some? {
      formats := formats + [AudioEntry(fs[best.value])];
    }
    assert formats == Picked(fs, Audio);
    ScanOutcome(fs);

    var i := 0;
    while i < |fs|
      invariant 0 <= i <= |fs|
      invariant Scan(fs[..i], Picked(fs, Audio)) == Some(ScanState(formats, seen))
    {
      var f := fs[i];
      assert fs[..i + 1][..i] == fs[..i];
      assert fs[..i + 1][i] == f;
      if HasVideoAndAudio(f) {
        if f.height.Null? {
          // `height >= 2160` on None raises TypeError, caught at app.py:163
          return Err(NoneComparison);
        }
        var height := if f.height.Present? then f.height.value else 0;
        var quality := Bucket(height);
        if quality.Some? && quality.value !in seen {
          seen := seen + {quality.value};
          formats := formats + [VideoEntry(f, height, quality.value)];
        }
      }
      i := i + 1;
    }

    assert fs[..i] == fs;
    formats := SortByRank(formats);
    r := Ok(formats);
  }

  lemma InDisplayOrder(q: Quality)
    ensures q in DisplayOrder
  {
    match q
    case P2160 => assert DisplayOrder[0] == q;
    case P1440 => assert DisplayOrder[1] == q;
    case P1080 => assert DisplayOrder[2] == q;
    case P720 => assert DisplayOrder[3] == q;
    case P480 => assert DisplayOrder[4] == q;
    case Audio => assert DisplayOrder[5] == q;
  }

  /** The set of tiers that some format backs. */
  function OfferedSet(fs: seq<Format>): (s: set<Quality>)
    ensures forall q :: q in s <==> Offered(fs, q)
  {
    var s := set q | q in DisplayOrder && Offered(fs, q);
    assert forall q :: q in s <==> Offered(fs, q) by {
      forall q ensures q in DisplayOrder {
        InDisplayOrder(q);
      }
    }
    s
  }

  /**
   * The `available_qualities` loop of `download_video` (app.py:203-213): the
   * tiers of the formats with both streams (those under 480 add nothing), and
   * "audio" when some format is audio-only. A None height on a format with
   * both streams makes the comparison raise.
   */
  method AvailableQualities(fs: seq<Format>) returns (r: Result<set<Quality>>)
    ensures r.Err? <==> HasNullVideoHeight(fs)
    ensures r.Err? ==> r.message == NoneComparison
    ensures r.Ok? ==> r.value == OfferedSet(fs)
  {
    var available: set<Quality> := {};
    var i := 0;
    while i < |fs|
      invariant 0 <= i <= |fs|
      invariant forall j :: 0 <= j < i ==> !(HasVideoAndAudio(fs[j]) && fs[j].height.Null?)
      invariant forall q :: q in available <==> Offered(fs[..i], q)
    {
      var f := fs[i];
      assert fs[..i + 1] == fs[..i] + [f];
      if HasVideoAndAudio(f) {
        if f.height.Null? {
          return Err(NoneComparison);
        }
        var height := if f.height.Present? then f.height.value else 0;
        var quality := Bucket(height);
        if quality.Some? {
          available := available + {quality.value};
        }
      } else if HasCodec(f.acodec) && !HasCodec(f.vcodec) {
        available := available + {Audio};
      }
      i := i + 1;
    }
    assert fs[..i] == fs;
    r := Ok(available);
  }

  /** The error message of `download_video` names exactly the tiers the catalogue lists. */
  lemma OfferedSetIsCatalogueLabels(fs: seq<Format>)
    ensures forall q :: q in OfferedSet(fs) <==> Listed(Catalogue(fs), q)
  {
    CatalogueShape(fs);
  }

  /**
   * The catalogue and the picker disagree: a tier backed only by formats whose
   * height is above the tier's threshold is listed, yet asking the picker for
   * that tier's label finds no format.
   */
  lemma ListedTierNotPickable(fs: seq<Format>, q: Quality)
    requires q != Audio && Offered(fs, q)
    requires forall i :: 0 <= i < |fs| && HasVideoAndAudio(fs[i]) ==> !HeightEquals(fs[i], MinHeight(q))
    ensures Listed(Catalogue(fs), q)
    ensures GetBestFormat(fs, Label(q)) == Ok(None)
  {
    CatalogueShape(fs);
    RequestedHeightOfLabel(q);
    assert Label(q) != "audio";
    forall j | 0 <= j < |fs| ensures !VideoOfHeight(MinHeight(q))(fs[j]) {
    }
  }
}
