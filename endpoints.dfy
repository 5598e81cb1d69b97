/**
 * The two JSON endpoints of app.py with the extractor call taken as a
 * parameter: `video_info` (app.py:168-182), which validates the URL and
 * returns the catalogue, and `download_video` (app.py:184-256) up to the
 * point where it hands a format to the downloader.
 */
module Endpoints {
  import opened Common
  import opened Formats
  import opened QualityCatalogue

  const UrlRequired := "URL is required"
  const UrlAndQualityRequired := "URL and quality are required"

  /** The text of the KeyError `selected_format['format_id']` raises on a format without that key. */
  const MissingFormatId := "'format_id'"

  /** Python truthiness of a string read with `data.get(key)`: a missing key (None) and "" are false. */
  predicate Given(v: Option<string>)
  {
    v.Some? && v.value != ""
  }

  /**
   * `video_info` (app.py:168-182): a missing or empty URL is rejected before
   * the extractor is asked; an extractor failure is passed on; otherwise the
   * catalogue of `get_video_info`.
   */
  method VideoInfo(url: Option<string>, extract: string -> Result<seq<Format>>) returns (r: Result<seq<Entry>>)
    ensures !Given(url) ==> r == Err(UrlRequired)
    ensures Given(url) && extract(url.value).Err? ==> r == Err(extract(url.value).message)
    ensures Given(url) && extract(url.value).Ok? ==>
      (r.Err? <==> HasNullVideoHeight(extract(url.value).value))
    ensures Given(url) && extract(url.value).Ok? && r.Err? ==> r.message == NoneComparison
    ensures Given(url) && extract(url.value).Ok? && r.Ok? ==> r.value == Catalogue(extract(url.value).value)
  {
    if !Given(url) {
      return Err(UrlRequired);
    }
    var info := extract(url.value);
    if info.Err? {
      return Err(info.message);
    }
    r := BuildCatalogue(info.value);
  }

  /** The tiers in the order Python's `sorted` puts their labels: by code point. */
  const LexOrder: seq<Quality> := [P1080, P1440, P2160, P480, P720, Audio]

  /** Python's `<` on strings: a proper prefix, or a smaller code point at the first difference. */
  predicate StrLess(a: string, b: string)
    decreases |a|
  {
    if a == [] then b != []
    else b != [] && (a[0] < b[0] || (a[0] == b[0] && StrLess(a[1..], b[1..])))
  }

  lemma LexOrderSorted()
    ensures forall i, j :: 0 <= i < j < |LexOrder| ==> StrLess(Label(LexOrder[i]), Label(LexOrder[j]))
  {
    assert StrLess("1080p", "1440p") && StrLess("1080p", "2160p") && StrLess("1080p", "480p");
    assert StrLess("1080p", "720p") && StrLess("1080p", "audio");
    assert StrLess("1440p", "2160p") && StrLess("1440p", "480p") && StrLess("1440p", "720p");
    assert StrLess("1440p", "audio");
    assert StrLess("2160p", "480p") && StrLess("2160p", "720p") && StrLess("2160p", "audio");
    assert StrLess("480p", "720p") && StrLess("480p", "audio");
    assert StrLess("720p", "audio");
  }

  /** The labels of the tiers in qs that belong to s, in the order of qs. */
  function LabelsIn(qs: seq<Quality>, s: set<Quality>): (r: seq<string>)
    ensures forall x :: x in r <==> exists q :: q in qs && q in s && Label(q) == x
    ensures forall k :: 0 <= k < |r| ==> exists i :: 0 <= i < |qs| && r[k] == Label(qs[i])
    decreases |qs|
  {
    if qs == [] then []
    else
      var rest := LabelsIn(qs[1..], s);
      assert forall q :: q in qs[1..] ==> q in qs;
      assert forall q :: q in qs ==> q == qs[0] || q in qs[1..];
      if qs[0] in s then [Label(qs[0])] + rest else rest
  }

  /** `sorted(list(available_qualities))`: the labels of s in increasing string order. */
  function SortedLabels(s: set<Quality>): (r: seq<string>)
    ensures forall q :: Label(q) in r <==> q in s
    ensures forall x :: x in r ==> exists q :: q in s && Label(q) == x
    ensures forall i, j :: 0 <= i < j < |r| ==> StrLess(r[i], r[j])
  {
    SortedLabelsFacts(s);
    LabelsIn(LexOrder, s)
  }

  /** No item holds a single quote, so `repr` writes each one between single quotes as it is. */
  predicate QuoteFree(xs: seq<string>)
  {
    forall k :: 0 <= k < |xs| ==> '\'' !in xs[k]
  }

  /** Python's `repr` of a list of quote-free strings: the items, quoted, between brackets. */
  function ListRepr(xs: seq<string>): (r: string)
    ensures |r| >= 2 && r[0] == '[' && r[|r| - 1] == ']'
    ensures r == "[]" <==> xs == []
  {
    var items := Items(xs);
    assert ("[" + items + "]")[1..|items| + 1] == items;
    "[" + items + "]"
  }

  /** The quoted items separated by ", ". */
  function Items(xs: seq<string>): (r: string)
    ensures r == [] <==> xs == []
    ensures xs != [] ==> r[0] == '\''
    decreases |xs|
  {
    if xs == [] then ""
    else if |xs| == 1 then "'" + xs[0] + "'"
    else "'" + xs[0] + "', " + Items(xs[1..])
  }

  /** In a quoted quote-free item followed by more text, the item ends at the first quote after the opening one. */
  lemma QuotedItem(a: string, rest: string)
    requires '\'' !in a
    ensures ("'" + a + "'" + rest)[|a| + 1] == '\''
    ensures forall k :: 1 <= k <= |a| ==> ("'" + a + "'" + rest)[k] == a[k - 1] != '\''
    ensures ("'" + a + "'" + rest)[1..|a| + 1] == a
    ensures ("'" + a + "'" + rest)[|a| + 2..] == rest
  {
    forall k | 0 <= k < |a| ensures a[k] != '\'' {
      assert a[k] in a;
    }
  }

  lemma QuoteFreeTail(xs: seq<string>)
    requires xs != [] && QuoteFree(xs)
    ensures QuoteFree(xs[1..])
  {
    forall k | 0 <= k < |xs[1..]| ensures '\'' !in xs[1..][k] {
      assert xs[1..][k] == xs[k + 1];
    }
  }

  /** Two lists of quote-free strings with the same item text are the same list. */
  lemma {:induction false} ItemsInjective(xs: seq<string>, ys: seq<string>)
    requires QuoteFree(xs) && QuoteFree(ys) && Items(xs) == Items(ys)
    ensures xs == ys
    decreases |xs|
  {
    if xs != [] && ys != [] {
      var a, b := xs[0], ys[0];
      var s := Items(xs);
      var restX := if |xs| == 1 then "" else ", " + Items(xs[1..]);
      var restY := if |ys| == 1 then "" else ", " + Items(ys[1..]);
      assert s == "'" + a + "'" + restX;
      assert s == "'" + b + "'" + restY;
      QuotedItem(a, restX);
      QuotedItem(b, restY);
      assert |a| == |b|;
      assert a == s[1..|a| + 1] == b;
      assert restX == s[|a| + 2..] == restY;
      if |xs| > 1 && |ys| > 1 {
        assert Items(xs[1..]) == restX[2..] == Items(ys[1..]);
        QuoteFreeTail(xs);
        QuoteFreeTail(ys);
        ItemsInjective(xs[1..], ys[1..]);
        assert xs == [a] + xs[1..] && ys == [b] + ys[1..];
      } else {
        assert |xs| == 1 && |ys| == 1;
      }
    }
  }

  /** `repr` tells lists of quote-free strings apart: the text determines the list. */
  lemma ListReprInjective(xs: seq<string>, ys: seq<string>)
    requires QuoteFree(xs) && QuoteFree(ys)
    ensures ListRepr(xs) == ListRepr(ys) <==> xs == ys
  {
    if ListRepr(xs) == ListRepr(ys) {
      var r := ListRepr(xs);
      assert Items(xs) == r[1..|r| - 1] == Items(ys);
      ItemsInjective(xs, ys);
    }
  }

  /** The error text of app.py:215-217. */
  function NotAvailable(quality: string, available: set<Quality>): string
  {
    "Quality " + quality + " not available. Available qualities: " + ListRepr(SortedLabels(available))
  }

  lemma LabelQuoteFree(q: Quality)
    ensures forall k :: 0 <= k < |Label(q)| ==> Label(q)[k] != '\''
  {
  }

  /** Tier labels hold no quote, so a list of them is quote-free. */
  lemma LabelsQuoteFree(s: set<Quality>)
    ensures QuoteFree(SortedLabels(s))
  {
    var r := SortedLabels(s);
    forall k | 0 <= k < |r| ensures '\'' !in r[k] {
      assert r[k] in r;
      var q :| q in s && Label(q) == r[k];
      LabelQuoteFree(q);
    }
  }

  /** For one quality, two "not available" messages are the same text exactly when they list the same tiers. */
  lemma NotAvailableIdentifies(quality: string, a: set<Quality>, b: set<Quality>)
    ensures NotAvailable(quality, a) == NotAvailable(quality, b) <==> a == b
  {
    if NotAvailable(quality, a) == NotAvailable(quality, b) {
      var head := "Quality " + quality + " not available. Available qualities: ";
      assert NotAvailable(quality, a)[|head|..] == ListRepr(SortedLabels(a));
      assert NotAvailable(quality, b)[|head|..] == ListRepr(SortedLabels(b));
      LabelsQuoteFree(a);
      LabelsQuoteFree(b);
      ListReprInjective(SortedLabels(a), SortedLabels(b));
      assert forall q :: q in a <==> q in b;
    }
  }

  /** What `download_video` hands to the downloader: the picked format, the `format` option and whether audio is extracted. */
  datatype DownloadPlan = DownloadPlan(selected: Format, formatSpec: Field<string>, extractAudio: bool)

  /**
   * `download_video` (app.py:184-256) up to the download itself: both fields
   * are required; extractor and parse failures are passed on; a quality with
   * no matching format lists the available tiers; a picked format without
   * 'format_id' raises KeyError; "audio" asks the downloader for
   * 'bestaudio/best' and an mp3 extraction.
   */
  method DownloadVideo(url: Option<string>, quality: Option<string>, extract: string -> Result<seq<Format>>)
    returns (r: Result<DownloadPlan>)
    ensures !(Given(url) && Given(quality)) ==> r == Err(UrlAndQualityRequired)
    ensures Given(url) && Given(quality) && extract(url.value).Err? ==> r == Err(extract(url.value).message)
    ensures Given(url) && Given(quality) && extract(url.value).Ok? ==>
      var fs := extract(url.value).value;
      var pick := GetBestFormat(fs, quality.value);
      && (pick.Err? ==> r == Err(pick.message))
      && (pick == Ok(None) && HasNullVideoHeight(fs) ==> r == Err(NoneComparison))
      && (pick == Ok(None) && !HasNullVideoHeight(fs) ==> r == Err(NotAvailable(quality.value, OfferedSet(fs))))
      && (pick.Ok? && pick.value.Some? && pick.value.value.formatId.Absent? ==> r == Err(MissingFormatId))
      && (pick.Ok? && pick.value.Some? && !pick.value.value.formatId.Absent? ==>
            r == Ok(DownloadPlan(pick.value.value,
                                 if quality.value == "audio" then Present("bestaudio/best") else pick.value.value.formatId,
                                 quality.value == "audio")))
  {
    if !Given(url) || !Given(quality) {
      return Err(UrlAndQualityRequired);
    }
    var info := extract(url.value);
    if info.Err? {
      return Err(info.message);
    }
    var q := quality.value;
    var pick := GetBestFormat(info.value, q);
    if pick.Err? {
      return Err(pick.message);
    }
    if pick.value.None? {
      var available := AvailableQualities(info.value);
      if available.Err? {
        return Err(available.message);
      }
      return Err(NotAvailable(q, available.value));
    }
    var f := pick.value.value;
    if f.formatId.Absent? {
      return Err(MissingFormatId);
    }
    var spec := f.formatId;
    var extractAudio := false;
    if q == "audio" {
      spec := Present("bestaudio/best");
      extractAudio := true;
    }
    r := Ok(DownloadPlan(f, spec, extractAudio));
  }

  /** The "not available" message names exactly the tiers that the catalogue of the same formats lists. */
  lemma NotAvailableNamesCatalogue(fs: seq<Format>)
    ensures forall q :: Label(q) in SortedLabels(OfferedSet(fs)) <==> Listed(Catalogue(fs), q)
  {
    OfferedSetIsCatalogueLabels(fs);
  }

  lemma SortedLabelsFacts(s: set<Quality>)
    ensures forall q :: Label(q) in LabelsIn(LexOrder, s) <==> q in s
    ensures forall i, j :: 0 <= i < j < |LabelsIn(LexOrder, s)| ==>
      StrLess(LabelsIn(LexOrder, s)[i], LabelsIn(LexOrder, s)[j])
  {
    forall q ensures Label(q) in LabelsIn(LexOrder, s) <==> q in s {
      if Label(q) in LabelsIn(LexOrder, s) {
        var q' :| q' in LexOrder && q' in s && Label(q') == Label(q);
        LabelInjective(q, q');
      }
      if q in s {
        InLexOrder(q);
      }
    }
    LexOrderSorted();
    LabelsInOrdered(LexOrder, s);
  }

  lemma InLexOrder(q: Quality)
    ensures q in LexOrder
  {
    match q
    case P1080 => assert LexOrder[0] == q;
    case P1440 => assert LexOrder[1] == q;
    case P2160 => assert LexOrder[2] == q;
    case P480 => assert LexOrder[3] == q;
    case P720 => assert LexOrder[4] == q;
    case Audio => assert LexOrder[5] == q;
  }

  /** Keeping some labels of a list that is ordered pairwise keeps it ordered. */
  lemma {:induction false} LabelsInOrdered(qs: seq<Quality>, s: set<Quality>)
    requires forall i, j :: 0 <= i < j < |qs| ==> StrLess(Label(qs[i]), Label(qs[j]))
    ensures forall i, j :: 0 <= i < j < |LabelsIn(qs, s)| ==> StrLess(LabelsIn(qs, s)[i], LabelsIn(qs, s)[j])
    decreases |qs|
  {
    if qs != [] {
      LabelsInOrdered(qs[1..], s);
      var rest := LabelsIn(qs[1..], s);
      forall k | 0 <= k < |rest| ensures StrLess(Label(qs[0]), rest[k]) {
        var i :| 0 <= i < |qs[1..]| && rest[k] == Label(qs[1..][i]);
        assert qs[1..][i] == qs[i + 1];
      }
    }
  }
}
