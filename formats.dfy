/**
 * Format records as the video extractor reports them, the quality tiers the
 * server offers, and `get_best_format`, which picks the format to download for
 * a requested quality (app.py).
 */
module Formats {
  import opened Common

  /** How one key of a format dictionary reads: missing, present with the value None, or present. */
  datatype Field<T> = Absent | Null | Present(value: T)

  /** `record.get(key, default)`: a missing key gives the default, a None value stays None. */
  function GetOr<T>(f: Field<T>, default: T): Field<T>
  {
    if f.Absent? then Present(default) else f
  }

  /** The keys of a format record that the server reads. */
  datatype Format = Format(
    formatId: Field<string>,
    vcodec: Field<string>,
    acodec: Field<string>,
    height: Field<int>,
    tbr: Field<real>,
    abr: Field<real>)

  /**
   * `f.get(codec) != 'none'`: only the literal string "none" means "no such
   * stream"; a missing codec and a None codec both read as present.
   */
  predicate HasCodec(c: Field<string>)
  {
    c != Present("none")
  }

  /** The filter of app.py:50 and app.py:95. */
  predicate IsAudioOnly(f: Format)
  {
    HasCodec(f.acodec) && !HasCodec(f.vcodec)
  }

  /** The filter of app.py:63-64 and app.py:113. */
  predicate HasVideoAndAudio(f: Format)
  {
    HasCodec(f.vcodec) && HasCodec(f.acodec)
  }

  /** `x.get(key, 0) or 0`: a missing key, None and 0 all read as 0. */
  function Rate(r: Field<real>): real
  {
    if r.Present? then r.value else 0.0
  }

  function AudioRate(f: Format): real
  {
    Rate(f.abr)
  }

  function TotalRate(f: Format): real
  {
    Rate(f.tbr)
  }

  /** The quality tiers, with the labels the server and the page use. */
  datatype Quality = P2160 | P1440 | P1080 | P720 | P480 | Audio

  function Label(q: Quality): string
  {
    match q
    case P2160 => "2160p"
    case P1440 => "1440p"
    case P1080 => "1080p"
    case P720 => "720p"
    case P480 => "480p"
    case Audio => "audio"
  }

  /** No two tiers share a label. */
  lemma LabelInjective(q1: Quality, q2: Quality)
    requires Label(q1) == Label(q2)
    ensures q1 == q2
  {
    assert Label(q1)[0] == Label(q2)[0] && Label(q1)[1] == Label(q2)[1];
  }

  /** The sort key `quality_order` of app.py:150. */
  function Rank(q: Quality): nat
  {
    match q
    case P2160 => 0
    case P1440 => 1
    case P1080 => 2
    case P720 => 3
    case P480 => 4
    case Audio => 5
  }

  /** The least height that a video tier accepts. */
  function MinHeight(q: Quality): int
    requires q != Audio
  {
    match q
    case P2160 => 2160
    case P1440 => 1440
    case P1080 => 1080
    case P720 => 720
    case P480 => 480
  }

  /**
   * The height-to-tier chain of app.py:121-132 (and its copy at app.py:207-211):
   * the highest tier whose threshold the height reaches; below 480 there is none.
   */
  function Bucket(h: int): (r: Option<Quality>)
    ensures r.None? <==> h < 480
    ensures r.Some? ==> r.value != Audio && MinHeight(r.value) <= h
    ensures r.Some? ==> forall q :: q != Audio && MinHeight(q) <= h ==> MinHeight(q) <= MinHeight(r.value)
  {
    if h >= 2160 then Some(P2160)
    else if h >= 1440 then Some(P1440)
    else if h >= 1080 then Some(P1080)
    else if h >= 720 then Some(P720)
    else if h >= 480 then Some(P480)
    else None
  }

  /** A greater height never lands in a lower tier, and a tier once reached stays reached. */
  lemma BucketMonotone(h1: int, h2: int)
    requires h1 <= h2 && Bucket(h1).Some?
    ensures Bucket(h2).Some? && Rank(Bucket(h2).value) <= Rank(Bucket(h1).value)
  {
  }

  predicate NoneSatisfy(fs: seq<Format>, p: Format -> bool)
  {
    forall j :: 0 <= j < |fs| ==> !p(fs[j])
  }

  /**
   * Index i holds the element that Python's `max(..., key=key)` returns from
   * `[f for f in fs if p(f)]`: it satisfies p, no element satisfying p has a
   * greater key, and every earlier one has a strictly smaller key (ties go to
   * the first).
   */
  predicate IsFirstMax(fs: seq<Format>, p: Format -> bool, key: Format -> real, i: int)
  {
    && 0 <= i < |fs| && p(fs[i])
    && (forall j :: 0 <= j < |fs| && p(fs[j]) ==> key(fs[j]) <= key(fs[i]))
    && (forall j :: 0 <= j < i && p(fs[j]) ==> key(fs[j]) < key(fs[i]))
  }

  /**
   * `max` over a list comprehension: scanning left to right, the running best is
   * replaced only by a strictly greater key. None when nothing satisfies p
   * (the source tests the comprehension for emptiness before calling `max`).
   */
  function FirstMax(fs: seq<Format>, p: Format -> bool, key: Format -> real): (r: Option<nat>)
    ensures r.None? <==> NoneSatisfy(fs, p)
    ensures r.Some? ==> IsFirstMax(fs, p, key, r.value)
    decreases |fs|
  {
    if |fs| == 0 then None
    else
      var last := |fs| - 1;
      var m := FirstMax(fs[..last], p, key);
      if !p(fs[last]) then m
      else if m.None? then Some(last)
      else if key(fs[last]) > key(fs[m.value]) then Some(last)
      else m
  }

  /** `f.get('height', 0) == n`: a missing height reads as 0, a None height equals no number. */
  predicate HeightEquals(f: Format, n: int)
  {
    match f.height
    case Absent => n == 0
    case Null => false
    case Present(h) => h == n
  }

  /** The filter of app.py:62-65 for a requested height n. */
  function VideoOfHeight(n: int): Format -> bool
  {
    f => HasVideoAndAudio(f) && HeightEquals(f, n)
  }

  predicate IsDigit(c: char)
  {
    '0' <= c <= '9'
  }

  predicate AllDigits(s: string)
  {
    forall k :: 0 <= k < |s| ==> IsDigit(s[k])
  }

  /** The decimal value of s read left to right after the value acc. */
  function DigitsValue(acc: nat, s: string): nat
    requires AllDigits(s)
    decreases |s|
  {
    if s == [] then acc else DigitsValue(acc * 10 + (s[0] as int - '0' as int), s[1..])
  }

  /** Appending a digit multiplies the value read so far by ten and adds the digit. */
  lemma {:induction false} DigitsValueSnoc(acc: nat, s: string, d: char)
    requires AllDigits(s) && IsDigit(d)
    ensures AllDigits(s + [d])
    ensures DigitsValue(acc, s + [d]) == DigitsValue(acc, s) * 10 + (d as int - '0' as int)
    decreases |s|
  {
    if s == [] {
      assert [d][1..] == [];
    } else {
      assert (s + [d])[0] == s[0];
      assert (s + [d])[1..] == s[1..] + [d];
      DigitsValueSnoc(acc * 10 + (s[0] as int - '0' as int), s[1..], d);
    }
  }

  /** Python's `str(n)` for a natural number: its decimal digits, with no leading zero. */
  function DecimalString(n: nat): (r: string)
    ensures r != [] && AllDigits(r)
    ensures DigitsValue(0, r) == n
    ensures r[0] == '0' ==> n == 0
    decreases n
  {
    var d := ('0' as int + n % 10) as char;
    if n < 10 then [d]
    else
      var prefix := DecimalString(n / 10);
      DigitsValueSnoc(0, prefix, d);
      prefix + [d]
  }

  /** The default of `sys.get_int_max_str_digits()`: `int` refuses a decimal string with more digits. */
  const MaxStrDigits: nat := 4300

  /** What `int(s)` reads its digits from: s without one leading sign. */
  function Unsigned(s: string): string
  {
    if |s| > 0 && (s[0] == '+' || s[0] == '-') then s[1..] else s
  }

  /** The text of the ValueError `int` raises on a decimal string of n digits, n above the limit. */
  function TooManyDigits(n: nat): string
  {
    "Exceeds the limit (" + DecimalString(MaxStrDigits) + " digits) for integer string conversion: value has "
      + DecimalString(n) + " digits; use sys.set_int_max_str_digits() to increase the limit"
  }

  /**
   * Python's `int(s)` on an optional sign followed by decimal digits, with the
   * raised ValueError's text as the error. The whole literal is checked first:
   * anything but a non-empty run of digits to the end is invalid; a valid
   * literal of more than `MaxStrDigits` digits then raises for its length.
   */
  function ParseInt(s: string): (r: Result<int>)
    ensures r.Ok? <==> Unsigned(s) != [] && AllDigits(Unsigned(s)) && |Unsigned(s)| <= MaxStrDigits
    ensures r.Err? && Unsigned(s) != [] && AllDigits(Unsigned(s)) ==> r.message == TooManyDigits(|Unsigned(s)|)
    ensures !(Unsigned(s) != [] && AllDigits(Unsigned(s))) ==> r == Err(InvalidLiteral(s))
  {
    var body := Unsigned(s);
    if body != [] && AllDigits(body) then
      if |body| > MaxStrDigits then Err(TooManyDigits(|body|))
      else
        var v: int := DigitsValue(0, body);
        Ok(if s[0] == '-' then -v else v)
    else Err(InvalidLiteral(s))
  }

  /** `int(str(n)) == n` and `int('-' + str(n)) == -n` for every n within the digit limit. */
  lemma ParseDecimal(n: nat)
    requires |DecimalString(n)| <= MaxStrDigits
    ensures ParseInt(DecimalString(n)) == Ok(n)
    ensures ParseInt("-" + DecimalString(n)).Ok? && ParseInt("-" + DecimalString(n)).value == -(n as int)
  {
    var r := DecimalString(n);
    assert IsDigit(r[0]);
    assert Unsigned(r) == r;
    assert ("-" + r)[0] == '-';
    assert Unsigned("-" + r) == r;
  }

  /** `s.replace(c, '')`. */
  function RemoveAll(s: string, c: char): (r: string)
    ensures |r| <= |s|
    ensures forall x :: x in r <==> x in s && x != c
    ensures multiset(r) == multiset(s)[c := 0]
    decreases |s|
  {
    if s == [] then []
    else
      assert s == [s[0]] + s[1..];
      if s[0] == c then RemoveAll(s[1..], c)
      else [s[0]] + RemoveAll(s[1..], c)
  }

  /** Removing c from a concatenation removes it from each part, so the kept characters stay in order. */
  lemma {:induction false} RemoveAllAppend(a: string, b: string, c: char)
    ensures RemoveAll(a + b, c) == RemoveAll(a, c) + RemoveAll(b, c)
    decreases |a|
  {
    if a == [] {
      assert a + b == b;
    } else {
      assert (a + b)[0] == a[0];
      assert (a + b)[1..] == a[1..] + b;
      RemoveAllAppend(a[1..], b, c);
    }
  }

  /** `int(quality.replace('p', ''))` of app.py:58, with the ValueError's text where Python raises. */
  function RequestedHeight(quality: string): Result<int>
  {
    ParseInt(RemoveAll(quality, 'p'))
  }

  /** The text of the ValueError `int` raises on s: its `repr`, cut to 200 characters as `%.200R` does. */
  function InvalidLiteral(s: string): string
  {
    var quoted := "'" + s + "'";
    "invalid literal for int() with base 10: " + (if |quoted| <= 200 then quoted else quoted[..200])
  }

  /** Removing c from s followed by one c gives s back when s has no c. */
  lemma {:induction false} RemoveTrailing(s: string, c: char)
    requires c !in s
    ensures RemoveAll(s + [c], c) == s
    decreases |s|
  {
    if s == [] {
      assert [c][1..] == [];
    } else {
      assert (s + [c])[1..] == s[1..] + [c];
      RemoveTrailing(s[1..], c);
    }
  }

  /** Digits followed by 'p' have no 'p' among the digits, so the height read is the digits' value. */
  lemma DigitsWithP(digits: string)
    requires digits != [] && AllDigits(digits)
    ensures RemoveAll(digits + "p", 'p') == digits && Unsigned(digits) == digits
  {
    assert forall k :: 0 <= k < |digits| ==> digits[k] != 'p' by {
      forall k | 0 <= k < |digits| ensures digits[k] != 'p' {
        assert IsDigit(digits[k]);
      }
    }
    RemoveTrailing(digits, 'p');
    assert IsDigit(digits[0]);
  }

  /** A tier label is its threshold's digits followed by 'p', and parses back to the threshold. */
  lemma HeightOfLabel(digits: string)
    requires digits != [] && AllDigits(digits) && |digits| <= MaxStrDigits
    ensures RequestedHeight(digits + "p") == Ok(DigitsValue(0, digits))
  {
    DigitsWithP(digits);
  }

  /** More digits than `MaxStrDigits` followed by 'p' are refused for their length. */
  lemma OverlongHeight(digits: string)
    requires AllDigits(digits) && |digits| > MaxStrDigits
    ensures RequestedHeight(digits + "p") == Err(TooManyDigits(|digits|))
  {
    DigitsWithP(digits);
  }

  /** A quality of more digits than `MaxStrDigits` followed by 'p' makes the picker raise for its length. */
  lemma OverlongQualityRejected(fs: seq<Format>, digits: string)
    requires AllDigits(digits) && |digits| > MaxStrDigits
    ensures GetBestFormat(fs, digits + "p") == Err(TooManyDigits(|digits|))
  {
    OverlongHeight(digits);
    assert |digits + "p"| != |"audio"|;
  }

  /**
   * Digits followed by any other character but 'p' are an invalid literal,
   * however many digits there are: the literal is checked before its length.
   */
  lemma TrailingCharInvalid(fs: seq<Format>, digits: string, c: char)
    requires AllDigits(digits) && !IsDigit(c) && c != 'p'
    ensures RequestedHeight(digits + [c] + "p") == Err(InvalidLiteral(digits + [c]))
    ensures GetBestFormat(fs, digits + [c] + "p") == Err(InvalidLiteral(digits + [c]))
  {
    var s := digits + [c];
    forall k | 0 <= k < |s| ensures s[k] != 'p' {
      if k < |digits| {
        assert IsDigit(digits[k]);
      }
    }
    RemoveTrailing(s, 'p');
    var body := Unsigned(s);
    assert body != [] ==> body[|body| - 1] == c;
    assert (digits + [c] + "p")[|s|] == 'p';
  }

  /** The tier labels are their thresholds' digits followed by 'p'. */
  lemma LabelDigits()
    ensures "2160p" == "2160" + "p" && DigitsValue(0, "2160") == 2160
    ensures "1440p" == "1440" + "p" && DigitsValue(0, "1440") == 1440
    ensures "1080p" == "1080" + "p" && DigitsValue(0, "1080") == 1080
    ensures "720p" == "720" + "p" && DigitsValue(0, "720") == 720
    ensures "480p" == "480" + "p" && DigitsValue(0, "480") == 480
  {
  }

  /** Each video tier's own label asks the picker for exactly its threshold height. */
  lemma RequestedHeightOfLabel(q: Quality)
    requires q != Audio
    ensures RequestedHeight(Label(q)) == Ok(MinHeight(q))
  {
    LabelDigits();
    match q
    case P2160 => HeightOfLabel("2160");
    case P1440 => HeightOfLabel("1440");
    case P1080 => HeightOfLabel("1080");
    case P720 => HeightOfLabel("720");
    case P480 => HeightOfLabel("480");
  }

  /**
   * `get_best_format` (app.py:45-74). "audio" picks the audio-only format with
   * the greatest `abr`; any other quality is parsed as a height and picks, among
   * the formats with both streams and exactly that height, the one with the
   * greatest `tbr`. Ties go to the earliest format; no candidate gives None; a
   * quality that does not parse raises (Err).
   */
  function GetBestFormat(fs: seq<Format>, quality: string): (r: Result<Option<Format>>)
    ensures quality == "audio" ==> r.Ok? && (r.value.None? <==> NoneSatisfy(fs, IsAudioOnly))
    ensures quality == "audio" && r.Ok? && r.value.Some? ==>
      exists i :: IsFirstMax(fs, IsAudioOnly, AudioRate, i) && r.value.value == fs[i]
    ensures quality != "audio" ==> (r.Err? <==> RequestedHeight(quality).Err?)
    ensures quality != "audio" && r.Err? ==> r.message == RequestedHeight(quality).message
    ensures quality != "audio" && r.Ok? ==>
      (r.value.None? <==> NoneSatisfy(fs, VideoOfHeight(RequestedHeight(quality).value)))
    ensures quality != "audio" && r.Ok? && r.value.Some? ==>
      exists i :: IsFirstMax(fs, VideoOfHeight(RequestedHeight(quality).value), TotalRate, i) && r.value.value == fs[i]
  {
    if quality == "audio" then
      match FirstMax(fs, IsAudioOnly, AudioRate)
      case None => Ok(None)
      case Some(i) => Ok(Some(fs[i]))
    else
      match RequestedHeight(quality)
      case Err(message) => Err(message)
      case Ok(n) =>
        match FirstMax(fs, VideoOfHeight(n), TotalRate)
        case None => Ok(None)
        case Some(i) => Ok(Some(fs[i]))
  }
}
