/** Choosing the volume scan to load: every scan identifier embeds its capture
    time as the second `_`-separated field, written `HHMMSS`. */
module ScanSelect {
  import opened Base

  const SecondsPerDay: nat := 86400

  /** `s.split(sep)`: the pieces between separators, in order. There is always
      at least one piece, and no piece contains the separator. */
  function Split(s: string, sep: char): (parts: seq<string>)
    ensures |parts| >= 1
    ensures forall k :: 0 <= k < |parts| ==> sep !in parts[k]
  {
    if s == [] then [[]]
    else
      var rest := Split(s[1..], sep);
      if s[0] == sep then [[]] + rest
      else [[s[0]] + rest[0]] + rest[1..]
  }

  /** The pieces put back together with `sep` between neighbours. */
  function Join(parts: seq<string>, sep: char): string
    requires |parts| >= 1
  {
    if |parts| == 1 then parts[0] else parts[0] + [sep] + Join(parts[1..], sep)
  }

  /** Splitting loses nothing: the pieces rejoin to the original string. */
  lemma {:induction false} SplitJoin(s: string, sep: char)
    ensures Join(Split(s, sep), sep) == s
  {
    if s != [] {
      SplitJoin(s[1..], sep);
      var rest := Split(s[1..], sep);
      if s[0] == sep {
        assert ([[]] + rest)[1..] == rest;
        assert s == [sep] + s[1..];
      } else if |rest| == 1 {
        assert s == [s[0]] + s[1..];
      } else {
        var parts := [[s[0]] + rest[0]] + rest[1..];
        assert parts[1..] == rest[1..];
        assert Join(rest, sep) == rest[0] + [sep] + Join(rest[1..], sep);
        assert s == [s[0]] + s[1..];
      }
    }
  }

  /** A separator-free prefix followed by the separator becomes the first piece. */
  lemma {:induction false} SplitAfter(a: string, sep: char, b: string)
    requires sep !in a
    ensures Split(a + [sep] + b, sep) == [a] + Split(b, sep)
  {
    if a == [] {
      assert a + [sep] + b == [sep] + b;
      assert ([sep] + b)[1..] == b;
    } else {
      assert (a + [sep] + b)[1..] == a[1..] + [sep] + b;
      SplitAfter(a[1..], sep, b);
      assert [a[0]] + a[1..] == a;
    }
  }

  predicate IsDigit(c: char) {
    '0' <= c <= '9'
  }

  function DigitValue(c: char): nat
    requires IsDigit(c)
  {
    c as int - '0' as int
  }

  /** One numeric field of a `%H`, `%M` or `%S` pattern: one or two digits,
      taken greedily, and what is left of the input. */
  function TakeField(s: string): (r: Option<(nat, string)>)
    ensures r.None? <==> |s| == 0 || !IsDigit(s[0])
    ensures r.Some? ==>
      var (v, rest) := r.value;
      && v < 100
      && (|rest| == |s| - 1 || |rest| == |s| - 2)
      && rest == s[|s| - |rest|..]
      && (|rest| == |s| - 2 <==> |s| >= 2 && IsDigit(s[1]))
      && (|rest| == |s| - 1 ==> v == DigitValue(s[0]))
      && (|rest| == |s| - 2 ==> IsDigit(s[1]) && v == 10 * DigitValue(s[0]) + DigitValue(s[1]))
  {
    if |s| == 0 || !IsDigit(s[0]) then None
    else if |s| >= 2 && IsDigit(s[1]) then Some((DigitValue(s[0]) * 10 + DigitValue(s[1]), s[2..]))
    else Some((DigitValue(s[0]), s[1..]))
  }

  /** `NaiveTime::parse_from_str(field, "%H%M%S")` as seconds after midnight:
      three fields, nothing left over, hour below 24, minute and second below 60. */
  function ParseHms(field: string): (t: Option<nat>)
    ensures t.Some? ==> t.value < SecondsPerDay
  {
    match TakeField(field)
    case None => None
    case Some((h, r1)) =>
      match TakeField(r1)
      case None => None
      case Some((m, r2)) =>
        match TakeField(r2)
        case None => None
        case Some((sec, r3)) =>
          if r3 == [] && h < 24 && m < 60 && sec < 60 then Some(h * 3600 + m * 60 + sec) else None
  }

  function Digit(d: nat): (c: char)
    requires d < 10
    ensures IsDigit(c) && DigitValue(c) == d
  {
    ('0' as int + d) as char
  }

  /** A time of day written the way scan identifiers carry it: `HHMMSS`. */
  function FormatHms(t: nat): (s: string)
    requires t < SecondsPerDay
    ensures |s| == 6 && forall k :: 0 <= k < 6 ==> IsDigit(s[k])
  {
    var h, m, sec := t / 3600, t % 3600 / 60, t % 60;
    [Digit(h / 10), Digit(h % 10), Digit(m / 10), Digit(m % 10), Digit(sec / 10), Digit(sec % 10)]
  }

  /** A field written as two digits reads back as its value, and the scan
      stops right after them. */
  lemma TakeTwoDigits(d: nat, rest: string)
    requires d < 100
    ensures TakeField([Digit(d / 10), Digit(d % 10)] + rest) == Some((d, rest))
  {
    var s := [Digit(d / 10), Digit(d % 10)] + rest;
    assert s[2..] == rest;
  }

  /** A single digit not followed by another reads back as its value. */
  lemma TakeOneDigit(d: nat, rest: string)
    requires d < 10
    requires |rest| == 0 || !IsDigit(rest[0])
    ensures TakeField([Digit(d)] + rest) == Some((d, rest))
  {
    var s := [Digit(d)] + rest;
    assert s[1..] == rest;
  }

  /** Every time of day survives being written as `HHMMSS` and parsed back. */
  lemma ParseFormatHms(t: nat)
    requires t < SecondsPerDay
    ensures ParseHms(FormatHms(t)) == Some(t)
  {
    var s := FormatHms(t);
    var h, m, sec := t / 3600, t % 3600 / 60, t % 60;
    TakeTwoDigits(h, s[2..]);
    assert s == [Digit(h / 10), Digit(h % 10)] + s[2..];
    TakeTwoDigits(m, s[4..]);
    assert s[2..] == [Digit(m / 10), Digit(m % 10)] + s[4..];
    TakeTwoDigits(sec, []);
    assert s[4..] == [Digit(sec / 10), Digit(sec % 10)] + [];
  }

  /** The embedded capture time of a scan identifier, in seconds after midnight. */
  function FileTime(id: string): (r: Result<nat>)
    ensures r.Ok? ==> r.value < SecondsPerDay
    ensures r.Err? ==> r.error.MissingTimeField? || r.error.UnparsableTime?
  {
    var parts := Split(id, '_');
    if |parts| < 2 then Err(MissingTimeField(id))
    else
      match ParseHms(parts[1])
      case None => Err(UnparsableTime(parts[1]))
      case Some(t) => Ok(t)
  }

  /** An identifier `<prefix>_<HHMMSS>_<rest>` yields the time it was written with. */
  lemma IdentifierTime(prefix: string, t: nat, rest: string)
    requires '_' !in prefix && t < SecondsPerDay
    ensures FileTime(prefix + "_" + FormatHms(t) + "_" + rest) == Ok(t)
  {
    var field := FormatHms(t);
    assert '_' !in field by {
      forall k | 0 <= k < |field| ensures field[k] != '_' { assert IsDigit(field[k]); }
    }
    var id := prefix + "_" + field + "_" + rest;
    assert id == prefix + ['_'] + (field + ['_'] + rest);
    SplitAfter(prefix, '_', field + ['_'] + rest);
    SplitAfter(field, '_', rest);
    ParseFormatHms(t);
  }

  /** An identifier without any `_` has no time field. */
  lemma NoSeparatorNoTime(id: string)
    requires '_' !in id
    ensures FileTime(id) == Err(MissingTimeField(id))
  {
    SplitJoin(id, '_');
  }

  predicate AllTimed(files: seq<string>) {
    forall j :: 0 <= j < |files| ==> FileTime(files[j]).Ok?
  }

  /** What the selection loop promises about index `k`: no file has a smaller
      signed difference `target - t`, and every earlier file a strictly larger one. */
  predicate IsNearest(files: seq<string>, target: int, k: nat) {
    && k < |files|
    && AllTimed(files)
    && (forall j :: 0 <= j < |files| ==>
          target - FileTime(files[k]).value <= target - FileTime(files[j]).value)
    && (forall j :: 0 <= j < k ==>
          target - FileTime(files[j]).value > target - FileTime(files[k]).value)
  }

  /** The first file, in list order, among those with the greatest embedded time. */
  predicate IsLatest(files: seq<string>, k: nat) {
    && k < |files|
    && AllTimed(files)
    && (forall j :: 0 <= j < |files| ==> FileTime(files[j]).value <= FileTime(files[k]).value)
    && (forall j :: 0 <= j < k ==> FileTime(files[j]).value < FileTime(files[k]).value)
  }

  /** The signed comparison makes "nearest" mean "latest": the target plays no part. */
  lemma NearestIsLatest(files: seq<string>, target: int, k: nat)
    ensures IsNearest(files, target, k) <==> IsLatest(files, k)
  {
  }

  /** Whatever the targets, the selection picks the same file. */
  lemma NearestIgnoresTarget(files: seq<string>, target1: int, target2: int, k1: nat, k2: nat)
    requires IsNearest(files, target1, k1) && IsNearest(files, target2, k2)
    ensures k1 == k2
  {
    ghost var t1, t2 := FileTime(files[k1]), FileTime(files[k2]);
  }

  /** `nearest_file`: the index of the file whose embedded time has the smallest
      signed difference to `target`, keeping the earliest on ties. An empty list
      and an identifier without a parsable time both stop the run; the first
      such identifier in list order is the one reported. */
  method NearestFile(files: seq<string>, target: int) returns (r: Result<nat>)
    ensures |files| == 0 <==> r == Err(NoFiles)
    ensures r.Ok? <==> |files| > 0 && AllTimed(files)
    ensures r.Ok? ==> IsNearest(files, target, r.value)
    ensures r.Err? && |files| > 0 ==>
      exists i :: 0 <= i < |files| && FileTime(files[i]) == Err(r.error) &&
        forall j :: 0 <= j < i ==> FileTime(files[j]).Ok?
  {
    if |files| == 0 {
      return Err(NoFiles);
    }
    var first := FileTime(files[0]);
    if first.Err? {
      assert FileTime(files[0]) == Err(first.error);
      return Err(first.error);
    }
    var nearest: nat := 0;
    var nearestDiff := target - first.value;
    for i := 0 to |files|
      invariant nearest < |files| && nearest <= i
      invariant forall j :: 0 <= j < i ==> FileTime(files[j]).Ok?
      invariant FileTime(files[nearest]).Ok? && nearestDiff == target - FileTime(files[nearest]).value
      invariant forall j :: 0 <= j < i ==> nearestDiff <= target - FileTime(files[j]).value
      invariant forall j :: 0 <= j < nearest ==> target - FileTime(files[j]).value > nearestDiff
    {
      var t := FileTime(files[i]);
      if t.Err? {
        assert FileTime(files[i]) == Err(t.error);
        return Err(t.error);
      }
      var diff := target - t.value;
      if diff < nearestDiff {
        nearest := i;
        nearestDiff := diff;
      }
    }
    return Ok(nearest);
  }
}
