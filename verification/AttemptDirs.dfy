/** Attempt directories: their names, their enumeration, and the way back from one to its run. */
module AttemptDirs {
  import opened Chars
  import opened RunIdentity
  import opened StringOrder
  import Decimal

  // ---------------------------------------------------------------- names

  /** A number padded with zeros to at least four digits. */
  function Pad(n: nat): string {
    Zeros(4 - |Decimal.Print(n)|) + Decimal.Print(n)
  }

  function Zeros(k: int): (z: string)
    ensures |z| == if k > 0 then k else 0
    ensures forall i :: 0 <= i < |z| ==> z[i] == '0'
  {
    if k <= 0 then "" else "0" + Zeros(k - 1)
  }

  datatype DirName = DirName(attempt: nat, suffix: Option<string>, canonical: bool)

  const PREFIX := "attempt-"

  function DirText(attempt: nat, suffix: Option<string>): string {
    PREFIX + Pad(attempt) + (if suffix.Some? then "-" + suffix.value else "")
  }

  /** The directory a run is stored in. */
  function DirOf(id: Identity): string {
    DirText(id.attempt, Some(id.random))
  }

  function Digits(s: string): (n: nat)
    ensures n <= |s| && (n < |s| ==> !Decimal.IsDigit(s[n]))
    ensures Decimal.AllDigits(s[..n])
  {
    if s == "" || !Decimal.IsDigit(s[0]) then 0
    else
      var n := Digits(s[1..]);
      assert s[..n + 1] == [s[0]] + s[1..][..n];
      n + 1
  }

  /** The ordinal, in exactly the padded form. */
  function Ordinal(digits: string): Option<nat>
    requires Decimal.AllDigits(digits)
  {
    if |digits| > 6 then None
    else
      var value := Decimal.Value(digits);
      if value < 1 || value > MAX_COUNTER || Pad(value) != digits then None else Some(value)
  }

  function ParseDir(name: string): Option<DirName> {
    if !(PREFIX <= name) then None
    else
      var s := name[|PREFIX|..];
      var n := Digits(s);
      if n == 0 then None
      else
        var attempt := Ordinal(s[..n]);
        if n == |s| then (if attempt.None? then None else Some(DirName(attempt.value, None, false)))
        else if s[n] != '-' || !IsHex(s[n + 1..]) || !(8 <= |s| - n - 1 <= 64) || attempt.None? then None
        else Some(DirName(attempt.value, Some(s[n + 1..]), |s| - n - 1 == 8 || |s| - n - 1 == 12))
  }

  lemma {:induction false} DigitsStop(d: string, rest: string)
    requires Decimal.AllDigits(d) && (rest == "" || !Decimal.IsDigit(rest[0]))
    ensures Digits(d + rest) == |d|
  {
    if d == "" {
      assert d + rest == rest;
    } else {
      DigitsStop(d[1..], rest);
      assert (d + rest)[1..] == d[1..] + rest;
    }
  }

  lemma {:induction false} ValueOfZeros(k: int, s: string)
    requires Decimal.AllDigits(s)
    ensures Decimal.AllDigits(Zeros(k) + s) && Decimal.Value(Zeros(k) + s) == Decimal.Value(s)
  {
    var t := Zeros(k) + s;
    if s == "" {
      assert t == Zeros(k);
      ZeroValue(t);
    } else {
      var n := |s| - 1;
      ValueOfZeros(k, s[..n]);
      assert t[..|t| - 1] == Zeros(k) + s[..n] && t[|t| - 1] == s[n];
    }
  }

  lemma {:induction false} ZeroValue(z: string)
    requires forall i :: 0 <= i < |z| ==> z[i] == '0'
    ensures Decimal.AllDigits(z) && Decimal.Value(z) == 0
  {
    if z != "" {
      ZeroValue(z[..|z| - 1]);
    }
  }

  lemma OrdinalOfPad(n: nat)
    requires 1 <= n <= MAX_COUNTER
    ensures Decimal.AllDigits(Pad(n)) && Ordinal(Pad(n)) == Some(n) && |Pad(n)| >= 4
  {
    Decimal.ValueOfPrint(n);
    ValueOfZeros(4 - |Decimal.Print(n)|, Decimal.Print(n));
    CounterLength(n);
  }

  /** A run's directory name parses back to exactly its attempt and its random id. */
  lemma ParseDirOf(id: Identity)
    requires Valid(id)
    ensures ParseDir(DirOf(id)) == Some(DirName(id.attempt, Some(id.random), true))
  {
    var p, rest := Pad(id.attempt), "-" + id.random;
    OrdinalOfPad(id.attempt);
    DigitsStop(p, rest);
    var s := p + rest;
    assert DirOf(id) == PREFIX + s;
    assert (PREFIX + s)[|PREFIX|..] == s && PREFIX <= PREFIX + s;
    assert s[..|p|] == p && s[|p|] == '-' && s[|p| + 1..] == id.random;
  }

  /** Every recognized name is the text of what was recognized, so no two names share attempt and suffix. */
  lemma ParseDirPrints(name: string)
    requires ParseDir(name).Some?
    ensures var d := ParseDir(name).value; DirText(d.attempt, d.suffix) == name && 1 <= d.attempt <= MAX_COUNTER
    ensures var d := ParseDir(name).value; d.canonical <==> d.suffix.Some? && IsRandom(d.suffix.value)
  {
    var s := name[|PREFIX|..];
    var n := Digits(s);
    assert name == PREFIX + s;
    var d := ParseDir(name).value;
    OrdinalPads(s[..n]);
    hide Pad, Ordinal, Digits, ParseDir;
    if n < |s| {
      assert s == s[..n] + ("-" + s[n + 1..]);
      assert name == PREFIX + s[..n] + ("-" + s[n + 1..]);
    } else {
      assert s == s[..n];
      assert name == PREFIX + s[..n] + "";
    }
  }

  lemma OrdinalPads(digits: string)
    requires Decimal.AllDigits(digits)
    ensures Ordinal(digits).Some? ==> Pad(Ordinal(digits).value) == digits && 1 <= Ordinal(digits).value <= MAX_COUNTER
  {
  }

  lemma NamesAreUnique(a: string, b: string)
    requires ParseDir(a).Some? && ParseDir(b).Some?
    requires ParseDir(a).value.attempt == ParseDir(b).value.attempt && ParseDir(a).value.suffix == ParseDir(b).value.suffix
    ensures a == b
  {
    hide ParseDir;
    ParseDirPrints(a);
    ParseDirPrints(b);
  }

  /** Two runs share a directory only if they share attempt and random id. */
  lemma DirsAreUnique(a: Identity, b: Identity)
    requires Valid(a) && Valid(b)
    ensures DirOf(a) == DirOf(b) <==> a.attempt == b.attempt && a.random == b.random
  {
    hide ParseDir;
    ParseDirOf(a);
    ParseDirOf(b);
  }

  // ---------------------------------------------------------------- enumeration

  datatype Entry = Entry(name: string, isDir: bool)

  /** Ascending attempt, legacy before suffixed, then ascending suffix. */
  predicate Before(a: DirName, b: DirName) {
    || a.attempt < b.attempt
    || (a.attempt == b.attempt && a.suffix.None? && b.suffix.Some?)
    || (a.attempt == b.attempt && a.suffix.Some? && b.suffix.Some? && Less(a.suffix.value, b.suffix.value))
  }

  function PlaceDir(d: DirName, sorted: seq<DirName>): seq<DirName> {
    if sorted == [] || Before(d, sorted[0]) then [d] + sorted else [sorted[0]] + PlaceDir(d, sorted[1..])
  }

  function Records(listing: seq<Entry>): seq<DirName> {
    if listing == [] then []
    else
      var e := listing[|listing| - 1];
      var rest := Records(listing[..|listing| - 1]);
      if e.isDir && ParseDir(e.name).Some? then PlaceDir(ParseDir(e.name).value, rest) else rest
  }

  /** The census loop over a directory listing. */
  method Enumerate(listing: seq<Entry>) returns (records: seq<DirName>)
    ensures records == Records(listing)
  {
    hide ParseDir, PlaceDir;
    records := [];
    for i := 0 to |listing|
      invariant records == Records(listing[..i])
    {
      var e := listing[i];
      assert listing[..i + 1][..i] == listing[..i];
      if e.isDir {
        var d := ParseDir(e.name);
        if d.Some? {
          records := PlaceDir(d.value, records);
        }
      }
    }
    assert listing[..|listing|] == listing;
  }

  predicate Ordered(s: seq<DirName>) {
    forall i, j :: 0 <= i < j < |s| ==> Before(s[i], s[j])
  }

  lemma BeforeStrict(a: DirName, b: DirName, c: DirName)
    ensures !Before(a, a)
    ensures Before(a, b) && Before(b, c) ==> Before(a, c)
  {
    if a.suffix.Some? {
      LessIrreflexive(a.suffix.value);
      if b.suffix.Some? && c.suffix.Some? && Less(a.suffix.value, b.suffix.value)
         && Less(b.suffix.value, c.suffix.value) {
        LessTransitive(a.suffix.value, b.suffix.value, c.suffix.value);
      }
    }
  }

  lemma BeforeTotal(a: DirName, b: DirName)
    requires a.attempt != b.attempt || a.suffix != b.suffix
    ensures Before(a, b) || Before(b, a)
  {
    if a.suffix.Some? && b.suffix.Some? {
      LessTotal(a.suffix.value, b.suffix.value);
    }
  }

  lemma {:induction false} PlaceOrdered(d: DirName, s: seq<DirName>)
    requires Ordered(s) && forall i :: 0 <= i < |s| ==> s[i].attempt != d.attempt || s[i].suffix != d.suffix
    ensures Ordered(PlaceDir(d, s))
    ensures forall x :: x in PlaceDir(d, s) <==> x == d || x in s
  {
    hide Before;
    if s != [] && !Before(d, s[0]) {
      BeforeTotal(d, s[0]);
      PlaceOrdered(d, s[1..]);
      assert s == [s[0]] + s[1..];
      var r := PlaceDir(d, s);
      forall i, j | 0 <= i < j < |r| ensures Before(r[i], r[j]) {
        assert r[j] in PlaceDir(d, s[1..]);
        if i == 0 && r[j] != d {
          var k :| 0 <= k < |s[1..]| && s[1..][k] == r[j];
          assert Before(s[0], s[k + 1]);
        }
      }
    } else if s != [] {
      forall j | 0 <= j < |s| ensures Before(d, s[j]) {
        BeforeStrict(d, s[0], s[j]);
      }
    }
  }

  /** A listing names each entry once. */
  predicate Listing(listing: seq<Entry>) {
    forall i, j :: 0 <= i < j < |listing| ==> listing[i].name != listing[j].name
  }

  ghost predicate Counted(listing: seq<Entry>, d: DirName) {
    exists e :: e in listing && e.isDir && ParseDir(e.name) == Some(d)
  }

  lemma {:induction false} RecordsOrdered(listing: seq<Entry>)
    requires Listing(listing)
    ensures Ordered(Records(listing))
    ensures forall d :: d in Records(listing) <==> Counted(listing, d)
  {
    hide ParseDir, PlaceDir, Ordered;
    if listing == [] {
      EmptyOrdered();
    } else {
      var n := |listing| - 1;
      var init, e := listing[..n], listing[n];
      RecordsOrdered(init);
      assert listing == init + [e];
      if e.isDir && ParseDir(e.name).Some? {
        var d := ParseDir(e.name).value;
        var s := Records(init);
        forall i | 0 <= i < |s| ensures s[i].attempt != d.attempt || s[i].suffix != d.suffix {
          assert s[i] in s;
          var f :| f in init && f.isDir && ParseDir(f.name) == Some(s[i]);
          assert f.name != e.name;
          Distinct(f.name, e.name);
        }
        PlaceOrdered(d, s);
      }
    }
  }

  lemma EmptyOrdered()
    ensures Ordered([])
  {
  }

  lemma Distinct(a: string, b: string)
    requires ParseDir(a).Some? && ParseDir(b).Some? && a != b
    ensures ParseDir(a).value.attempt != ParseDir(b).value.attempt || ParseDir(a).value.suffix != ParseDir(b).value.suffix
  {
    hide ParseDir;
    if ParseDir(a).value.attempt == ParseDir(b).value.attempt && ParseDir(a).value.suffix == ParseDir(b).value.suffix {
      NamesAreUnique(a, b);
    }
  }

  lemma {:induction false} OrderedUnique(a: seq<DirName>, b: seq<DirName>)
    requires Ordered(a) && Ordered(b) && forall d :: d in a <==> d in b
    ensures a == b
  {
    hide Before;
    if a == [] {
      EmptyOrMember(b);
    } else {
      assert a[0] in a && a[0] in b;
      assert b != [] && b[0] in b && b[0] in a;
      FirstSame(a, b);
      assert a == [a[0]] + a[1..] && b == [b[0]] + b[1..];
      forall d ensures d in a[1..] <==> d in b[1..] {
        NotAgain(a, d);
        NotAgain(b, d);
      }
      OrderedUnique(a[1..], b[1..]);
    }
  }

  lemma EmptyOrMember(s: seq<DirName>)
    ensures s == [] || exists d :: d in s
  {
    if s != [] {
      assert s[0] in s;
    }
  }

  lemma NotAgain(s: seq<DirName>, d: DirName)
    requires Ordered(s) && s != []
    ensures d in s[1..] <==> d in s && d != s[0]
  {
    hide Before;
    assert s == [s[0]] + s[1..];
    if d in s[1..] {
      var k :| 0 <= k < |s[1..]| && s[1..][k] == d;
      assert Before(s[0], s[k + 1]);
      BeforeStrict(d, d, d);
    }
  }

  lemma FirstSame(a: seq<DirName>, b: seq<DirName>)
    requires Ordered(a) && Ordered(b) && a != [] && b != [] && a[0] in b && b[0] in a
    ensures a[0] == b[0]
  {
    hide Before;
    var i :| 0 <= i < |a| && a[i] == b[0];
    var j :| 0 <= j < |b| && b[j] == a[0];
    if i > 0 && j > 0 {
      assert Before(a[0], a[i]) && Before(b[0], b[j]);
      BeforeStrict(a[0], b[0], a[0]);
    }
  }

  /** The census does not depend on the order in which the directory is listed. */
  lemma EnumerationIgnoresOrder(a: seq<Entry>, b: seq<Entry>)
    requires Listing(a) && Listing(b) && forall e :: e in a <==> e in b
    ensures Records(a) == Records(b)
  {
    hide ParseDir, Records, Listing;
    RecordsOrdered(a);
    RecordsOrdered(b);
    forall d ensures Counted(a, d) <==> Counted(b, d) {
    }
    OrderedUnique(Records(a), Records(b));
  }
}
