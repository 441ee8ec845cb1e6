/** Delegated run ids and the attempt directories named after them. */
module RunIdentity {
  import opened Chars
  import Decimal

  datatype Option<T> = None | Some(value: T)

  datatype Identity = Identity(task: string, role: string, ordinal: nat, attempt: nat, random: string)

  const MAX_COUNTER := 999999

  // ---------------------------------------------------------------- the grammar of the segments

  predicate IsAlnum(c: char) {
    'A' <= c <= 'Z' || 'a' <= c <= 'z' || '0' <= c <= '9'
  }

  predicate IsTask(s: string) {
    && s != "" && IsAlnum(s[0]) && |s| <= 128
    && forall i :: 0 <= i < |s| ==> IsAlnum(s[i]) || s[i] == '.' || s[i] == '_' || s[i] == '-'
  }

  predicate IsRoleChar(c: char) {
    'a' <= c <= 'z' || '0' <= c <= '9'
  }

  predicate IsRole(s: string) {
    && s != "" && IsRoleChar(s[0]) && |s| <= 64
    && forall i :: 0 <= i < |s| ==> IsRoleChar(s[i]) || s[i] == '-'
  }

  predicate IsHex(s: string) {
    forall i :: 0 <= i < |s| ==> IsLowerHex(s[i])
  }

  predicate IsRandom(s: string) {
    IsHex(s) && (|s| == 8 || |s| == 12)
  }

  /** A counter without leading zeros, from 1 to 999999. */
  function Counter(text: string): Option<nat> {
    if text == "" || !Decimal.AllDigits(text) || (|text| > 1 && text[0] == '0') then None
    else
      var value := Decimal.Value(text);
      if value < 1 || value > MAX_COUNTER then None else Some(value)
  }

  predicate Valid(id: Identity) {
    && IsTask(id.task) && IsRole(id.role) && IsRandom(id.random)
    && 1 <= id.ordinal <= MAX_COUNTER && 1 <= id.attempt <= MAX_COUNTER
  }

  // ---------------------------------------------------------------- printing and parsing

  function Glue(a: string, b: string): string {
    a + ":" + b
  }

  function Segments(id: Identity): string {
    Glue(Glue(Glue(Glue(id.task, id.role), Decimal.Print(id.ordinal)), "a" + Decimal.Print(id.attempt)), id.random)
  }

  function Print(id: Identity): string {
    "run:" + Segments(id)
  }

  /** Position of the last colon; the length when there is none. */
  function LastColon(s: string): (n: nat)
    ensures n <= |s| && (n < |s| ==> s[n] == ':' && forall i :: n < i < |s| ==> s[i] != ':')
    ensures n == |s| ==> forall i :: 0 <= i < |s| ==> s[i] != ':'
  {
    if s == "" then 0
    else if s[|s| - 1] == ':' then |s| - 1
    else
      var n := LastColon(s[..|s| - 1]);
      if n == |s| - 1 then |s| else n
  }

  /** Splits at up to `k` colons, from the right. */
  function RSplit(s: string, k: nat): (parts: seq<string>)
    ensures 1 <= |parts| <= k + 1
  {
    var n := LastColon(s);
    if k == 0 || n == |s| then [s] else RSplit(s[..n], k - 1) + [s[n + 1..]]
  }

  function Parse(s: string): Option<Identity> {
    if s == "" || |s| > 512 || IsSpace(s[0]) || IsSpace(s[|s| - 1]) || !("run:" <= s)
       || (exists i :: 0 <= i < |s| && (s[i] == '\0' || s[i] == '\r' || s[i] == '\n')) then None
    else
      var parts := RSplit(s[4..], 4);
      if |parts| != 5 || !IsTask(parts[0]) || !IsRole(parts[1]) || !("a" <= parts[3]) || !IsRandom(parts[4])
         || Counter(parts[2]).None? || Counter(parts[3][1..]).None? then None
      else Some(Identity(parts[0], parts[1], Counter(parts[2]).value, Counter(parts[3][1..]).value, parts[4]))
  }

  predicate NoColon(s: string) {
    forall i :: 0 <= i < |s| ==> s[i] != ':'
  }

  lemma {:induction false} LastColonOf(a: string, t: string)
    requires NoColon(t)
    ensures LastColon(Glue(a, t)) == |a|
  {
    var s := Glue(a, t);
    assert s[|a|] == ':';
    assert forall i :: |a| < i < |s| ==> s[i] == t[i - |a| - 1];
  }

  lemma RSplitOne(a: string, t: string, k: nat)
    requires NoColon(t) && k > 0
    ensures RSplit(Glue(a, t), k) == RSplit(a, k - 1) + [t]
  {
    var s := Glue(a, t);
    LastColonOf(a, t);
    assert s[..|a|] == a && s[|a| + 1..] == t;
  }

  function Join(parts: seq<string>): string
    requires parts != []
  {
    if |parts| == 1 then parts[0] else Glue(Join(parts[..|parts| - 1]), parts[|parts| - 1])
  }

  lemma {:induction false} JoinOfRSplit(s: string, k: nat)
    ensures Join(RSplit(s, k)) == s
  {
    var n := LastColon(s);
    if k > 0 && n < |s| {
      JoinOfRSplit(s[..n], k - 1);
      var parts := RSplit(s, k);
      assert parts[..|parts| - 1] == RSplit(s[..n], k - 1);
      assert s == Glue(s[..n], s[n + 1..]);
    }
  }

  lemma JoinFive(p: seq<string>)
    requires |p| == 5
    ensures Join(p) == Glue(Glue(Glue(Glue(p[0], p[1]), p[2]), p[3]), p[4])
  {
    hide Glue;
    assert p[..4][..3] == p[..3] && p[..3][..2] == p[..2] && p[..2][..1] == p[..1];
    assert Join(p[..1]) == p[0];
    assert Join(p[..2]) == Glue(p[0], p[1]);
    assert Join(p[..3]) == Glue(Glue(p[0], p[1]), p[2]);
    assert Join(p[..4]) == Glue(Glue(Glue(p[0], p[1]), p[2]), p[3]);
  }

  lemma CounterOfPrint(n: nat)
    requires 1 <= n <= MAX_COUNTER
    ensures Counter(Decimal.Print(n)) == Some(n) && NoColon(Decimal.Print(n))
  {
    Decimal.ValueOfPrint(n);
  }

  lemma PrintOfCounter(text: string)
    requires Counter(text).Some?
    ensures Decimal.Print(Counter(text).value) == text && 1 <= Counter(text).value <= MAX_COUNTER
  {
    Decimal.PrintOfValue(text);
  }

  lemma {:induction false} PrintLength(n: nat, digits: nat)
    requires digits >= 1 && n < Pow10(digits)
    ensures |Decimal.Print(n)| <= digits
  {
    if n >= 10 {
      assert Pow10(digits) == 10 * Pow10(digits - 1) && Pow10(0) == 1;
      PrintLength(n / 10, digits - 1);
    }
  }

  function Pow10(k: nat): nat {
    if k == 0 then 1 else 10 * Pow10(k - 1)
  }

  lemma CounterLength(n: nat)
    requires n <= MAX_COUNTER
    ensures |Decimal.Print(n)| <= 6
  {
    assert Pow10(1) == 10 && Pow10(2) == 100 && Pow10(3) == 1000 && Pow10(4) == 10000 && Pow10(5) == 100000;
    PrintLength(n, 6);
  }

  lemma SegmentsSplit(id: Identity)
    requires Valid(id)
    ensures RSplit(Segments(id), 4)
         == [id.task, id.role, Decimal.Print(id.ordinal), "a" + Decimal.Print(id.attempt), id.random]
  {
    SegmentsPlain(id);
    RSplitFive(id.task, id.role, Decimal.Print(id.ordinal), "a" + Decimal.Print(id.attempt), id.random);
  }

  lemma RSplitFive(t: string, r: string, o: string, a: string, x: string)
    requires NoColon(r) && NoColon(o) && NoColon(a) && NoColon(x)
    ensures RSplit(Glue(Glue(Glue(Glue(t, r), o), a), x), 4) == [t, r, o, a, x]
  {
    hide RSplit, NoColon, Glue;
    var s1 := Glue(t, r);
    var s2 := Glue(s1, o);
    var s3 := Glue(s2, a);
    RSplitOne(s3, x, 4);
    RSplitOne(s2, a, 3);
    RSplitOne(s1, o, 2);
    RSplitOne(t, r, 1);
    RSplitNone(t);
    assert RSplit(s1, 1) == [t, r];
    assert RSplit(s2, 2) == [t, r, o];
    assert RSplit(s3, 3) == [t, r, o, a];
  }

  lemma AfterPrefix(s: string)
    ensures ("run:" + s)[4..] == s
  {
  }

  lemma SegmentsPlain(id: Identity)
    requires Valid(id)
    ensures NoColon(id.role) && NoColon(Decimal.Print(id.ordinal)) && NoColon("a" + Decimal.Print(id.attempt)) && NoColon(id.random)
  {
    CounterOfPrint(id.ordinal);
    CounterOfPrint(id.attempt);
  }

  lemma RSplitNone(s: string)
    ensures RSplit(s, 0) == [s]
  {
  }

  predicate Printable(c: char) {
    '!' <= c <= '~'
  }

  predicate Visible(s: string) {
    forall i :: 0 <= i < |s| ==> Printable(s[i])
  }

  lemma GlueVisible(a: string, b: string)
    requires Visible(a) && Visible(b)
    ensures Visible(Glue(a, b)) && |Glue(a, b)| == |a| + 1 + |b|
  {
  }

  lemma PrintChars(id: Identity)
    requires Valid(id)
    ensures Visible(Print(id)) && 4 < |Print(id)| <= 512 && "run:" <= Print(id)
  {
    var o, a := Decimal.Print(id.ordinal), "a" + Decimal.Print(id.attempt);
    CounterLength(id.ordinal);
    CounterLength(id.attempt);
    assert Visible(id.task) && Visible(id.role) && Visible(o) && Visible(a) && Visible(id.random);
    hide Glue;
    GlueVisible(id.task, id.role);
    GlueVisible(Glue(id.task, id.role), o);
    GlueVisible(Glue(Glue(id.task, id.role), o), a);
    GlueVisible(Glue(Glue(Glue(id.task, id.role), o), a), id.random);
  }

  /** Parsing a printed run id gives the run. */
  lemma ParseOfPrint(id: Identity)
    requires Valid(id)
    ensures Parse(Print(id)) == Some(id)
  {
    var s := Print(id);
    PrintChars(id);
    SegmentsSplit(id);
    AfterPrefix(Segments(id));
    CounterOfPrint(id.ordinal);
    CounterOfPrint(id.attempt);
    hide Print, Segments, RSplit, Counter, IsTask, IsRole, IsRandom;
    var a := "a" + Decimal.Print(id.attempt);
    assert a[1..] == Decimal.Print(id.attempt) && "a" <= a;
    VisibleEnds(s);
  }

  lemma VisibleEnds(s: string)
    requires Visible(s) && s != ""
    ensures !IsSpace(s[0]) && !IsSpace(s[|s| - 1])
    ensures forall i :: 0 <= i < |s| ==> s[i] != '\0' && s[i] != '\r' && s[i] != '\n'
  {
    assert Printable(s[0]) && Printable(s[|s| - 1]);
  }

  /** Printing what was parsed gives the text back: the two are mutual inverses. */
  lemma PrintOfParse(s: string)
    requires Parse(s).Some?
    ensures Valid(Parse(s).value) && Print(Parse(s).value) == s
  {
    hide RSplit, Counter, IsTask, IsRole, IsRandom, Join, Glue;
    var parts := RSplit(s[4..], 4);
    var id := Parse(s).value;
    JoinOfRSplit(s[4..], 4);
    JoinFive(parts);
    PrintOfCounter(parts[2]);
    PrintOfCounter(parts[3][1..]);
    assert parts[3] == "a" + parts[3][1..];
    assert s == "run:" + s[4..];
  }
}
