/** How long the writer's texts can get: every text is ASCII, and no longer than the weight of its value. */
module JsonSize {
  import opened Decimal
  import opened Json

  predicate Ascii(s: string) {
    forall i :: 0 <= i < |s| ==> s[i] as int < 0x80
  }

  // ---------------------------------------------------------------- ASCII

  lemma {:induction false} EscapeSize(s: string)
    ensures Ascii(Escape(s)) && |Escape(s)| <= 12 * |s|
  {
    if s != "" {
      EscapeSize(s[1..]);
    }
  }

  lemma IntAscii(i: int)
    ensures Ascii(PrintInt(i))
  {
  }

  lemma {:induction false} DumpsAscii(v: Json)
    requires WellFormed(v)
    ensures Ascii(Dumps(v))
    decreases v, 1
  {
    hide EscapeChar;
    match v
    case Int(i) => IntAscii(i);
    case Str(s) => EscapeSize(s);
    case Arr(items) => if items != [] { ItemsAscii(items); }
    case Obj(fields) => if fields != [] { FieldsAscii(fields); }
    case _ =>
  }

  lemma {:induction false} ItemsAscii(items: seq<Json>)
    requires items != [] && forall i :: 0 <= i < |items| ==> WellFormed(items[i])
    ensures Ascii(DumpsItems(items))
    decreases items, 0
  {
    hide Dumps;
    DumpsAscii(items[0]);
    if |items| > 1 {
      ItemsAscii(items[1..]);
    }
  }

  lemma {:induction false} FieldsAscii(fields: seq<Field>)
    requires fields != [] && forall i :: 0 <= i < |fields| ==> WellFormed(fields[i].value)
    ensures Ascii(DumpsFields(fields))
    decreases fields, 0
  {
    hide Dumps, Escape;
    EscapeSize(fields[0].key);
    DumpsAscii(fields[0].value);
    if |fields| > 1 {
      FieldsAscii(fields[1..]);
    }
  }

  // ---------------------------------------------------------------- weight

  /** A bound on the text of a value: an escaped character takes at most twelve. */
  function Weight(v: Json): nat
    decreases v, 1
  {
    match v
    case Null => 4
    case Bool(_) => 5
    case Int(i) => |PrintInt(i)|
    case Real(t) => |t|
    case Str(s) => 12 * |s| + 2
    case Arr(items) => 2 + ItemsWeight(items)
    case Obj(fields) => 2 + FieldsWeight(fields)
  }

  function ItemsWeight(items: seq<Json>): nat
    decreases items, 0
  {
    if items == [] then 0 else Weight(items[0]) + 1 + ItemsWeight(items[1..])
  }

  function FieldsWeight(fields: seq<Field>): nat
    decreases fields, 0
  {
    if fields == [] then 0 else 12 * |fields[0].key| + 4 + Weight(fields[0].value) + FieldsWeight(fields[1..])
  }

  lemma {:induction false} DumpsWeight(v: Json)
    ensures |Dumps(v)| <= Weight(v)
    decreases v, 1
  {
    hide EscapeChar, PrintInt;
    match v
    case Str(s) => EscapeSize(s);
    case Arr(items) => if items != [] { DumpsItemsWeight(items); }
    case Obj(fields) => if fields != [] { DumpsFieldsWeight(fields); }
    case _ =>
  }

  lemma {:induction false} DumpsItemsWeight(items: seq<Json>)
    requires items != []
    ensures |DumpsItems(items)| <= ItemsWeight(items)
    decreases items, 0
  {
    hide Dumps, Weight;
    DumpsWeight(items[0]);
    if |items| > 1 {
      DumpsItemsWeight(items[1..]);
    }
  }

  lemma {:induction false} DumpsFieldsWeight(fields: seq<Field>)
    requires fields != []
    ensures |DumpsFields(fields)| <= FieldsWeight(fields)
    decreases fields, 0
  {
    hide Dumps, Weight, Escape;
    EscapeSize(fields[0].key);
    DumpsWeight(fields[0].value);
    if |fields| > 1 {
      DumpsFieldsWeight(fields[1..]);
    }
  }

  lemma {:induction false} FieldsWeightConcat(a: seq<Field>, b: seq<Field>)
    ensures FieldsWeight(a + b) == FieldsWeight(a) + FieldsWeight(b)
  {
    hide Weight;
    if a == [] {
      assert a + b == b;
    } else {
      assert (a + b)[1..] == a[1..] + b;
      FieldsWeightConcat(a[1..], b);
    }
  }

  function Cost(f: Field): nat {
    12 * |f.key| + 4 + Weight(f.value)
  }

  lemma MoreFields(f: Field, rest: seq<Field>)
    ensures FieldsWeight([f] + rest) == Cost(f) + FieldsWeight(rest)
  {
    assert ([f] + rest)[1..] == rest;
  }

  lemma TwoFields(a: Field, b: Field)
    ensures FieldsWeight([a, b]) == Cost(a) + Cost(b)
  {
    MoreFields(b, []);
    assert [b] + [] == [b] && [a] + [b] == [a, b];
    MoreFields(a, [b]);
  }

  lemma ThreeFields(a: Field, b: Field, c: Field)
    ensures FieldsWeight([a, b, c]) == Cost(a) + Cost(b) + Cost(c)
  {
    TwoFields(b, c);
    assert [a] + [b, c] == [a, b, c];
    MoreFields(a, [b, c]);
  }

  lemma FiveFields(a: Field, b: Field, c: Field, d: Field, e: Field)
    ensures FieldsWeight([a, b, c, d, e]) == Cost(a) + Cost(b) + Cost(c) + Cost(d) + Cost(e)
  {
    ThreeFields(c, d, e);
    assert [b] + [c, d, e] == [b, c, d, e] && [a] + [b, c, d, e] == [a, b, c, d, e];
    MoreFields(b, [c, d, e]);
    MoreFields(a, [b, c, d, e]);
  }

  lemma MoreItems(v: Json, rest: seq<Json>)
    ensures ItemsWeight([v] + rest) == Weight(v) + 1 + ItemsWeight(rest)
  {
    assert ([v] + rest)[1..] == rest;
  }

  lemma ThreeItems(a: Json, b: Json, c: Json)
    ensures ItemsWeight([a, b, c]) == Weight(a) + Weight(b) + Weight(c) + 3
  {
    assert [c] + [] == [c] && [b] + [c] == [b, c] && [a] + [b, c] == [a, b, c];
    MoreItems(c, []);
    MoreItems(b, [c]);
    MoreItems(a, [b, c]);
  }

  // ---------------------------------------------------------------- numerals

  function Pow10(k: nat): nat {
    if k == 0 then 1 else 10 * Pow10(k - 1)
  }

  lemma {:induction false} PrintLength(n: nat, k: nat)
    requires k > 0 && n < Pow10(k)
    ensures |Print(n)| <= k
  {
    if n >= 10 {
      PrintLength(n / 10, k - 1);
    }
  }
}
