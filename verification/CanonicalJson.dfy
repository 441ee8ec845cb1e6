/** The key-sorted form that canonical digests are taken over, and member lookup. */
module CanonicalJson {
  import opened Json
  import opened StringOrder

  datatype Maybe<+T> = Absent | Present(value: T)

  /** First member named `key`. */
  function Lookup(fields: seq<Field>, key: string): Maybe<Json> {
    if fields == [] then Absent
    else if fields[0].key == key then Present(fields[0].value)
    else Lookup(fields[1..], key)
  }

  /** Exactly the members `names`, for objects and name lists without repetition. */
  predicate HasExactly(fields: seq<Field>, names: seq<string>) {
    |fields| == |names| && forall i :: 0 <= i < |names| ==> Lookup(fields, names[i]).Present?
  }

  lemma {:induction false} LookupAt(fields: seq<Field>, i: nat)
    requires DistinctKeys(fields) && i < |fields|
    ensures Lookup(fields, fields[i].key) == Present(fields[i].value)
  {
    if i > 0 {
      assert fields[0].key != fields[i].key;
      assert DistinctKeys(fields[1..]);
      LookupAt(fields[1..], i - 1);
    }
  }

  function Insert(f: Field, fields: seq<Field>): seq<Field> {
    if fields == [] || Less(f.key, fields[0].key) then [f] + fields
    else [fields[0]] + Insert(f, fields[1..])
  }

  function SortKeys(v: Json): Json
    decreases v, 1
  {
    match v
    case Arr(items) => Arr(SortItems(items))
    case Obj(fields) => Obj(SortFields(fields))
    case _ => v
  }

  function SortItems(items: seq<Json>): seq<Json>
    decreases items, 0
  {
    if items == [] then [] else [SortKeys(items[0])] + SortItems(items[1..])
  }

  function SortFields(fields: seq<Field>): seq<Field>
    decreases fields, 0
  {
    if fields == [] then []
    else Insert(Field(fields[0].key, SortKeys(fields[0].value)), SortFields(fields[1..]))
  }

  predicate Ascending(fields: seq<Field>) {
    forall i :: 0 < i < |fields| ==> Less(fields[i - 1].key, fields[i].key)
  }

  predicate Sorted(v: Json)
    decreases v
  {
    match v
    case Arr(items) => forall i :: 0 <= i < |items| ==> Sorted(items[i])
    case Obj(fields) => Ascending(fields) && forall i :: 0 <= i < |fields| ==> Sorted(fields[i].value)
    case _ => true
  }

  lemma {:induction false} AscendingPairs(fields: seq<Field>, i: nat, j: nat)
    requires Ascending(fields) && i < j < |fields|
    ensures Less(fields[i].key, fields[j].key)
    decreases j
  {
    assert Less(fields[j - 1].key, fields[j].key);
    if i < j - 1 {
      AscendingPairs(fields, i, j - 1);
      LessTransitive(fields[i].key, fields[j - 1].key, fields[j].key);
    }
  }

  lemma {:induction false} AscendingDistinct(fields: seq<Field>)
    requires Ascending(fields)
    ensures DistinctKeys(fields)
  {
    forall i, j | 0 <= i < j < |fields| ensures fields[i].key != fields[j].key {
      AscendingPairs(fields, i, j);
      LessIrreflexive(fields[i].key);
    }
  }

  /** Sorting changes nothing that is already in order. */
  lemma {:induction false} SortSorted(v: Json)
    requires Sorted(v)
    ensures SortKeys(v) == v
    decreases v, 1
  {
    match v
    case Arr(items) => SortSortedItems(items);
    case Obj(fields) => SortSortedFields(fields);
    case _ =>
  }

  lemma {:induction false} SortSortedItems(items: seq<Json>)
    requires forall i :: 0 <= i < |items| ==> Sorted(items[i])
    ensures SortItems(items) == items
    decreases items, 0
  {
    if items != [] {
      SortSorted(items[0]);
      SortSortedItems(items[1..]);
    }
  }

  lemma {:induction false} SortSortedFields(fields: seq<Field>)
    requires Ascending(fields) && forall i :: 0 <= i < |fields| ==> Sorted(fields[i].value)
    ensures SortFields(fields) == fields
    decreases fields, 0
  {
    if fields != [] {
      SortSorted(fields[0].value);
      assert Ascending(fields[1..]) by {
        forall i | 0 < i < |fields[1..]| ensures Less(fields[1..][i - 1].key, fields[1..][i].key) {
          assert Less(fields[i].key, fields[i + 1].key);
        }
      }
      SortSortedFields(fields[1..]);
      assert |fields| > 1 ==> Less(fields[0].key, fields[1].key);
      assert [fields[0]] + fields[1..] == fields;
    }
  }

  /** The canonical text of a value. */
  function Canonical(v: Json): string {
    Dumps(SortKeys(v))
  }
}
