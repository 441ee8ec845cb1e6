/** When a document without sentinels is adopted, and why it is refused otherwise. */
module ProjectionAdoption {
  import opened Sentinels
  import opened Projection

  /** A line that begins with `prefix` starts at `i`. */
  predicate Stands(text: string, prefix: string, i: nat) {
    i <= |text| && LineStart(text, i) && At(text, prefix, i)
  }

  ghost predicate OnlyLine(text: string, prefix: string, i: nat) {
    Stands(text, prefix, i) && forall j: nat :: Stands(text, prefix, j) ==> j == i
  }

  predicate Rising(r: seq<nat>) {
    forall j, k :: 0 <= j < k < |r| ==> r[j] < r[k]
  }

  lemma RisingMore(x: nat, r: seq<nat>)
    requires Rising(r) && forall i :: i in r ==> x < i
    ensures Rising([x] + r)
  {
    forall j, k | 0 <= j < k < |[x] + r| ensures ([x] + r)[j] < ([x] + r)[k] {
      assert ([x] + r)[k] == r[k - 1] && r[k - 1] in r;
      assert j > 0 ==> ([x] + r)[j] == r[j - 1];
    }
  }

  lemma OnlyMember(r: seq<nat>, i: nat)
    requires Rising(r) && i in r && forall k :: k in r ==> k == i
    ensures r == [i]
  {
    var n := |r| - 1;
    assert r[0] in r && r[n] in r;
  }

  lemma {:induction false} LinesWithExactly(text: string, prefix: string, from: nat)
    ensures var r := LinesWith(text, prefix, from);
            && (forall i: nat :: i in r <==> from <= i && Stands(text, prefix, i))
            && Rising(r)
    decreases |text| - from
  {
    hide Stands, LinesWith, Rising;
    LinesWithStep(text, prefix, from);
    if from < |text| {
      LinesWithExactly(text, prefix, from + 1);
      if Stands(text, prefix, from) {
        RisingMore(from, LinesWith(text, prefix, from + 1));
      }
    } else {
      NothingAfter(text, prefix, from);
    }
  }

  lemma LinesWithStep(text: string, prefix: string, from: nat)
    ensures from < |text| ==>
              var more := LinesWith(text, prefix, from + 1);
              LinesWith(text, prefix, from) == if Stands(text, prefix, from) then [from] + more else more
    ensures from >= |text| ==> LinesWith(text, prefix, from) == if Stands(text, prefix, from) then [from] else []
  {
    hide LineStart, At;
  }

  lemma NothingAfter(text: string, prefix: string, from: nat)
    requires from >= |text|
    ensures forall i: nat :: i > from ==> !Stands(text, prefix, i)
    ensures Rising([from]) && Rising([])
  {
  }

  lemma OneLineWith(text: string, prefix: string)
    ensures |LinesWith(text, prefix, 0)| == 1 <==> exists i: nat :: OnlyLine(text, prefix, i)
    ensures forall i: nat :: OnlyLine(text, prefix, i) ==> LinesWith(text, prefix, 0) == [i]
  {
    hide Stands, LinesWith;
    LinesWithExactly(text, prefix, 0);
    var r := LinesWith(text, prefix, 0);
    if |r| == 1 {
      assert r[0] in r;
      assert OnlyLine(text, prefix, r[0]);
    }
    forall i: nat | OnlyLine(text, prefix, i) ensures r == [i] {
      OnlyMember(r, i);
    }
  }

  // ---------------------------------------------------------------- work and handoff documents

  ghost predicate HasAnchor(text: string) {
    exists a: nat :: OnlyLine(text, ANCHOR, a)
  }

  /** A work or handoff document is adopted exactly when one line begins with the historical anchor and the
      text begins with a title line; and the refusal says which of the two is missing. */
  lemma FrontMatterAdopted(target: Target, f: Facts, text: string)
    requires Clean(text) && !target.Collab?
    ensures Render(target, f, Some(text)).Doc? <==> HasAnchor(text) && "# " <= text && '\n' in text
    ensures Render(target, f, Some(text)) == Refused(AnchorInvalid) <==> !HasAnchor(text)
    ensures Render(target, f, Some(text)) == Refused(TitleInvalid) <==> HasAnchor(text) && !("# " <= text && '\n' in text)
  {
    hide Block, Machine, Free, LinesWith, Pairs, Replace, OnlyLine;
    SentinelsAreMarkers();
    CountOne(text, BEGIN);
    CountOne(text, END);
    OneLineWith(text, ANCHOR);
  }

  // ---------------------------------------------------------------- the claims document

  /** The claims heading alone on its line. */
  predicate IsHeading(text: string, h: nat) {
    && Stands(text, HEADING, h)
    && var e := h + |HEADING|;
       LineEnd(text, e) || (e < |text| && text[e] == '\r' && LineEnd(text, e + 1))
  }

  ghost predicate OnlyHeading(text: string, h: nat) {
    IsHeading(text, h) && forall j: nat :: IsHeading(text, j) ==> j == h
  }

  lemma {:induction false} HeadingsExactly(text: string, starts: seq<nat>)
    requires Rising(starts)
    ensures var r := Headings(text, starts);
            && (forall i: nat :: i in r <==> i in starts && HeadingEnd(text, i).Some?)
            && Rising(r)
  {
    assert Rising([]);
    hide HeadingEnd, Rising;
    if starts != [] {
      var rest := starts[1..];
      assert starts == [starts[0]] + rest;
      RisingTail(starts);
      HeadingsExactly(text, rest);
      if HeadingEnd(text, starts[0]).Some? {
        RisingMore(starts[0], Headings(text, rest));
        assert Headings(text, starts) == [starts[0]] + Headings(text, rest);
      } else {
        assert Headings(text, starts) == Headings(text, rest);
      }
    }
  }

  lemma RisingTail(r: seq<nat>)
    requires Rising(r) && r != []
    ensures Rising(r[1..]) && forall i :: i in r[1..] ==> r[0] < i
  {
    forall i | i in r[1..] ensures r[0] < i {
      var k :| 0 <= k < |r[1..]| && r[1..][k] == i;
      assert r[k + 1] == i;
    }
  }

  lemma OneHeading(text: string)
    ensures var r := Headings(text, LinesWith(text, HEADING, 0));
            && (|r| == 1 <==> exists h: nat :: OnlyHeading(text, h))
            && (forall h: nat :: OnlyHeading(text, h) ==> r == [h])
            && (|r| == 1 ==> HeadingEnd(text, r[0]).Some?)
  {
    hide LinesWith, Headings;
    var starts := LinesWith(text, HEADING, 0);
    var r := Headings(text, starts);
    LinesWithExactly(text, HEADING, 0);
    HeadingsExactly(text, starts);
    forall i: nat ensures i in r <==> IsHeading(text, i) {
      HeadingMeans(text, i);
    }
    hide IsHeading, HeadingEnd;
    if |r| == 1 {
      assert r[0] in r;
      assert OnlyHeading(text, r[0]);
    }
    forall h: nat | OnlyHeading(text, h) ensures r == [h] {
      OnlyMember(r, h);
    }
  }

  lemma HeadingMeans(text: string, i: nat)
    ensures IsHeading(text, i) <==> Stands(text, HEADING, i) && HeadingEnd(text, i).Some?
    ensures HeadingEnd(text, i).Some? ==> HeadingEnd(text, i).value >= i + |HEADING|
  {
  }

  /** No second-level heading comes between the claims heading and the row. */
  predicate SameSection(text: string, h: nat, r: nat)
    requires h + |HEADING| <= |text| && r <= |text|
  {
    h <= r && forall s :: h + |HEADING| <= s <= r ==> !Stands(text, H2, s)
  }

  ghost predicate HasRow(text: string) {
    exists h: nat, r: nat :: OnlyHeading(text, h) && OnlyLine(text, ROW, r) && SameSection(text, h, r)
  }

  ghost predicate HasHeading(text: string) {
    exists h: nat :: OnlyHeading(text, h)
  }

  /** The claims document is adopted exactly when it has one claims heading, one work-order row, and the row
      stands in the heading's section; and the refusal says which is missing. */
  lemma RowAdopted(f: Facts, text: string)
    requires Clean(text)
    ensures Render(Collab, f, Some(text)).Doc? <==> HasRow(text)
    ensures Render(Collab, f, Some(text)) == Refused(AnchorInvalid) <==> !HasHeading(text)
    ensures Render(Collab, f, Some(text)) == Refused(RowInvalid) <==> HasHeading(text) && !HasRow(text)
  {
    hide Block, Machine, Free, LinesWith, Headings, HeadingEnd, Pairs, Replace, OnlyLine, OnlyHeading, SameSection;
    SentinelsAreMarkers();
    CountOne(text, BEGIN);
    CountOne(text, END);
    OneHeading(text);
    OneLineWith(text, ROW);
    if HasHeading(text) {
      var h: nat :| OnlyHeading(text, h);
      OnlyOneHeading(text, h);
      if exists r: nat :: OnlyLine(text, ROW, r) {
        var r: nat :| OnlyLine(text, ROW, r);
        OnlyOneRow(text, r);
        SectionMeans(text, h, r);
      }
    }
  }

  lemma OnlyOneHeading(text: string, h: nat)
    requires OnlyHeading(text, h)
    ensures h + |HEADING| <= |text| && HeadingEnd(text, h).Some?
    ensures forall j: nat :: OnlyHeading(text, j) ==> j == h
  {
  }

  lemma OnlyOneRow(text: string, r: nat)
    requires OnlyLine(text, ROW, r)
    ensures r <= |text| && forall j: nat :: OnlyLine(text, ROW, j) ==> j == r
  {
  }

  /** The section check: the first heading line from the end of the claims heading on lies behind the row. */
  lemma SectionMeans(text: string, h: nat, r: nat)
    requires OnlyHeading(text, h) && OnlyLine(text, ROW, r) && h + |HEADING| <= |text| && r <= |text|
    requires HeadingEnd(text, h).Some?
    ensures var sections := LinesWith(text, H2, HeadingEnd(text, h).value);
            SameSection(text, h, r) <==> !(r < h) && !(sections != [] && r >= sections[0])
  {
    hide LinesWith, OnlyLine, OnlyHeading;
    var e := HeadingEnd(text, h).value;
    var sections := LinesWith(text, H2, e);
    LinesWithExactly(text, H2, e);
    HeadingBreaks(text, h, e);
    if sections != [] {
      assert sections[0] in sections;
    }
    forall s: nat | h + |HEADING| <= s <= r && Stands(text, H2, s) ensures sections != [] && sections[0] <= r {
      assert s >= e;
      assert s in sections;
    }
  }

  /** No line starts between the end of the heading's words and the end of its line. */
  lemma HeadingBreaks(text: string, h: nat, e: nat)
    requires OnlyHeading(text, h) && HeadingEnd(text, h) == Some(e) && h + |HEADING| <= |text|
    ensures forall s: nat :: h + |HEADING| <= s < e ==> !Stands(text, H2, s)
  {
    assert text[h..h + |HEADING|][|HEADING| - 1] == text[h + |HEADING| - 1] == 's';
  }
}
