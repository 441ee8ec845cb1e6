/** Occurrences of the projection sentinels in a text. */
module Sentinels {

  datatype Option<T> = None | Some(value: T)

  const BEGIN := "<!-- BEGIN-MACHINE-PROJECTION -->"
  const END := "<!-- END-MACHINE-PROJECTION -->"

  predicate At(text: string, pat: string, i: nat) {
    i + |pat| <= |text| && text[i..i + |pat|] == pat
  }

  ghost predicate Free(text: string, pat: string) {
    forall i: nat :: !At(text, pat, i)
  }

  /** The first occurrence at or after a position. */
  function First(text: string, pat: string, from: nat): (r: Option<nat>)
    ensures r.Some? ==> from <= r.value && At(text, pat, r.value)
    ensures forall i: nat :: from <= i && At(text, pat, i) ==> r.Some? && r.value <= i
    decreases |text| - from
  {
    if from + |pat| > |text| then None
    else if At(text, pat, from) then Some(from)
    else if from == |text| then None
    else First(text, pat, from + 1)
  }

  /** Occurrences counted left to right, without overlaps. */
  function Count(text: string, pat: string, from: nat): nat
    requires pat != ""
    decreases |text| - from
  {
    var first := First(text, pat, from);
    if first.None? then 0 else 1 + Count(text, pat, first.value + |pat|)
  }

  /** Sentinel pairs, each the shortest from a begin sentinel to an end sentinel, left to right. */
  function Pairs(text: string, from: nat): nat
    decreases |text| - from
  {
    var b := First(text, BEGIN, from);
    if b.None? then 0
    else
      var e := First(text, END, b.value + |BEGIN|);
      if e.None? then 0 else 1 + Pairs(text, e.value + |END|)
  }

  /** The text with its first sentinel pair replaced. */
  function Replace(text: string, machine: string): string {
    var b := First(text, BEGIN, 0);
    if b.None? then text
    else
      var e := First(text, END, b.value + |BEGIN|);
      if e.None? then text else text[..b.value] + machine + text[e.value + |END|..]
  }

  // ---------------------------------------------------------------- no accidental occurrences

  /** What keeps an occurrence from straddling: a sentinel opens with '<' and has no other '<', no comma
      and no line feed in it. */
  predicate Marker(pat: string) {
    |pat| > 1 && pat[0] == '<' && forall i :: 1 <= i < |pat| ==> !Stops(pat[i])
  }

  predicate Stops(c: char) {
    c == '<' || c == '\n' || c == ','
  }

  lemma SentinelsAreMarkers()
    ensures Marker(BEGIN) && Marker(END) && |BEGIN| == 33 && |END| == 31
  {
  }

  /** No occurrence straddles a join whose second part starts with a stop character. */
  lemma AtJoin(a: string, b: string, pat: string, i: nat)
    requires Marker(pat) && (b == "" || Stops(b[0]))
    ensures At(a + b, pat, i) <==> At(a, pat, i) || (i >= |a| && At(b, pat, i - |a|))
  {
    var n := |pat|;
    if i + n <= |a| {
      assert (a + b)[i..i + n] == a[i..i + n];
    } else if i + n <= |a + b| {
      if i >= |a| {
        assert (a + b)[i..i + n] == b[i - |a|..i - |a| + n];
      } else {
        assert (a + b)[i..i + n][|a| - i] == b[0];
      }
    }
  }

  /** No occurrence starts in text without '<'. */
  lemma AtPrefix(a: string, b: string, pat: string, i: nat)
    requires Marker(pat) && forall k :: 0 <= k < |a| ==> a[k] != '<'
    ensures At(a + b, pat, i) <==> i >= |a| && At(b, pat, i - |a|)
  {
    var n := |pat|;
    if i + n <= |a + b| {
      if i >= |a| {
        assert (a + b)[i..i + n] == b[i - |a|..i - |a| + n];
      } else {
        assert (a + b)[i..i + n][0] == a[i];
      }
    }
  }

  lemma AtSlice(text: string, pat: string, lo: nat, hi: nat, i: nat)
    requires lo <= hi <= |text|
    ensures At(text[lo..hi], pat, i) <==> lo + i + |pat| <= hi && At(text, pat, lo + i)
  {
    if lo + i + |pat| <= hi {
      var s, n := text[lo..hi], |pat|;
      var a, b := s[i..i + n], text[lo + i..lo + i + n];
      forall k | 0 <= k < n ensures a[k] == b[k] {
        assert a[k] == s[i + k] == text[lo + (i + k)];
      }
      assert a == b;
    }
  }

  lemma JoinFree(a: string, b: string, pat: string)
    requires Marker(pat) && Free(a, pat) && Free(b, pat)
    requires b == "" || Stops(b[0])
    ensures Free(a + b, pat)
  {
    forall i: nat ensures !At(a + b, pat, i) {
      AtJoin(a, b, pat, i);
    }
  }

  lemma PrefixFree(a: string, b: string, pat: string)
    requires Marker(pat) && Free(b, pat) && forall i :: 0 <= i < |a| ==> a[i] != '<'
    ensures Free(a + b, pat)
  {
    forall i: nat ensures !At(a + b, pat, i) {
      AtPrefix(a, b, pat, i);
    }
  }

  lemma EmptyFree(pat: string)
    requires pat != ""
    ensures Free("", pat)
  {
  }

  lemma PlainFree(a: string, pat: string)
    requires Marker(pat) && forall i :: 0 <= i < |a| ==> a[i] != '<'
    ensures Free(a, pat)
  {
    EmptyFree(pat);
    PrefixFree(a, "", pat);
    assert a + "" == a;
  }

  lemma SliceFree(text: string, pat: string, lo: nat, hi: nat)
    requires lo <= hi <= |text| && forall i: nat :: lo <= i && i + |pat| <= hi ==> !At(text, pat, i)
    ensures Free(text[lo..hi], pat)
  {
    forall i: nat ensures !At(text[lo..hi], pat, i) {
      AtSlice(text, pat, lo, hi, i);
    }
  }

  // ---------------------------------------------------------------- exactly one occurrence

  ghost predicate One(text: string, pat: string, i: nat) {
    At(text, pat, i) && forall j: nat :: At(text, pat, j) ==> j == i
  }

  lemma NoOverlap(text: string, pat: string, i: nat, j: nat)
    requires Marker(pat) && At(text, pat, i) && i < j < i + |pat|
    ensures !At(text, pat, j)
  {
    assert text[i..i + |pat|][j - i] == text[j];
    if j + |pat| <= |text| {
      assert text[j..j + |pat|][0] == text[j];
    }
  }

  lemma CountZero(text: string, pat: string, from: nat)
    requires pat != ""
    ensures Count(text, pat, from) == 0 <==> forall i: nat :: from <= i ==> !At(text, pat, i)
  {
  }

  lemma CountOne(text: string, pat: string)
    requires Marker(pat)
    ensures Count(text, pat, 0) == 1 <==> exists i: nat :: One(text, pat, i)
    ensures Count(text, pat, 0) == 1 ==> First(text, pat, 0).Some? && One(text, pat, First(text, pat, 0).value)
    ensures Count(text, pat, 0) == 0 <==> Free(text, pat)
  {
    CountZero(text, pat, 0);
    var first := First(text, pat, 0);
    if first.Some? {
      var f := first.value;
      CountZero(text, pat, f + |pat|);
      if Count(text, pat, f + |pat|) == 0 {
        forall j: nat ensures f < j < f + |pat| ==> !At(text, pat, j) {
          if f < j < f + |pat| {
            NoOverlap(text, pat, f, j);
          }
        }
        assert One(text, pat, f);
      } else {
        var j: nat :| f + |pat| <= j && At(text, pat, j);
        forall i: nat ensures !One(text, pat, i) {
          assert At(text, pat, f) && At(text, pat, j) && f != j;
        }
      }
    }
  }

  /** One begin sentinel, one end sentinel, in this order: the only shape that is accepted. */
  ghost predicate Marked(text: string, b: nat, e: nat) {
    One(text, BEGIN, b) && One(text, END, e) && b + |BEGIN| <= e
  }

  predicate Accepted(text: string) {
    Count(text, BEGIN, 0) == 1 && Count(text, END, 0) == 1 && Pairs(text, 0) == 1
  }

  lemma MarkedPairs(text: string, b: nat, e: nat)
    requires One(text, BEGIN, b) && One(text, END, e)
    ensures Pairs(text, 0) == if b + |BEGIN| <= e then 1 else 0
    ensures b + |BEGIN| <= e ==> forall machine :: Replace(text, machine) == text[..b] + machine + text[e + |END|..]
  {
    assert First(text, BEGIN, 0) == Some(b);
    if b + |BEGIN| <= e {
      assert First(text, END, b + |BEGIN|) == Some(e);
      assert First(text, BEGIN, e + |END|) == None;
    } else {
      assert First(text, END, b + |BEGIN|) == None;
    }
  }

  lemma AcceptedIsMarked(text: string)
    ensures Accepted(text) <==> exists b: nat, e: nat :: Marked(text, b, e)
  {
    SentinelsAreMarkers();
    CountOne(text, BEGIN);
    CountOne(text, END);
    if Count(text, BEGIN, 0) == 1 && Count(text, END, 0) == 1 {
      var b, e := First(text, BEGIN, 0).value, First(text, END, 0).value;
      MarkedPairs(text, b, e);
      if b + |BEGIN| <= e {
        assert Marked(text, b, e);
      }
    }
    if b: nat, e: nat :| Marked(text, b, e) {
      MarkedPairs(text, b, e);
    }
  }

  // ---------------------------------------------------------------- a pair laid out between clean texts

  ghost predicate Clean(text: string) {
    Free(text, BEGIN) && Free(text, END)
  }

  function Machine(block: string): string {
    BEGIN + "\n" + block + "\n" + END
  }

  /** An occurrence behind sentinel-free text. */
  lemma OneBehind(a: string, b: string, pat: string, i: nat)
    requires Marker(pat) && Free(a, pat) && One(b, pat, i) && Stops(b[0])
    ensures One(a + b, pat, |a| + i)
  {
    AtJoin(a, b, pat, |a| + i);
    forall j: nat | At(a + b, pat, j) ensures j == |a| + i {
      AtJoin(a, b, pat, j);
    }
  }

  /** What occurs in text behind a sentinel, other than at its start. */
  lemma AtBehind(mark: string, rest: string, pat: string, j: nat)
    requires Marker(mark) && Marker(pat) && j > 0
    ensures At(mark + rest, pat, j) <==> j >= |mark| && At(rest, pat, j - |mark|)
  {
    var text := mark + rest;
    assert text[1..|text|] == mark[1..] + rest;
    AtSlice(text, pat, 1, |text|, j - 1);
    AtPrefix(mark[1..], rest, pat, j - 1);
  }

  lemma HeadOnly(pat: string, rest: string)
    requires Marker(pat) && Free(rest, pat)
    ensures One(pat + rest, pat, 0)
  {
    assert (pat + rest)[0..|pat|] == pat;
    forall j: nat | At(pat + rest, pat, j) ensures j == 0 {
      if j > 0 {
        AtBehind(pat, rest, pat, j);
      }
    }
  }

  lemma Differ(rest: string)
    ensures !At(BEGIN + rest, END, 0) && !At(END + rest, BEGIN, 0)
  {
    if |BEGIN + rest| >= |END| {
      assert (BEGIN + rest)[0..0 + |END|][5] == BEGIN[5] == 'B' && END[5] == 'E';
    }
    if |END + rest| >= |BEGIN| {
      assert (END + rest)[0..0 + |BEGIN|][5] == END[5] == 'E' && BEGIN[5] == 'B';
    }
  }

  /** From the end sentinel on. */
  lemma EndOnly(post: string)
    requires Clean(post)
    ensures One(END + post, END, 0) && Free(END + post, BEGIN)
  {
    SentinelsAreMarkers();
    HeadOnly(END, post);
    Differ(post);
    forall j: nat ensures !At(END + post, BEGIN, j) {
      if j > 0 {
        AtBehind(END, post, BEGIN, j);
      }
    }
  }

  /** From the begin sentinel on. */
  lemma BeginOnly(mid: string, post: string)
    requires Clean(mid) && Clean(post)
    ensures One(BEGIN + (mid + (END + post)), BEGIN, 0)
    ensures One(BEGIN + (mid + (END + post)), END, |BEGIN| + |mid|)
  {
    SentinelsAreMarkers();
    EndOnly(post);
    var tail := END + post;
    assert tail[0] == '<';
    JoinFree(mid, tail, BEGIN);
    HeadOnly(BEGIN, mid + tail);
    OneBehind(mid, tail, END, 0);
    Differ(mid + tail);
    forall j: nat ensures At(BEGIN + (mid + tail), END, j) <==> j == |BEGIN| + |mid| {
      if j > 0 {
        AtBehind(BEGIN, mid + tail, END, j);
      }
    }
  }

  /** A machine block between clean texts is the one pair of its document. */
  lemma LaidOut(pre: string, block: string, post: string)
    requires Clean(pre) && Clean("\n" + block + "\n") && Clean(post)
    ensures Marked(pre + Machine(block) + post, |pre|, |pre| + |BEGIN| + |block| + 2)
  {
    hide One, Free, Machine;
    SentinelsAreMarkers();
    var mid := "\n" + block + "\n";
    BeginOnly(mid, post);
    var doc := BEGIN + (mid + (END + post));
    assert doc[0] == '<';
    OneBehind(pre, doc, BEGIN, 0);
    OneBehind(pre, doc, END, |BEGIN| + |mid|);
    MachineParts(pre, block, post);
  }

  lemma MachineParts(pre: string, block: string, post: string)
    ensures pre + Machine(block) + post == pre + (BEGIN + (("\n" + block + "\n") + (END + post)))
  {
  }

  /** What surrounds the one pair of a document is clean. */
  lemma Surroundings(text: string, b: nat, e: nat)
    requires Marked(text, b, e)
    ensures Clean(text[..b]) && Clean(text[e + |END|..])
  {
    SentinelsAreMarkers();
    assert text[..b] == text[0..b] && text[e + |END|..] == text[e + |END|..|text|];
    SliceFree(text, BEGIN, 0, b);
    SliceFree(text, END, 0, b);
    SliceFree(text, BEGIN, e + |END|, |text|);
    SliceFree(text, END, e + |END|, |text|);
  }

  /** Replacing the pair of a laid-out document leaves everything around it. */
  lemma ReplaceLaidOut(pre: string, block: string, post: string, machine: string)
    requires Clean(pre) && Clean("\n" + block + "\n") && Clean(post)
    ensures Accepted(pre + Machine(block) + post)
    ensures Replace(pre + Machine(block) + post, machine) == pre + machine + post
  {
    var text := pre + Machine(block) + post;
    var e := |pre| + |BEGIN| + |block| + 2;
    LaidOut(pre, block, post);
    AcceptedIsMarked(text);
    MarkedPairs(text, |pre|, e);
    SentinelsAreMarkers();
    assert |Machine(block)| == |BEGIN| + |block| + 2 + |END|;
    assert text[..|pre|] == pre && text[e + |END|..] == post;
  }
}
