/** What a reader can tell from a projection block: every fact it shows, provided no text breaks its line. */
module ProjectionReads {
  import opened Projection
  import opened Sentinels
  import opened StringOrder

  predicate Free(s: string, sep: char) {
    sep !in s
  }

  predicate AllFree(parts: seq<string>, sep: char) {
    forall i :: 0 <= i < |parts| ==> Free(parts[i], sep)
  }

  /** Joined texts without the separator are told apart. */
  lemma {:induction false} JoinInjective(a: seq<string>, b: seq<string>, sep: char)
    requires a != [] && b != [] && AllFree(a, sep) && AllFree(b, sep) && Join(a, [sep]) == Join(b, [sep])
    ensures a == b
  {
    HeadOfJoin(a, sep);
    HeadOfJoin(b, sep);
    SameHead(a[0], b[0], Join(a, [sep]), sep);
    if |a| > 1 && |b| > 1 {
      var s := Join(a, [sep]);
      assert s == a[0] + [sep] + Join(a[1..], [sep]) && s == b[0] + [sep] + Join(b[1..], [sep]);
      assert s[|a[0]| + 1..] == Join(a[1..], [sep]) && s[|b[0]| + 1..] == Join(b[1..], [sep]);
      JoinInjective(a[1..], b[1..], sep);
      assert a == [a[0]] + a[1..] && b == [b[0]] + b[1..];
    } else {
      assert |a| == 1 && |b| == 1;
      assert a == [a[0]] && b == [b[0]];
    }
  }

  /** The first part ends at the first separator, or at the end when it is alone. */
  predicate Heads(h: string, s: string, sep: char, alone: bool) {
    && Free(h, sep) && h <= s && (alone ==> s == h) && (!alone ==> |h| < |s| && s[|h|] == sep)
  }

  lemma HeadOfJoin(a: seq<string>, sep: char)
    requires a != [] && AllFree(a, sep)
    ensures Heads(a[0], Join(a, [sep]), sep, |a| == 1)
    ensures |a| > 1 ==> Join(a, [sep]) == a[0] + [sep] + Join(a[1..], [sep])
  {
    if |a| > 1 {
      assert a[0] + ([sep] + Join(a[1..], [sep])) == a[0] + [sep] + Join(a[1..], [sep]);
    }
  }

  lemma SameHead(h: string, g: string, s: string, sep: char)
    requires Heads(h, s, sep, h == s) && Heads(g, s, sep, g == s)
    ensures h == g
  {
    NotLonger(h, g, s, sep);
    NotLonger(g, h, s, sep);
  }

  lemma NotLonger(h: string, g: string, s: string, sep: char)
    requires Heads(h, s, sep, h == s) && Heads(g, s, sep, g == s)
    ensures |g| <= |h|
  {
  }

  // ---------------------------------------------------------------- facts whose block can be read

  /** No text has a line feed, heads are not empty and not the word for an unknown one, and lease ids have no
      comma and are not the word for none. */
  predicate Readable(f: Facts) {
    && Free(f.task, '\n') && Free(f.candidate, '\n') && Free(f.branch, '\n') && Free(f.writer, '\n')
    && Free(OrUnknown(f.head), '\n') && Free(OrUnknown(f.merge), '\n')
    && f.candidate != "UNKNOWN" && Plain(f.head) && Plain(f.merge)
    && forall l :: l in f.leases ==> Free(l.id, ',') && Free(l.id, '\n') && l.id != "NONE"
  }

  predicate Plain(o: Option<string>) {
    o.Some? ==> o.value != "" && o.value != "UNKNOWN"
  }

  /** Everything that two readable sets of facts with the same block agree on. */
  predicate ShownAlike(f: Facts, g: Facts) {
    && f.(leases := []) == g.(leases := [])
    && multiset(Ids(f.leases, false)) == multiset(Ids(g.leases, false))
    && multiset(Ids(f.leases, true)) == multiset(Ids(g.leases, true))
  }

  lemma {:induction false} IdsOf(leases: seq<LeaseFact>, released: bool)
    ensures forall id :: id in Ids(leases, released) ==> exists l :: l in leases && l.id == id
  {
    if leases != [] {
      IdsOf(leases[1..], released);
    }
  }

  predicate Tellable(ids: seq<string>) {
    forall i :: 0 <= i < |ids| ==> Free(ids[i], ',') && Free(ids[i], '\n') && ids[i] != "NONE"
  }

  lemma SortedIds(f: Facts, released: bool)
    requires Readable(f)
    ensures Tellable(Sort(Ids(f.leases, released)))
  {
    hide Ids, Sort;
    var ids := Sort(Ids(f.leases, released));
    IdsOf(f.leases, released);
    forall i | 0 <= i < |ids| ensures Free(ids[i], ',') && Free(ids[i], '\n') && ids[i] != "NONE" {
      assert ids[i] in multiset(ids);
      assert ids[i] in Ids(f.leases, released);
    }
  }

  /** How a list of ids is shown. */
  function Shown(ids: seq<string>): string {
    if ids == [] then "NONE" else Join(ids, ",")
  }

  lemma ShownFree(ids: seq<string>)
    requires Tellable(ids)
    ensures Free(Shown(ids), '\n')
  {
    if ids != [] {
      JoinFree(ids);
    }
  }

  lemma {:induction false} JoinFree(ids: seq<string>)
    requires Tellable(ids)
    ensures Free(Join(ids, ","), '\n')
  {
    if |ids| > 1 {
      JoinFree(ids[1..]);
    }
  }

  lemma ShownInjective(a: seq<string>, b: seq<string>)
    requires Tellable(a) && Tellable(b) && Shown(a) == Shown(b)
    ensures a == b
  {
    if a != [] {
      NotNone(a);
    }
    if b != [] {
      NotNone(b);
    }
    if a != [] && b != [] {
      JoinInjective(a, b, ',');
    }
  }

  lemma NotNone(ids: seq<string>)
    requires ids != [] && Tellable(ids)
    ensures Join(ids, ",") != "NONE"
  {
    HeadOfJoin(ids, ',');
    if |ids| > 1 {
      assert Join(ids, ",")[|ids[0]|] == ',';
      assert "NONE"[0] != ',' && "NONE"[1] != ',' && "NONE"[2] != ',' && "NONE"[3] != ',';
    }
  }

  // ---------------------------------------------------------------- line by line

  lemma NamesFree(p: PostMain, c: Closeout)
    ensures Free(PostMainName(p), '\n') && Free(CloseoutName(c), '\n')
  {
  }

  lemma PostMainNamesDiffer(p: PostMain, q: PostMain)
    requires PostMainName(p) == PostMainName(q)
    ensures p == q
  {
    assert PostMainName(p)[0] == PostMainName(q)[0];
  }

  lemma CloseoutNamesDiffer(p: Closeout, q: Closeout)
    requires CloseoutName(p) == CloseoutName(q)
    ensures p == q
  {
    assert |CloseoutName(p)| == |CloseoutName(q)|;
  }

  lemma TagsFree()
    ensures Free("task: ", '\n') && Free("candidate: ", '\n') && Free("branch: ", '\n') && Free("head: ", '\n')
    ensures Free("merge-commit: ", '\n') && Free("post-main: ", '\n') && Free("closeout: ", '\n')
    ensures Free("active-leases: ", '\n') && Free("ownership: ", '\n') && Free("writer-session: ", '\n')
    ensures Free("released-leases: ", '\n') && Free("KNOWN", '\n') && Free("UNKNOWN", '\n')
  {
  }

  lemma CandidateFree(f: Facts)
    requires Readable(f)
    ensures Free(OrUnknown(Some(f.candidate)), '\n')
  {
  }

  lemma TellableFree(ids: seq<string>)
    requires Tellable(ids)
    ensures AllFree(ids, ',')
  {
  }

  lemma Prefixed(tag: string, a: string)
    requires Free(tag, '\n') && Free(a, '\n')
    ensures Free(tag + a, '\n')
  {
  }

  lemma LinesFree(f: Facts)
    requires Readable(f)
    ensures AllFree(Lines(f), '\n') && |Lines(f)| >= 10
  {
    hide Ids, Sort, Join, PostMainName, CloseoutName, Free, OrUnknown, Tellable;
    var active, released := Sort(Ids(f.leases, false)), Sort(Ids(f.leases, true));
    TagsFree();
    CandidateFree(f);
    SortedIds(f, false);
    SortedIds(f, true);
    ShownFree(active);
    JoinFree(released);
    NamesFree(f.postMain, f.closeout);
    Prefixed("task: ", f.task);
    Prefixed("candidate: ", OrUnknown(Some(f.candidate)));
    Prefixed("branch: ", f.branch);
    Prefixed("head: ", OrUnknown(f.head));
    Prefixed("merge-commit: ", OrUnknown(f.merge));
    Prefixed("post-main: ", PostMainName(f.postMain));
    Prefixed("closeout: ", CloseoutName(f.closeout));
    Prefixed("active-leases: ", Shown(active));
    Prefixed("writer-session: ", f.writer);
    Prefixed("released-leases: ", Join(released, ","));
    Prefixed("ownership: ", "KNOWN");
    Prefixed("ownership: ", "UNKNOWN");
    assert Lines(f)[7] == "active-leases: " + Shown(active);
  }

  lemma SameText(tag: string, a: string, b: string)
    requires tag + a == tag + b
    ensures a == b
  {
    assert (tag + a)[|tag|..] == a && (tag + b)[|tag|..] == b;
  }

  lemma SameLines(f: Facts, g: Facts)
    requires Lines(f) == Lines(g)
    ensures f.task == g.task && f.branch == g.branch && f.writer == g.writer
    ensures OrUnknown(Some(f.candidate)) == OrUnknown(Some(g.candidate))
    ensures OrUnknown(f.head) == OrUnknown(g.head) && OrUnknown(f.merge) == OrUnknown(g.merge)
    ensures f.postMain == g.postMain && f.closeout == g.closeout && f.ownershipKnown == g.ownershipKnown
    ensures Shown(Sort(Ids(f.leases, false))) == Shown(Sort(Ids(g.leases, false)))
  {
    hide Ids, Sort, Join, PostMainName, CloseoutName, OrUnknown;
    var p, q := Lines(f), Lines(g);
    assert p[0] == q[0] && p[1] == q[1] && p[2] == q[2] && p[3] == q[3] && p[4] == q[4] && p[5] == q[5] && p[6] == q[6]
        && p[7] == q[7] && p[8] == q[8] && p[9] == q[9];
    SameText("task: ", f.task, g.task);
    SameText("candidate: ", OrUnknown(Some(f.candidate)), OrUnknown(Some(g.candidate)));
    SameText("branch: ", f.branch, g.branch);
    SameText("head: ", OrUnknown(f.head), OrUnknown(g.head));
    SameText("merge-commit: ", OrUnknown(f.merge), OrUnknown(g.merge));
    SameText("post-main: ", PostMainName(f.postMain), PostMainName(g.postMain));
    SameText("closeout: ", CloseoutName(f.closeout), CloseoutName(g.closeout));
    SameText("active-leases: ", Shown(Sort(Ids(f.leases, false))), Shown(Sort(Ids(g.leases, false))));
    SameText("writer-session: ", f.writer, g.writer);
    SameText("ownership: ", if f.ownershipKnown then "KNOWN" else "UNKNOWN", if g.ownershipKnown then "KNOWN" else "UNKNOWN");
    assert |"KNOWN"| != |"UNKNOWN"|;
    PostMainNamesDiffer(f.postMain, g.postMain);
    CloseoutNamesDiffer(f.closeout, g.closeout);
  }

  lemma SameReleased(f: Facts, g: Facts)
    requires Lines(f) == Lines(g) && Readable(f) && Readable(g)
    ensures Sort(Ids(f.leases, true)) == Sort(Ids(g.leases, true))
  {
    hide Ids, Sort, PostMainName, CloseoutName, OrUnknown, Join, Tellable, AllFree, Readable;
    var a, b := Sort(Ids(f.leases, true)), Sort(Ids(g.leases, true));
    SortedIds(f, true);
    SortedIds(g, true);
    assert |Lines(f)| == 10 + (if a == [] then 0 else 1) && |Lines(g)| == 10 + (if b == [] then 0 else 1);
    if a != [] {
      assert Lines(f)[10] == "released-leases: " + Join(a, ",") && Lines(g)[10] == "released-leases: " + Join(b, ",");
      SameText("released-leases: ", Join(a, ","), Join(b, ","));
      TellableFree(a);
      TellableFree(b);
      JoinInjective(a, b, ',');
    }
  }

  lemma SameOption(a: Option<string>, b: Option<string>)
    requires OrUnknown(a) == OrUnknown(b) && Plain(a) && Plain(b)
    ensures a == b
  {
  }

  /** The block determines the facts it shows: all of them but the order of leases and the leases that are
      neither released nor active and owned. */
  lemma BlockDetermines(f: Facts, g: Facts)
    requires Readable(f) && Readable(g)
    ensures Block(f) == Block(g) <==> ShownAlike(f, g)
  {
    hide Ids, Sort, PostMainName, CloseoutName, Lines, Join;
    if Block(f) == Block(g) {
      LinesFree(f);
      LinesFree(g);
      JoinInjective(Lines(f), Lines(g), '\n');
      SameLines(f, g);
      SameReleased(f, g);
      SortedIds(f, false);
      SortedIds(g, false);
      ShownInjective(Sort(Ids(f.leases, false)), Sort(Ids(g.leases, false)));
      SortIsCanonical(Ids(f.leases, false), Ids(g.leases, false));
      SortIsCanonical(Ids(f.leases, true), Ids(g.leases, true));
      SameOption(f.head, g.head);
      SameOption(f.merge, g.merge);
    }
    if ShownAlike(f, g) {
      SortIsCanonical(Ids(f.leases, false), Ids(g.leases, false));
      SortIsCanonical(Ids(f.leases, true), Ids(g.leases, true));
      AlikeLines(f, g);
    }
  }

  lemma AlikeLines(f: Facts, g: Facts)
    requires f.(leases := []) == g.(leases := [])
    requires Sort(Ids(f.leases, false)) == Sort(Ids(g.leases, false)) && Sort(Ids(f.leases, true)) == Sort(Ids(g.leases, true))
    ensures Lines(f) == Lines(g)
  {
    hide Ids, Sort, Join, PostMainName, CloseoutName, OrUnknown;
    assert f.task == g.(leases := []).task && f.candidate == g.(leases := []).candidate && f.branch == g.(leases := []).branch;
    assert f.head == g.(leases := []).head && f.merge == g.(leases := []).merge && f.postMain == g.(leases := []).postMain;
    assert f.closeout == g.(leases := []).closeout && f.writer == g.(leases := []).writer;
    assert f.ownershipKnown == g.(leases := []).ownershipKnown;
  }

  /** A text that breaks its line can say what another fact says: a writer session with a line feed reads as
      a released lease. */
  lemma LineBreakMisleads(f: Facts, id: string)
    requires f.leases == [] && id != ""
    ensures var g := f.(writer := f.writer + "\nreleased-leases: " + id);
            var h := f.(leases := [LeaseFact(id, Released, true)]);
            Block(g) == Block(h) && !ShownAlike(g, h)
  {
    hide PostMainName, CloseoutName, OrUnknown;
    var g := f.(writer := f.writer + "\nreleased-leases: " + id);
    var h := f.(leases := [LeaseFact(id, Released, true)]);
    OneId(id);
    assert Ids([], false) == [] && Ids([], true) == [];
    var front := Lines(g)[..9];
    assert Lines(g) == front + ["writer-session: " + (f.writer + "\nreleased-leases: " + id)];
    assert Join([id], ",") == id;
    assert Lines(h) == front + ["writer-session: " + f.writer, "released-leases: " + id];
    LastSplit(front, "writer-session: " + f.writer, "released-leases: " + id);
    assert "writer-session: " + (f.writer + "\nreleased-leases: " + id)
        == ("writer-session: " + f.writer) + ("\n" + ("released-leases: " + id));
    assert |g.writer| != |h.writer|;
  }

  lemma OneId(id: string)
    ensures Ids([LeaseFact(id, Released, true)], true) == [id] && Ids([LeaseFact(id, Released, true)], false) == []
    ensures Sort([id]) == [id] && Sort([]) == []
  {
    var l := LeaseFact(id, Released, true);
    assert [l][1..] == [] && [id][1..] == [];
    assert multiset(Sort([id])) == multiset{id};
    assert |Sort([id])| == |multiset(Sort([id]))| == 1;
    assert Sort([id])[0] in multiset(Sort([id]));
  }

  lemma {:induction false} LastSplit(front: seq<string>, a: string, b: string)
    ensures Join(front + [a, b], "\n") == Join(front + [a + ("\n" + b)], "\n")
  {
    if front == [] {
      assert [a, b][1..] == [b] && [] + [a, b] == [a, b] && [] + [a + ("\n" + b)] == [a + ("\n" + b)];
    } else {
      assert (front + [a, b])[1..] == front[1..] + [a, b];
      assert (front + [a + ("\n" + b)])[1..] == front[1..] + [a + ("\n" + b)];
      LastSplit(front[1..], a, b);
    }
  }
}
