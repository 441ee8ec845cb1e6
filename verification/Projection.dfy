/** The continuity projections: a machine-owned block between two sentinels, inside human text that is
    never touched. */
module Projection {
  import opened Sentinels
  import opened StringOrder

  datatype LeaseFact = LeaseFact(id: string, state: LeaseState, ownerOk: bool)

  datatype LeaseState = Active | Released | Quarantined | Stale | Unknown

  datatype PostMain = NotRequired | Pending | Success | Failed | PostMainUnknown

  datatype Closeout = FoldPending | FoldRequired | Complete | RecoveryRequired | Blocked

  datatype Facts = Facts(
    task: string,
    candidate: string,
    branch: string,
    head: Option<string>,
    merge: Option<string>,
    postMain: PostMain,
    closeout: Closeout,
    leases: seq<LeaseFact>,
    ownershipKnown: bool,
    writer: string)

  datatype Target = CurrentWork | Handoff | Collab

  datatype Refusal = SentinelInvalid | AnchorInvalid | TitleInvalid | RowInvalid

  datatype Rendered = Doc(text: string) | Refused(why: Refusal)

  // ---------------------------------------------------------------- the block

  function PostMainName(p: PostMain): string {
    match p
    case NotRequired => "NOT_REQUIRED"
    case Pending => "PENDING"
    case Success => "SUCCESS"
    case Failed => "FAILED"
    case PostMainUnknown => "UNKNOWN"
  }

  function CloseoutName(c: Closeout): string {
    match c
    case FoldPending => "FOLD_PENDING"
    case FoldRequired => "FOLD_REQUIRED"
    case Complete => "COMPLETE"
    case RecoveryRequired => "RECOVERY_REQUIRED"
    case Blocked => "BLOCKED"
  }

  function Join(parts: seq<string>, sep: string): string {
    if parts == [] then "" else if |parts| == 1 then parts[0] else parts[0] + (sep + Join(parts[1..], sep))
  }

  /** Ids of the leases with a property, in listing order. */
  function Ids(leases: seq<LeaseFact>, released: bool): seq<string> {
    if leases == [] then []
    else
      var l := leases[0];
      var chosen := if released then l.state.Released? else l.state.Active? && l.ownerOk;
      (if chosen then [l.id] else []) + Ids(leases[1..], released)
  }

  function OrUnknown(o: Option<string>): string {
    if o.Some? && o.value != "" then o.value else "UNKNOWN"
  }

  function Lines(f: Facts): seq<string> {
    var active, released := Sort(Ids(f.leases, false)), Sort(Ids(f.leases, true));
    [ "task: " + f.task,
      "candidate: " + OrUnknown(Some(f.candidate)),
      "branch: " + f.branch,
      "head: " + OrUnknown(f.head),
      "merge-commit: " + OrUnknown(f.merge),
      "post-main: " + PostMainName(f.postMain),
      "closeout: " + CloseoutName(f.closeout),
      "active-leases: " + (if active == [] then "NONE" else Join(active, ",")),
      "ownership: " + (if f.ownershipKnown then "KNOWN" else "UNKNOWN"),
      "writer-session: " + f.writer ]
    + (if released == [] then [] else ["released-leases: " + Join(released, ",")])
  }

  function Block(f: Facts): string {
    Join(Lines(f), "\n")
  }

  /** Taking one lease out takes out its id, when it had one. */
  lemma IdsWithout(b: seq<LeaseFact>, k: nat, released: bool)
    requires k < |b|
    ensures multiset(Ids(b, released)) == multiset(Ids([b[k]], released)) + multiset(Ids(b[..k] + b[k + 1..], released))
    ensures multiset(b) == multiset{b[k]} + multiset(b[..k] + b[k + 1..])
  {
    hide Ids;
    assert b == b[..k] + ([b[k]] + b[k + 1..]);
    IdsAppend(b[..k], [b[k]] + b[k + 1..], released);
    IdsAppend([b[k]], b[k + 1..], released);
    IdsAppend(b[..k], b[k + 1..], released);
  }

  lemma {:induction false} IdsOfMultiset(a: seq<LeaseFact>, b: seq<LeaseFact>, released: bool)
    requires multiset(a) == multiset(b)
    ensures multiset(Ids(a, released)) == multiset(Ids(b, released))
    decreases |a|
  {
    hide Ids;
    if a == [] {
      assert |multiset(b)| == |b| == 0;
    } else {
      assert a[0] in multiset(b);
      var k :| 0 <= k < |b| && b[k] == a[0];
      IdsWithout(a, 0, released);
      IdsWithout(b, k, released);
      assert a[..0] + a[1..] == a[1..];
      assert multiset(a[1..]) == multiset(a) - multiset{a[0]};
      assert multiset(b[..k] + b[k + 1..]) == multiset(b) - multiset{b[k]};
      IdsOfMultiset(a[1..], b[..k] + b[k + 1..], released);
    }
  }

  lemma {:induction false} IdsAppend(a: seq<LeaseFact>, b: seq<LeaseFact>, released: bool)
    ensures Ids(a + b, released) == Ids(a, released) + Ids(b, released)
  {
    if a == [] {
      assert a + b == b;
    } else {
      assert (a + b)[1..] == a[1..] + b;
      IdsAppend(a[1..], b, released);
    }
  }

  /** The same facts make the same bytes, in whatever order the leases are listed. */
  lemma BlockIgnoresLeaseOrder(f: Facts, g: Facts)
    requires f == g.(leases := f.leases) && multiset(f.leases) == multiset(g.leases)
    ensures Block(f) == Block(g)
  {
    hide Ids, Sort, Join;
    IdsOfMultiset(f.leases, g.leases, false);
    IdsOfMultiset(f.leases, g.leases, true);
    SortIsCanonical(Ids(f.leases, false), Ids(g.leases, false));
    SortIsCanonical(Ids(f.leases, true), Ids(g.leases, true));
  }

  // ---------------------------------------------------------------- where the block goes

  const ANCHOR := "<!-- HISTORICAL EVIDENCE"
  const HEADING := "## In-progress claims"
  const ROW := "| `WO-P1-166`"
  const H2 := "## "

  predicate LineStart(text: string, i: nat) {
    i == 0 || (i <= |text| && text[i - 1] == '\n')
  }

  predicate LineEnd(text: string, i: nat) {
    i == |text| || (i < |text| && text[i] == '\n')
  }

  /** End of the line that position `i` is on. */
  function EndOfLine(text: string, i: nat): (e: nat)
    requires i <= |text|
    ensures i <= e <= |text| && LineEnd(text, e)
    decreases |text| - i
  {
    if LineEnd(text, i) then i else EndOfLine(text, i + 1)
  }

  /** Starts of the lines, at or after a position, that begin with `prefix`. */
  function LinesWith(text: string, prefix: string, from: nat): (r: seq<nat>)
    ensures forall k :: 0 <= k < |r| ==> from <= r[k] && At(text, prefix, r[k]) && LineStart(text, r[k])
    decreases |text| - from
  {
    if from > |text| then []
    else
      (if LineStart(text, from) && At(text, prefix, from) then [from] else [])
      + (if from == |text| then [] else LinesWith(text, prefix, from + 1))
  }

  /** Where the heading that starts at `i` ends, when nothing but a carriage return follows it. */
  function HeadingEnd(text: string, i: nat): Option<nat> {
    var e := i + |HEADING|;
    if LineEnd(text, e) then Some(e)
    else if e < |text| && text[e] == '\r' && LineEnd(text, e + 1) then Some(e + 1)
    else None
  }

  function Headings(text: string, starts: seq<nat>): seq<nat> {
    if starts == [] then []
    else (if HeadingEnd(text, starts[0]).Some? then [starts[0]] else []) + Headings(text, starts[1..])
  }

  /** The text kept before and after the block. */
  datatype Frame = Frame(before: string, after: string) | NoFrame(why: Refusal)

  /** First adoption of a work or handoff document: the title line and everything from the one
      historical anchor on are kept. */
  function FrontMatterFrame(prior: string): Frame {
    var anchors := LinesWith(prior, ANCHOR, 0);
    if |anchors| != 1 then NoFrame(AnchorInvalid)
    else if !("# " <= prior) || '\n' !in prior then NoFrame(TitleInvalid)
    else Frame(prior[..EndOfLine(prior, 0)] + "\n", "\n\n" + prior[anchors[0]..])
  }

  /** First adoption of the claims document: only the one work-order row of the claims section goes. */
  function RowFrame(prior: string): Frame {
    var headings := Headings(prior, LinesWith(prior, HEADING, 0));
    if |headings| != 1 || HeadingEnd(prior, headings[0]).None? then NoFrame(AnchorInvalid)
    else
      var rows := LinesWith(prior, ROW, 0);
      if |rows| != 1 || rows[0] < headings[0] then NoFrame(RowInvalid)
      else
        var sections := LinesWith(prior, H2, HeadingEnd(prior, headings[0]).value);
        if sections != [] && rows[0] >= sections[0] then NoFrame(RowInvalid)
        else Frame(prior[..rows[0]], prior[EndOfLine(prior, rows[0])..])
  }

  function Title(target: Target): string {
    match target
    case CurrentWork => "CURRENT-WORK"
    case Handoff => "HANDOFF"
    case Collab => "COLLAB"
  }

  function Adopt(target: Target, prior: string, machine: string): Rendered {
    var frame := if target.Collab? then RowFrame(prior) else FrontMatterFrame(prior);
    match frame
    case NoFrame(why) => Refused(why)
    case Frame(before, after) => Doc(before + machine + after)
  }

  /** The document for one target, given what is there now. */
  function Render(target: Target, f: Facts, prior: Option<string>): Rendered {
    var machine := Machine(Block(f));
    match prior
    case None => Doc("# " + Title(target) + "\n\n" + machine + "\n")
    case Some(text) =>
      var begins, ends := Count(text, BEGIN, 0), Count(text, END, 0);
      if begins == 0 && ends == 0 then Adopt(target, text, machine)
      else if begins != 1 || ends != 1 || Pairs(text, 0) != 1 then Refused(SentinelInvalid)
      else Doc(Replace(text, machine))
  }

  // ---------------------------------------------------------------- sentinel-free facts

  predicate NoAngle(s: string) {
    forall i :: 0 <= i < |s| ==> s[i] != '<'
  }

  /** No free-text field carries a sentinel; commit ids are hexadecimal, so hold no '<'. */
  ghost predicate SentinelFree(f: Facts) {
    && Clean(f.task) && Clean(f.branch) && Clean(f.writer)
    && NoAngle(f.candidate) && (f.head.Some? ==> NoAngle(f.head.value)) && (f.merge.Some? ==> NoAngle(f.merge.value))
    && forall i :: 0 <= i < |f.leases| ==> Clean(f.leases[i].id)
  }

  lemma PlainClean(s: string)
    requires NoAngle(s)
    ensures Clean(s)
  {
    SentinelsAreMarkers();
    PlainFree(s, BEGIN);
    PlainFree(s, END);
  }

  lemma PrefixClean(a: string, b: string)
    requires NoAngle(a) && Clean(b)
    ensures Clean(a + b)
  {
    SentinelsAreMarkers();
    PrefixFree(a, b, BEGIN);
    PrefixFree(a, b, END);
  }

  lemma JoinClean(a: string, b: string)
    requires Clean(a) && Clean(b) && (b == "" || Stops(b[0]))
    ensures Clean(a + b)
  {
    SentinelsAreMarkers();
    JoinFree(a, b, BEGIN);
    JoinFree(a, b, END);
  }

  lemma {:induction false} JoinedClean(parts: seq<string>, sep: string)
    requires sep == "\n" || sep == ","
    requires forall i :: 0 <= i < |parts| ==> Clean(parts[i])
    ensures Clean(Join(parts, sep))
  {
    hide Free;
    if parts == [] {
      PlainClean("");
    } else if |parts| > 1 {
      JoinedClean(parts[1..], sep);
      PrefixClean(sep, Join(parts[1..], sep));
      JoinClean(parts[0], sep + Join(parts[1..], sep));
    }
  }

  lemma {:induction false} IdsClean(leases: seq<LeaseFact>, released: bool)
    requires forall i :: 0 <= i < |leases| ==> Clean(leases[i].id)
    ensures forall id :: id in Ids(leases, released) ==> Clean(id)
  {
    hide Clean;
    if leases != [] {
      assert forall i :: 0 <= i < |leases[1..]| ==> leases[1..][i] == leases[i + 1];
      IdsClean(leases[1..], released);
    }
  }

  lemma SortedClean(leases: seq<LeaseFact>, released: bool)
    requires forall i :: 0 <= i < |leases| ==> Clean(leases[i].id)
    ensures Clean(Join(Sort(Ids(leases, released)), ","))
  {
    hide Clean, Sort, Ids, Join;
    IdsClean(leases, released);
    var ids := Sort(Ids(leases, released));
    forall i | 0 <= i < |ids| ensures Clean(ids[i]) {
      assert ids[i] in multiset(ids);
      assert ids[i] in multiset(Ids(leases, released));
    }
    JoinedClean(ids, ",");
  }

  lemma PostMainPlain(p: PostMain)
    ensures NoAngle(PostMainName(p))
  {
  }

  lemma CloseoutPlain(c: Closeout)
    ensures NoAngle(CloseoutName(c))
  {
  }

  lemma NamesClean(f: Facts)
    ensures Clean("post-main: " + PostMainName(f.postMain)) && Clean("closeout: " + CloseoutName(f.closeout))
    ensures Clean("ownership: " + (if f.ownershipKnown then "KNOWN" else "UNKNOWN"))
  {
    hide Clean, PostMainName, CloseoutName;
    PostMainPlain(f.postMain);
    CloseoutPlain(f.closeout);
    PlainClean("post-main: " + PostMainName(f.postMain));
    PlainClean("closeout: " + CloseoutName(f.closeout));
    PlainClean("ownership: " + (if f.ownershipKnown then "KNOWN" else "UNKNOWN"));
  }

  lemma CommitClean(prefix: string, o: Option<string>)
    requires NoAngle(prefix) && (o.Some? ==> NoAngle(o.value))
    ensures Clean(prefix + OrUnknown(o))
  {
    hide Clean;
    PlainClean(prefix + OrUnknown(o));
  }

  /** Sentinel-free facts make a sentinel-free block. */
  lemma BlockClean(f: Facts)
    requires SentinelFree(f)
    ensures Clean("\n" + Block(f) + "\n")
  {
    hide Clean, Sort, Ids, Join, PostMainName, CloseoutName, OrUnknown;
    NamesClean(f);
    CommitClean("candidate: ", Some(f.candidate));
    CommitClean("head: ", f.head);
    CommitClean("merge-commit: ", f.merge);
    PrefixClean("task: ", f.task);
    PrefixClean("branch: ", f.branch);
    PrefixClean("writer-session: ", f.writer);
    SortedClean(f.leases, false);
    SortedClean(f.leases, true);
    PlainClean("active-leases: NONE");
    assert "active-leases: " + "NONE" == "active-leases: NONE";
    PrefixClean("active-leases: ", Join(Sort(Ids(f.leases, false)), ","));
    PrefixClean("released-leases: ", Join(Sort(Ids(f.leases, true)), ","));
    JoinedClean(Lines(f), "\n");
    PrefixClean("\n", Block(f));
    PlainClean("\n");
    JoinClean("\n" + Block(f), "\n");
  }

  // ---------------------------------------------------------------- the frame of a document

  /** What is kept around the block: a function of the target and of what is there, not of the facts. */
  function FrameOf(target: Target, prior: Option<string>): Frame {
    match prior
    case None => Frame("# " + Title(target) + "\n\n", "\n")
    case Some(text) =>
      if Count(text, BEGIN, 0) == 0 && Count(text, END, 0) == 0 then
        if target.Collab? then RowFrame(text) else FrontMatterFrame(text)
      else if !Accepted(text) then NoFrame(SentinelInvalid)
      else
        var b := First(text, BEGIN, 0);
        if b.None? then NoFrame(SentinelInvalid)
        else
          var e := First(text, END, b.value + |BEGIN|);
          if e.None? then NoFrame(SentinelInvalid) else Frame(text[..b.value], text[e.value + |END|..])
  }

  lemma RenderIsFramed(target: Target, f: Facts, prior: Option<string>)
    ensures Render(target, f, prior) ==
              match FrameOf(target, prior)
              case NoFrame(why) => Refused(why)
              case Frame(before, after) => Doc(before + Machine(Block(f)) + after)
  {
    hide Block, Machine, RowFrame, FrontMatterFrame, Title, First, Count, Pairs, Marked, Replace;
    if prior.Some? && Accepted(prior.value) {
      AcceptedIsMarked(prior.value);
      var b: nat, e: nat :| Marked(prior.value, b, e);
      MarkedReplaced(prior.value, b, e, Machine(Block(f)));
    }
  }

  lemma MarkedReplaced(text: string, b: nat, e: nat, machine: string)
    requires Marked(text, b, e)
    ensures First(text, BEGIN, 0) == Some(b) && First(text, END, b + |BEGIN|) == Some(e)
    ensures e + |END| <= |text| && Replace(text, machine) == text[..b] + machine + text[e + |END|..]
  {
    MarkedPairs(text, b, e);
    MarkedFirst(text, b, e);
  }

  lemma CleanSlice(text: string, lo: nat, hi: nat)
    requires Clean(text) && lo <= hi <= |text|
    ensures Clean(text[lo..hi])
  {
    SliceFree(text, BEGIN, lo, hi);
    SliceFree(text, END, lo, hi);
  }

  /** What is kept holds no sentinel. */
  lemma FrameClean(target: Target, prior: Option<string>)
    requires FrameOf(target, prior).Frame?
    ensures Clean(FrameOf(target, prior).before) && Clean(FrameOf(target, prior).after)
  {
    hide Clean, FrameOf, Accepted, Title;
    match prior {
      case None => FreshClean(target);
      case Some(text) =>
        if Count(text, BEGIN, 0) == 0 && Count(text, END, 0) == 0 {
          AdoptedClean(target, text);
        } else {
          MarkedClean(target, text);
        }
    }
  }

  lemma FreshClean(target: Target)
    ensures FrameOf(target, None) == Frame("# " + Title(target) + "\n\n", "\n")
    ensures Clean("# " + Title(target) + "\n\n") && Clean("\n")
  {
    hide Clean;
    PlainClean("# " + Title(target) + "\n\n");
    PlainClean("\n");
  }

  lemma MarkedClean(target: Target, text: string)
    requires Count(text, BEGIN, 0) != 0 || Count(text, END, 0) != 0
    requires FrameOf(target, Some(text)).Frame?
    ensures Clean(FrameOf(target, Some(text)).before) && Clean(FrameOf(target, Some(text)).after)
  {
    hide Clean, First, Count, Pairs, Marked;
    AcceptedIsMarked(text);
    var b: nat, e: nat :| Marked(text, b, e);
    Surroundings(text, b, e);
    MarkedReplaced(text, b, e, "");
  }

  lemma MarkedFirst(text: string, b: nat, e: nat)
    requires Marked(text, b, e)
    ensures First(text, BEGIN, 0) == Some(b) && First(text, END, b + |BEGIN|) == Some(e)
  {
  }

  lemma AdoptedClean(target: Target, text: string)
    requires Count(text, BEGIN, 0) == 0 && Count(text, END, 0) == 0
    requires FrameOf(target, Some(text)).Frame?
    ensures Clean(FrameOf(target, Some(text)).before) && Clean(FrameOf(target, Some(text)).after)
  {
    hide Free, LinesWith, Headings, HeadingEnd, EndOfLine;
    SentinelsAreMarkers();
    CountOne(text, BEGIN);
    CountOne(text, END);
    assert Clean(text);
    PlainClean("\n");
    if target.Collab? {
      var rows := LinesWith(text, ROW, 0);
      CleanSlice(text, 0, rows[0]);
      CleanSlice(text, EndOfLine(text, rows[0]), |text|);
      assert text[0..rows[0]] == text[..rows[0]];
      assert text[EndOfLine(text, rows[0])..|text|] == text[EndOfLine(text, rows[0])..];
    } else {
      var anchors := LinesWith(text, ANCHOR, 0);
      CleanSlice(text, 0, EndOfLine(text, 0));
      JoinClean(text[..EndOfLine(text, 0)], "\n");
      CleanSlice(text, anchors[0], |text|);
      assert text[0..EndOfLine(text, 0)] == text[..EndOfLine(text, 0)] && text[anchors[0]..|text|] == text[anchors[0]..];
      PrefixClean("\n\n", text[anchors[0]..]);
    }
  }

  // ---------------------------------------------------------------- the theorems

  /** The result has exactly one begin sentinel, one end sentinel and one pair. */
  lemma ExactlyOnePair(target: Target, f: Facts, prior: Option<string>)
    requires SentinelFree(f) && Render(target, f, prior).Doc?
    ensures Accepted(Render(target, f, prior).text)
  {
    hide Clean, Render, FrameOf, Machine, Block, Accepted, Replace;
    RenderIsFramed(target, f, prior);
    FrameClean(target, prior);
    BlockClean(f);
    var frame := FrameOf(target, prior);
    ReplaceLaidOut(frame.before, Block(f), frame.after, "");
  }

  /** Last writer wins without a trace: rendering new facts over a rendered document gives what rendering
      them in the first place would have given, for every prior text, adopted, marked or absent. */
  lemma LastWriterWins(target: Target, f: Facts, g: Facts, prior: Option<string>)
    requires SentinelFree(f) && Render(target, f, prior).Doc?
    ensures Render(target, g, Some(Render(target, f, prior).text)) == Render(target, g, prior)
  {
    hide Clean, FrameOf, Machine, Block, Replace, Adopt, Count, Pairs;
    RenderIsFramed(target, f, prior);
    RenderIsFramed(target, g, prior);
    FrameClean(target, prior);
    BlockClean(f);
    var frame := FrameOf(target, prior);
    ReplaceLaidOut(frame.before, Block(f), frame.after, Machine(Block(g)));
  }

  /** Rendering is idempotent: the same facts over their own document change nothing. */
  lemma RenderIdempotent(target: Target, f: Facts, prior: Option<string>)
    requires SentinelFree(f) && Render(target, f, prior).Doc?
    ensures Render(target, f, Some(Render(target, f, prior).text)) == Render(target, f, prior)
  {
    hide Render;
    LastWriterWins(target, f, f, prior);
  }

  /** On marked input every byte outside the sentinel pair is kept, in place. */
  lemma MarkedKeepsOutside(target: Target, f: Facts, text: string, b: nat, e: nat)
    requires Marked(text, b, e)
    ensures Render(target, f, Some(text)) == Doc(text[..b] + Machine(Block(f)) + text[e + |END|..])
  {
    hide Block, Machine, Adopt;
    AcceptedIsMarked(text);
    MarkedPairs(text, b, e);
  }

  /** A text with sentinels that are not one pair in order is refused, never overwritten. */
  lemma MalformedRefused(target: Target, f: Facts, text: string)
    requires !Clean(text) && !(exists b: nat, e: nat :: Marked(text, b, e))
    ensures Render(target, f, Some(text)) == Refused(SentinelInvalid)
  {
    hide Block, Machine, Adopt, Free, Pairs;
    SentinelsAreMarkers();
    AcceptedIsMarked(text);
    CountOne(text, BEGIN);
    CountOne(text, END);
  }

  /** Adoption keeps the title line and every byte from the anchor on (work and handoff documents), or
      every byte but one row (claims document). */
  lemma AdoptionKeeps(target: Target, f: Facts, text: string)
    requires Clean(text) && Render(target, f, Some(text)).Doc?
    ensures var doc := Render(target, f, Some(text)).text;
            if target.Collab? then
              exists r: nat, e: nat ::
                && At(text, ROW, r) && LineStart(text, r) && r <= e <= |text| && LineEnd(text, e)
                && '\n' !in text[r..e]
                && doc == text[..r] + Machine(Block(f)) + text[e..]
            else
              exists t: nat, a: nat ::
                && t < |text| && text[t] == '\n' && '\n' !in text[..t] && At(text, ANCHOR, a) && LineStart(text, a) && a > t
                && doc == text[..t + 1] + Machine(Block(f)) + "\n\n" + text[a..]
  {
    hide Block, Machine, Free, LinesWith, Headings, HeadingEnd, Pairs, Replace;
    SentinelsAreMarkers();
    CountOne(text, BEGIN);
    CountOne(text, END);
    if target.Collab? {
      var r := LinesWith(text, ROW, 0)[0];
      var e := EndOfLine(text, r);
      OneLine(text, r);
      assert At(text, ROW, r) && LineStart(text, r);
    } else {
      var t, a := EndOfLine(text, 0), LinesWith(text, ANCHOR, 0)[0];
      OneLine(text, 0);
      assert text[0..t] == text[..t];
      TitleEnds(text, t, a);
      assert text[..t] + "\n" == text[..t + 1];
      assert text[..t + 1] + Machine(Block(f)) + ("\n\n" + text[a..]) == text[..t + 1] + Machine(Block(f)) + "\n\n" + text[a..];
    }
  }

  lemma {:induction false} OneLine(text: string, i: nat)
    requires i <= |text|
    ensures '\n' !in text[i..EndOfLine(text, i)]
    decreases |text| - i
  {
    if !LineEnd(text, i) {
      OneLine(text, i + 1);
      var e := EndOfLine(text, i);
      assert text[i..e] == [text[i]] + text[i + 1..e];
    }
  }

  /** The title is a whole first line, and the anchor stands on a later one. */
  lemma TitleEnds(text: string, t: nat, a: nat)
    requires "# " <= text && '\n' in text && t <= |text| && LineEnd(text, t) && '\n' !in text[..t]
    requires At(text, ANCHOR, a) && LineStart(text, a)
    ensures t < |text| && text[t] == '\n' && a > t
  {
    assert text == text[..t] + text[t..];
    assert text[a..a + |ANCHOR|][0] == text[a] == '<' && text[0] == '#';
    assert forall k :: 0 <= k < t ==> text[..t][k] == text[k];
  }

  /** Facts that carry a sentinel: the document is written once, and refused from then on. */
  lemma DirtyBlockRefused(target: Target, f: Facts, g: Facts, prior: Option<string>)
    requires Render(target, f, prior).Doc?
    ensures Render(target, g, Some(Render(target, f, prior).text)).Doc? <==> Clean("\n" + Block(f) + "\n")
  {
    hide FrameOf, Block, Adopt, Render;
    RenderIsFramed(target, f, prior);
    FrameClean(target, prior);
    var frame := FrameOf(target, prior);
    var text := frame.before + Machine(Block(f)) + frame.after;
    if Clean("\n" + Block(f) + "\n") {
      AgainAccepted(target, f, g, prior);
    } else {
      TwoSentinels(frame.before, Block(f), frame.after);
      MalformedRefused(target, g, text);
    }
  }

  lemma AgainAccepted(target: Target, f: Facts, g: Facts, prior: Option<string>)
    requires Render(target, f, prior).Doc? && Clean("\n" + Block(f) + "\n")
    ensures Render(target, g, Some(Render(target, f, prior).text)).Doc?
  {
    hide Clean, FrameOf, Machine, Block, Replace, Adopt, Count, Pairs;
    RenderIsFramed(target, f, prior);
    FrameClean(target, prior);
    var frame := FrameOf(target, prior);
    ReplaceLaidOut(frame.before, Block(f), frame.after, Machine(Block(g)));
  }

  lemma AtInside(pre: string, text: string, post: string, pat: string, i: nat)
    requires At(text, pat, i)
    ensures At(pre + text + post, pat, |pre| + i)
  {
    var all := pre + text + post;
    assert all[|pre| + i..|pre| + i + |pat|] == text[i..i + |pat|];
  }

  /** A sentinel in the block is a second one beside the machine's own. */
  lemma TwoBegins(pre: string, mid: string, tail: string)
    requires !Free(mid, BEGIN)
    ensures forall b: nat :: !One(pre + BEGIN + mid + tail, BEGIN, b)
  {
    var text := pre + BEGIN + mid + tail;
    var i: nat :| At(mid, BEGIN, i);
    AtInside(pre + BEGIN, mid, tail, BEGIN, i);
    assert At(BEGIN, BEGIN, 0);
    AtInside(pre, BEGIN, mid + tail, BEGIN, 0);
    assert pre + BEGIN + (mid + tail) == text;
    assert At(text, BEGIN, |pre| + 0) && At(text, BEGIN, |pre + BEGIN| + i);
  }

  lemma TwoEnds(pre: string, mid: string, post: string)
    requires !Free(mid, END)
    ensures forall e: nat :: !One(pre + mid + END + post, END, e)
  {
    var text := pre + mid + END + post;
    var i: nat :| At(mid, END, i);
    AtInside(pre, mid, END + post, END, i);
    assert pre + mid + (END + post) == text;
    assert At(END, END, 0);
    AtInside(pre + mid, END, post, END, 0);
    assert At(text, END, |pre| + i) && At(text, END, |pre + mid| + 0);
  }

  lemma OwnBegin(pre: string, tail: string)
    ensures !Clean(pre + BEGIN + tail)
  {
    assert At(BEGIN, BEGIN, 0);
    AtInside(pre, BEGIN, tail, BEGIN, 0);
    assert At(pre + BEGIN + tail, BEGIN, |pre| + 0);
  }

  lemma TwoSentinels(pre: string, block: string, post: string)
    requires !Clean("\n" + block + "\n")
    ensures var text := pre + Machine(block) + post;
            !Clean(text) && !(exists b: nat, e: nat :: Marked(text, b, e))
  {
    hide Free, One, Machine;
    var text, mid := pre + Machine(block) + post, "\n" + block + "\n";
    MachineParts(pre, block, post);
    var tail := END + post;
    assert text == pre + BEGIN + (mid + tail) == pre + BEGIN + mid + tail == (pre + BEGIN) + mid + END + post;
    OwnBegin(pre, mid + tail);
    if !Free(mid, BEGIN) {
      TwoBegins(pre, mid, tail);
    } else {
      TwoEnds(pre + BEGIN, mid, post);
    }
  }
}
