/** What recovery must answer: every legacy alias and every directory name of the grammar is recognized, and
    evidence that does not single out one run is refused for the reason it fails. */
module RunAnswers {
  import opened Chars
  import opened RunIdentity
  import opened AttemptDirs
  import opened RunRecovery
  import Decimal

  // ---------------------------------------------------------------- directory names

  predicate ValidName(attempt: nat, suffix: Option<string>) {
    1 <= attempt <= MAX_COUNTER && (suffix.Some? ==> IsHex(suffix.value) && 8 <= |suffix.value| <= 64)
  }

  /** Every name of the grammar parses to its attempt and suffix, plain and non-canonical ones included. */
  lemma NameParses(attempt: nat, suffix: Option<string>)
    requires ValidName(attempt, suffix)
    ensures ParseDir(DirText(attempt, suffix))
         == Some(DirName(attempt, suffix, suffix.Some? && (|suffix.value| == 8 || |suffix.value| == 12)))
  {
    var p, rest := Pad(attempt), if suffix.Some? then "-" + suffix.value else "";
    OrdinalOfPad(attempt);
    DigitsStop(p, rest);
    hide Pad, Ordinal, Digits;
    var s := p + rest;
    assert DirText(attempt, suffix) == PREFIX + s;
    assert (PREFIX + s)[|PREFIX|..] == s && PREFIX <= PREFIX + s;
    assert s[..|p|] == p;
    if suffix.Some? {
      assert s[|p|] == '-' && s[|p| + 1..] == suffix.value;
    } else {
      assert s == p;
    }
  }

  // ---------------------------------------------------------------- legacy aliases

  datatype Alias = Alias(task: string, role: string, middle: Option<string>, attempt: nat, random: string)

  predicate ValidAlias(a: Alias) {
    && IsTask(a.task) && IsRole(a.role) && (a.middle.Some? ==> MiddleOk(a.middle.value))
    && 1 <= a.attempt <= MAX_COUNTER && IsHex(a.random) && 7 <= |a.random| <= 12
  }

  function Body(a: Alias): string {
    var front := Glue(a.task, a.role);
    Glue(Glue(if a.middle.Some? then Glue(front, a.middle.value) else front, "a" + Decimal.Print(a.attempt)), a.random)
  }

  function Text(a: Alias): string {
    "run:" + Body(a)
  }

  lemma SplitGlue(a: string, t: string)
    requires NoColon(t)
    ensures Split(Glue(a, t)) == Split(a) + [t]
  {
    var s := Glue(a, t);
    LastColonOf(a, t);
    assert s[..|a|] == a && s[|a| + 1..] == t;
  }

  lemma SplitPlain(t: string)
    requires NoColon(t)
    ensures Split(t) == [t]
  {
  }

  lemma AliasPlain(a: Alias)
    requires ValidAlias(a)
    ensures NoColon(a.task) && NoColon(a.role) && (a.middle.Some? ==> NoColon(a.middle.value))
    ensures NoColon("a" + Decimal.Print(a.attempt)) && NoColon(a.random)
    ensures Visible(a.task) && Visible(a.role) && (a.middle.Some? ==> Visible(a.middle.value))
    ensures Visible("a" + Decimal.Print(a.attempt)) && Visible(a.random)
    ensures |a.task| <= 128 && |a.role| <= 64 && (a.middle.Some? ==> |a.middle.value| <= 64) && |a.random| <= 12
    ensures |"a" + Decimal.Print(a.attempt)| <= 7
  {
    CounterOfPrint(a.attempt);
    CounterLength(a.attempt);
  }

  lemma BodySplits(a: Alias)
    requires ValidAlias(a)
    ensures var n := "a" + Decimal.Print(a.attempt);
            Split(Body(a)) == if a.middle.Some? then [a.task, a.role, a.middle.value, n, a.random] else [a.task, a.role, n, a.random]
  {
    AliasPlain(a);
    hide Split, NoColon, Glue, ValidAlias, IsTask, IsRole, IsHex, MiddleOk, Visible;
    var n := "a" + Decimal.Print(a.attempt);
    var front := Glue(a.task, a.role);
    SplitPlain(a.task);
    SplitGlue(a.task, a.role);
    assert Split(front) == [a.task, a.role];
    if a.middle.Some? {
      SplitThree(front, a.middle.value, n, a.random);
    } else {
      SplitGlue(front, n);
      SplitGlue(Glue(front, n), a.random);
    }
  }

  lemma SplitThree(front: string, m: string, n: string, x: string)
    requires NoColon(m) && NoColon(n) && NoColon(x)
    ensures Split(Glue(Glue(Glue(front, m), n), x)) == Split(front) + [m, n, x]
  {
    hide Split, NoColon, Glue;
    SplitGlue(front, m);
    SplitGlue(Glue(front, m), n);
    SplitGlue(Glue(Glue(front, m), n), x);
  }

  lemma TextVisible(a: Alias)
    requires ValidAlias(a)
    ensures Visible(Text(a)) && 4 < |Text(a)| <= 512 && "run:" <= Text(a) && Text(a)[4..] == Body(a)
  {
    AliasPlain(a);
    hide Glue, ValidAlias;
    var n := "a" + Decimal.Print(a.attempt);
    var front := Glue(a.task, a.role);
    GlueVisible(a.task, a.role);
    if a.middle.Some? {
      GlueVisible(front, a.middle.value);
      GlueVisible(Glue(front, a.middle.value), n);
      GlueVisible(Glue(Glue(front, a.middle.value), n), a.random);
    } else {
      GlueVisible(front, n);
      GlueVisible(Glue(front, n), a.random);
    }
  }

  lemma VisibleEnds(s: string)
    requires Visible(s) && s != ""
    ensures !IsSpace(s[0]) && !IsSpace(s[|s| - 1])
    ensures forall i :: 0 <= i < |s| ==> s[i] != '\0' && s[i] != '\r' && s[i] != '\n'
  {
    assert Printable(s[0]) && Printable(s[|s| - 1]);
  }

  /** What is left once the text as a whole is acceptable: the parts decide. */
  lemma PartsDecide(text: string)
    requires Visible(text) && 4 < |text| <= 512 && "run:" <= text
    ensures var parts := Split(text[4..]);
            var n := |parts|;
            ParseLegacy(text)
            == if (n == 4 || (n == 5 && MiddleOk(parts[2]))) && IsTask(parts[0]) && IsRole(parts[1]) && "a" <= parts[n - 2]
                  && Counter(parts[n - 2][1..]).Some? && IsHex(parts[n - 1]) && 7 <= |parts[n - 1]| <= 12
               then Some(Legacy(text, Counter(parts[n - 2][1..]).value, parts[n - 1]))
               else None
  {
    VisibleEnds(text);
    hide Split, Counter, IsTask, IsRole, IsHex, MiddleOk, Visible, IsSpace;
  }

  /** Every alias of the grammar is read, verbatim, with the attempt and suffix it ends with. */
  lemma AliasParses(a: Alias)
    requires ValidAlias(a)
    ensures ParseLegacy(Text(a)) == Some(Legacy(Text(a), a.attempt, a.random))
  {
    TextVisible(a);
    PartsDecide(Text(a));
    BodySplits(a);
    CounterOfPrint(a.attempt);
    hide Split, Body, Counter, IsTask, IsRole, IsHex, MiddleOk, Visible, Text, ParseLegacy, NoColon;
    var n := "a" + Decimal.Print(a.attempt);
    assert n[1..] == Decimal.Print(a.attempt) && "a" <= n;
    var parts := Split(Text(a)[4..]);
    if a.middle.Some? {
      assert parts == [a.task, a.role, a.middle.value, n, a.random];
      assert |parts| == 5 && parts[2] == a.middle.value && parts[3] == n && parts[4] == a.random;
    } else {
      assert parts == [a.task, a.role, n, a.random];
      assert |parts| == 4 && parts[2] == n && parts[3] == a.random;
    }
  }

  lemma {:induction false} GlueOfSplit(s: string)
    ensures s == Join(Split(s))
  {
    var n := LastColon(s);
    if n < |s| {
      GlueOfSplit(s[..n]);
      var parts := Split(s);
      assert parts[..|parts| - 1] == Split(s[..n]);
      assert s == Glue(s[..n], s[n + 1..]);
    }
  }

  lemma JoinFour(p: seq<string>)
    requires |p| == 4
    ensures Join(p) == Glue(Glue(Glue(p[0], p[1]), p[2]), p[3])
  {
    hide Glue;
    assert p[..3][..2] == p[..2] && p[..2][..1] == p[..1];
    assert Join(p[..1]) == p[0];
    assert Join(p[..2]) == Glue(p[0], p[1]);
    assert Join(p[..3]) == Glue(Glue(p[0], p[1]), p[2]);
  }

  /** And nothing else is. */
  lemma ParsedAlias(text: string) returns (a: Alias)
    requires ParseLegacy(text).Some?
    ensures ValidAlias(a) && Text(a) == text && ParseLegacy(text) == Some(Legacy(text, a.attempt, a.random))
  {
    hide Counter, IsTask, IsRole, IsHex, MiddleOk, IsSpace, Split, Join, Glue;
    var parts := Split(text[4..]);
    var n := |parts|;
    a := Alias(parts[0], parts[1], if n == 5 then Some(parts[2]) else None, Counter(parts[n - 2][1..]).value, parts[n - 1]);
    PrintOfCounter(parts[n - 2][1..]);
    assert parts[n - 2] == "a" + parts[n - 2][1..];
    GlueOfSplit(text[4..]);
    if n == 5 {
      JoinFive(parts);
    } else {
      JoinFour(parts);
    }
    assert text == "run:" + text[4..];
  }

  // ---------------------------------------------------------------- recovery

  /** A legacy alias that is no canonical id is recovered from every directory of its attempt that is plain or
      carries its suffix, and from no other. */
  lemma LegacyRecovers(a: Alias, attempt: nat, suffix: Option<string>, md: Markdown, exec: Execution)
    requires ValidAlias(a) && Parse(Text(a)).None? && ValidName(attempt, suffix)
    requires Values(md, exec).Ok? && Values(md, exec).value != []
    requires forall v :: v in Values(md, exec).value ==> v == Text(a)
    ensures Recover(DirText(attempt, suffix), md, exec)
         == if attempt == a.attempt && (suffix.None? || suffix.value == a.random) then Ok(Legacy(Text(a), a.attempt, a.random))
            else Err(RunMismatch)
  {
    hide ParseDir, Parse, Values, ParseLegacy, Text, DirText;
    NameParses(attempt, suffix);
    AliasParses(a);
    var values := Values(md, exec).value;
    assert forall i :: 0 <= i < |values| ==> values[i] in values;
  }

  /** A canonical run is recovered from every directory of its attempt but those of another canonical suffix. */
  lemma CanonicalRecovers(id: Identity, attempt: nat, suffix: Option<string>, md: Markdown, exec: Execution)
    requires Valid(id) && WrittenFor(id, md, exec) && ValidName(attempt, suffix)
    ensures Recover(DirText(attempt, suffix), md, exec)
         == if attempt == id.attempt && (suffix.None? || suffix.value == id.random || |suffix.value| !in {8, 12}) then Ok(Canonical(id))
            else Err(RunMismatch)
  {
    hide ParseDir, Parse, Values, Print, DirText;
    NameParses(attempt, suffix);
    ParseOfPrint(id);
  }

  /** What each refusal says of the evidence. */
  ghost predicate Says(md: Markdown, exec: Execution, e: Error) {
    match e
    case PointerReadFailed => md.BadMarkdown? || exec.BadExecution? || (md.NoMarkdown? && exec.NoExecution?)
    case RunIdMissing => exec.NotText? || (!exec.RunId? && (md.Lines? ==> forall l :: l in md.lines ==> PointerValue(l).None?))
    case RunIdAmbiguous => exists v, w :: v in Carried(md, exec) && w in Carried(md, exec) && v != w
    case RunIdInvalid =>
      exists v :: v in Carried(md, exec) && Parse(v).None? && ParseLegacy(v).None?
    case _ => false
  }

  /** The run ids that the evidence carries. */
  function Carried(md: Markdown, exec: Execution): set<string> {
    (if md.Lines? then set l | l in md.lines && PointerValue(l).Some? :: PointerValue(l).value else {})
    + if exec.RunId? then {exec.text} else {}
  }

  lemma {:induction false} LinesCarried(lines: seq<string>)
    ensures forall v :: v in LineValues(lines) <==> exists l :: l in lines && PointerValue(l) == Some(v)
  {
    hide PointerValue;
    if lines != [] {
      var n := |lines| - 1;
      LinesCarried(lines[..n]);
      assert lines == lines[..n] + [lines[n]];
    }
  }

  lemma ValuesCarried(md: Markdown, exec: Execution)
    requires Values(md, exec).Ok?
    ensures forall v :: v in Values(md, exec).value <==> v in Carried(md, exec)
  {
    hide PointerValue, LineValues;
    if md.Lines? {
      LinesCarried(md.lines);
    }
  }

  lemma {:induction false} NoLines(lines: seq<string>)
    requires LineValues(lines) == []
    ensures forall l :: l in lines ==> PointerValue(l).None?
  {
    hide PointerValue;
    if lines != [] {
      var n := |lines| - 1;
      NoLines(lines[..n]);
      assert lines == lines[..n] + [lines[n]];
    }
  }

  lemma NothingCarried(md: Markdown, exec: Execution)
    requires Values(md, exec) == Ok([])
    ensures !exec.RunId? && (md.Lines? ==> forall l :: l in md.lines ==> PointerValue(l).None?)
  {
    hide PointerValue, LineValues;
    if md.Lines? {
      NoLines(md.lines);
    }
  }

  /** Pointer evidence is read when it is readable and carries exactly one run id of the grammar; otherwise it
      is refused for what is true of it. */
  lemma PointerAnswers(md: Markdown, exec: Execution)
    ensures ReadPointer(md, exec).Err? ==> Says(md, exec, ReadPointer(md, exec).error)
    ensures ReadPointer(md, exec).Ok? <==>
              && !md.BadMarkdown? && !exec.BadExecution? && !exec.NotText?
              && exists v :: Carried(md, exec) == {v} && (Parse(v).Some? || ParseLegacy(v).Some?)
  {
    hide Parse, ParseLegacy, PointerValue, LineValues, Carried;
    if Values(md, exec).Ok? {
      var values := Values(md, exec).value;
      ValuesCarried(md, exec);
      if values == [] {
        NothingCarried(md, exec);
      } else {
        assert values[0] in values;
        if exists i :: 0 <= i < |values| && values[i] != values[0] {
          var i :| 0 <= i < |values| && values[i] != values[0];
          assert values[i] in values;
        } else {
          assert Carried(md, exec) == {values[0]};
        }
      }
    } else {
      NoneCarried(md, exec);
    }
  }

  lemma NoneCarried(md: Markdown, exec: Execution)
    ensures md.NoMarkdown? && exec.NoExecution? ==> Carried(md, exec) == {}
  {
  }
}
