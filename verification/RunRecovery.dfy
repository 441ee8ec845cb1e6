/** From an attempt directory back to its run: pointer evidence, canonical ids first, legacy aliases only
    to recover what already exists. */
module RunRecovery {
  import opened Chars
  import opened RunIdentity
  import opened AttemptDirs
  import Decimal

  /** A recovery-only alias: the whole text, and the attempt and suffix it ends with. */
  datatype Recovered = Canonical(id: Identity) | Legacy(text: string, attempt: nat, random: string)

  datatype Error = RunIdInvalid | DirNameInvalid | PointerReadFailed | RunIdMissing | RunIdAmbiguous | RunMismatch

  datatype Result<+T> = Ok(value: T) | Err(error: Error)

  // ---------------------------------------------------------------- legacy aliases

  /** The ordinal position of an alias: a short numeric tag, kept as it stands, or a role-like token. */
  predicate MiddleOk(middle: string) {
    if middle != "" && Decimal.AllDigits(middle) then |middle| <= 8 && middle[0] != '0' else IsRole(middle)
  }

  function Split(s: string): (parts: seq<string>)
    ensures parts != []
  {
    var n := LastColon(s);
    if n == |s| then [s] else Split(s[..n]) + [s[n + 1..]]
  }

  function ParseLegacy(s: string): Option<Recovered> {
    if s == "" || |s| > 512 || IsSpace(s[0]) || IsSpace(s[|s| - 1]) || !("run:" <= s)
       || (exists i :: 0 <= i < |s| && (s[i] == '\0' || s[i] == '\r' || s[i] == '\n')) then None
    else
      var parts := Split(s[4..]);
      var n := |parts|;
      if n != 4 && n != 5 then None
      else if n == 5 && !MiddleOk(parts[2]) then None
      else if !IsTask(parts[0]) || !IsRole(parts[1]) || !("a" <= parts[n - 2]) || Counter(parts[n - 2][1..]).None?
              || !IsHex(parts[n - 1]) || !(7 <= |parts[n - 1]| <= 12) then None
      else Some(Legacy(s, Counter(parts[n - 2][1..]).value, parts[n - 1]))
  }

  // ---------------------------------------------------------------- pointer evidence

  predicate IsBlank(c: char) {
    c == ' ' || c == '\t'
  }

  function Skip(s: string, limit: nat, blanks: bool): (r: string)
    ensures |r| <= |s|
    decreases limit
  {
    if limit > 0 && s != "" && (if blanks then IsBlank(s[0]) else s[0] == '`' || s[0] == '*')
    then Skip(s[1..], limit - 1, blanks)
    else s
  }

  function SkipBlanks(s: string): (r: string)
    ensures |r| <= |s| && (r != "" ==> !IsBlank(r[0]))
  {
    if s != "" && IsBlank(s[0]) then SkipBlanks(s[1..]) else s
  }

  function TokenLength(s: string): (n: nat)
    ensures n <= |s| && forall i :: 0 <= i < n ==> !IsBlank(s[i]) && s[i] != '\r' && s[i] != '\n'
    ensures n < |s| ==> IsBlank(s[n]) || s[n] == '\r' || s[n] == '\n'
  {
    if s == "" || IsBlank(s[0]) || s[0] == '\r' || s[0] == '\n' then 0 else 1 + TokenLength(s[1..])
  }

  const FIELD := "delegated_run_id"

  /** A list bullet with the blanks after it, when there is one. */
  function SkipBullet(s: string): string {
    if |s| > 1 && (s[0] == '-' || s[0] == '*') && IsBlank(s[1]) then SkipBlanks(s[1..]) else s
  }

  /** The run id that one pointer line carries. */
  function PointerValue(line: string): Option<string> {
    var s := Skip(SkipBullet(Skip(line, 3, true)), 2, false);
    if !(FIELD <= s) then None
    else
      var t := SkipBlanks(Skip(s[|FIELD|..], 2, false));
      if t == "" || t[0] != ':' then None
      else
        var v := SkipBlanks(t[1..]);
        var n := TokenLength(v);
        if n == 0 || SkipBlanks(v[n..]) != "" then None else Some(v[..n])
  }

  datatype Markdown = NoMarkdown | BadMarkdown | Lines(lines: seq<string>)

  /** The decoded execution pointer. */
  datatype Execution = NoExecution | BadExecution | NoRunId | NotText | RunId(text: string)

  function LineValues(lines: seq<string>): seq<string> {
    if lines == [] then []
    else
      var v := PointerValue(lines[|lines| - 1]);
      LineValues(lines[..|lines| - 1]) + if v.Some? then [v.value] else []
  }

  function Values(md: Markdown, exec: Execution): Result<seq<string>> {
    if md.BadMarkdown? || exec.BadExecution? then Err(PointerReadFailed)
    else if exec.NotText? then Err(RunIdMissing)
    else if md.NoMarkdown? && exec.NoExecution? then Err(PointerReadFailed)
    else Ok((if md.Lines? then LineValues(md.lines) else []) + (if exec.RunId? then [exec.text] else []))
  }

  function Interpret(text: string): Result<Recovered> {
    if Parse(text).Some? then Ok(Canonical(Parse(text).value))
    else if ParseLegacy(text).Some? then Ok(ParseLegacy(text).value)
    else Err(RunIdInvalid)
  }

  function ReadPointer(md: Markdown, exec: Execution): Result<Recovered> {
    match Values(md, exec)
    case Err(e) => Err(e)
    case Ok(values) =>
      if values == [] then Err(RunIdMissing)
      else if exists i :: 0 <= i < |values| && values[i] != values[0] then Err(RunIdAmbiguous)
      else Interpret(values[0])
  }

  /** The loop that collects the pointer lines of a document. */
  method CollectValues(lines: seq<string>) returns (values: seq<string>)
    ensures values == LineValues(lines)
  {
    hide PointerValue;
    values := [];
    for i := 0 to |lines|
      invariant values == LineValues(lines[..i])
    {
      assert lines[..i + 1][..i] == lines[..i];
      var v := PointerValue(lines[i]);
      if v.Some? {
        values := values + [v.value];
      }
    }
    assert lines[..|lines|] == lines;
  }

  function AttemptOf(r: Recovered): nat {
    match r
    case Canonical(id) => id.attempt
    case Legacy(_, attempt, _) => attempt
  }

  /** The run stored in a directory of this name with this pointer evidence. */
  function Recover(name: string, md: Markdown, exec: Execution): Result<Recovered> {
    if ParseDir(name).None? then Err(DirNameInvalid)
    else
      var d := ParseDir(name).value;
      match ReadPointer(md, exec)
      case Err(e) => Err(e)
      case Ok(r) =>
        if d.attempt != AttemptOf(r) then Err(RunMismatch)
        else
          match r
          case Legacy(_, _, random) =>
            if d.suffix.Some? && d.suffix.value != random then Err(RunMismatch) else Ok(r)
          case Canonical(id) =>
            if d.canonical && d.suffix != Some(id.random) then Err(RunMismatch) else Ok(r)
  }

  // ---------------------------------------------------------------- recovery is right

  /** Evidence that was written for a run: every pointer line there is carries its id, and there is one. */
  ghost predicate WrittenFor(id: Identity, md: Markdown, exec: Execution) {
    && Values(md, exec).Ok? && Values(md, exec).value != []
    && forall i :: 0 <= i < |Values(md, exec).value| ==> Values(md, exec).value[i] == Print(id)
  }

  /** Recovery from a directory and pointer written for a run returns that run. */
  lemma RecoversItsRun(id: Identity, md: Markdown, exec: Execution)
    requires Valid(id) && WrittenFor(id, md, exec)
    ensures Recover(DirOf(id), md, exec) == Ok(Canonical(id))
  {
    hide ParseDir, Parse, Values, Print;
    ParseDirOf(id);
    ParseOfPrint(id);
  }

  /** A line that is written for a run carries its id. */
  lemma PointerLine(id: Identity)
    requires Valid(id)
    ensures PointerValue(FIELD + ": " + Print(id)) == Some(Print(id))
  {
    var v := Print(id);
    var line := FIELD + ": " + v;
    PrintChars(id);
    assert |FIELD| == 16 && FIELD[0] == 'd';
    assert line[0] == 'd' && Skip(line, 3, true) == line && SkipBullet(line) == line && Skip(line, 2, false) == line;
    assert FIELD <= line && line[16..] == ": " + v;
    var t := ": " + v;
    assert Skip(t, 2, false) == t && SkipBlanks(t) == t && t[1..] == " " + v;
    assert (" " + v)[1..] == v;
    assert !IsBlank(v[0]) by {
      assert Printable(v[0]);
    }
    assert SkipBlanks(v) == v && SkipBlanks(" " + v) == v;
    WholeToken(v);
    assert v[|v|..] == "" && v[..|v|] == v;
  }

  // A line that does not mention the field carries nothing.

  predicate Mentions(line: string) {
    exists k :: 0 <= k <= |line| && FIELD <= line[k..]
  }

  predicate Tail(r: string, s: string) {
    |r| <= |s| && r == s[|s| - |r|..]
  }

  lemma {:induction false} SkipTail(s: string, limit: nat, blanks: bool)
    ensures Tail(Skip(s, limit, blanks), s)
    decreases limit
  {
    if limit > 0 && s != "" {
      SkipTail(s[1..], limit - 1, blanks);
    }
  }

  lemma {:induction false} BlanksTail(s: string)
    ensures Tail(SkipBlanks(s), s)
  {
    if s != "" {
      BlanksTail(s[1..]);
    }
  }

  lemma TailOfTail(a: string, b: string, c: string)
    requires Tail(a, b) && Tail(b, c)
    ensures Tail(a, c)
  {
  }

  lemma BulletTail(a: string)
    ensures Tail(SkipBullet(a), a)
  {
    hide SkipBlanks;
    if a != "" {
      BlanksTail(a[1..]);
    }
  }

  /** Where the value of a line would be looked for is a tail of the line. */
  lemma PlainLine(line: string)
    requires !Mentions(line)
    ensures PointerValue(line).None?
  {
    hide Skip, SkipBlanks, SkipBullet, TokenLength;
    var a := Skip(line, 3, true);
    var b := SkipBullet(a);
    var s := Skip(b, 2, false);
    SkipTail(line, 3, true);
    SkipTail(b, 2, false);
    BulletTail(a);
    TailOfTail(b, a, line);
    TailOfTail(s, b, line);
    assert s == line[|line| - |s|..];
  }

  lemma {:induction false} DocumentValues(lines: seq<string>, line: string, v: string)
    requires PointerValue(line) == Some(v)
    requires forall i :: 0 <= i < |lines| ==> lines[i] == line || !Mentions(lines[i])
    ensures forall i :: 0 <= i < |LineValues(lines)| ==> LineValues(lines)[i] == v
    ensures line in lines ==> LineValues(lines) != []
  {
    hide PointerValue, Mentions;
    if lines != [] {
      var init, last := lines[..|lines| - 1], lines[|lines| - 1];
      DocumentValues(init, line, v);
      if last != line {
        PlainLine(last);
        assert line in lines ==> line in init;
      }
    }
  }

  /** A document that names the run's id in its field line and mentions the field nowhere else, alone or
      beside an execution record of the same id, recovers the run from its own directory. */
  lemma DocumentRecovers(id: Identity, lines: seq<string>, exec: Execution)
    requires Valid(id) && FIELD + ": " + Print(id) in lines
    requires forall i :: 0 <= i < |lines| ==> lines[i] == FIELD + ": " + Print(id) || !Mentions(lines[i])
    requires exec == NoExecution || exec == NoRunId || exec == RunId(Print(id))
    ensures WrittenFor(id, Lines(lines), exec)
    ensures Recover(DirOf(id), Lines(lines), exec) == Ok(Canonical(id))
  {
    hide PointerValue, Mentions, LineValues, Print, Valid, Recover;
    PointerLine(id);
    DocumentValues(lines, FIELD + ": " + Print(id), Print(id));
    RecoversItsRun(id, Lines(lines), exec);
  }

  lemma {:induction false} WholeToken(v: string)
    requires Visible(v)
    ensures TokenLength(v) == |v|
  {
    if v != "" {
      assert Printable(v[0]);
      WholeToken(v[1..]);
    }
  }

  /** What recovery says is true: a canonical answer is the id that the evidence carries, with the
      directory's attempt, and a canonical directory name is exactly that run's. */
  lemma RecoveredIsBound(name: string, md: Markdown, exec: Execution)
    requires Recover(name, md, exec).Ok? && Recover(name, md, exec).value.Canonical?
    ensures var id := Recover(name, md, exec).value.id;
            && Valid(id) && WrittenFor(id, md, exec)
            && ParseDir(name).Some? && ParseDir(name).value.attempt == id.attempt
            && (ParseDir(name).value.canonical ==> name == DirOf(id))
  {
    hide ParseDir, Parse, Values, Print, ParseLegacy, Valid;
    var values := Values(md, exec).value;
    ParseDirPrints(name);
    LegacyIsLegacy(values[0]);
    PrintOfParse(values[0]);
  }

  lemma LegacyIsLegacy(text: string)
    ensures ParseLegacy(text).Some? ==>
              && ParseLegacy(text).value.Legacy? && ParseLegacy(text).value.text == text
              && 7 <= |ParseLegacy(text).value.random| <= 12
  {
  }

  /** A legacy answer keeps the evidence verbatim, is no canonical id, agrees with the directory in
      attempt, and in suffix wherever the directory has one. */
  lemma LegacyIsBound(name: string, md: Markdown, exec: Execution)
    requires Recover(name, md, exec).Ok? && Recover(name, md, exec).value.Legacy?
    ensures var r := Recover(name, md, exec).value;
            && Parse(r.text).None? && ParseDir(name).Some? && ParseDir(name).value.attempt == r.attempt
            && (ParseDir(name).value.suffix.Some? ==> ParseDir(name).value.suffix.value == r.random && |r.random| >= 8)
            && Values(md, exec).Ok? && r.text in Values(md, exec).value
  {
    hide Parse, Values, Print, ParseLegacy, DirText;
    var values := Values(md, exec).value;
    LegacyIsLegacy(values[0]);
    SuffixLength(name);
    hide ParseDir;
  }

  lemma SuffixLength(name: string)
    ensures ParseDir(name).Some? && ParseDir(name).value.suffix.Some? ==> |ParseDir(name).value.suffix.value| >= 8
  {
  }

  /** Two runs are never recovered from one directory and one body of evidence, and two canonical runs
      never share a canonical directory unless they share attempt and random id. */
  lemma OneDirectoryOneRun(name: string, md: Markdown, exec: Execution, md': Markdown, exec': Execution)
    requires Recover(name, md, exec).Ok? && Recover(name, md, exec).value.Canonical?
    requires Recover(name, md', exec').Ok? && Recover(name, md', exec').value.Canonical?
    requires ParseDir(name).value.canonical
    ensures var a, b := Recover(name, md, exec).value.id, Recover(name, md', exec').value.id;
            a.attempt == b.attempt && a.random == b.random
  {
    hide Recover, ParseDir, Valid, DirOf;
    RecoveredIsBound(name, md, exec);
    RecoveredIsBound(name, md', exec');
    DirsAreUnique(Recover(name, md, exec).value.id, Recover(name, md', exec').value.id);
  }
}
