/** Editing one assignment of the env file, and exactly what the edit does to bytes and to the reader's map. */
module EnvEdit {
  import opened Chars
  import opened EnvFile

  datatype Op = Insert | Rotate | Delete

  datatype PlanError = DuplicateAssignment | AlreadyExists | ExportUnsupported | NotFound

  datatype Plan = Edited(units: seq<Unit>) | Rejected(error: PlanError)

  predicate Owns(u: Unit, key: string, exported: bool) {
    Classify(u.content) == Owned(key, exported)
  }

  /** Indices of the units that assign `key`, plainly or after `export`. */
  function Owners(units: seq<Unit>, key: string, exported: bool): seq<nat> {
    if units == [] then []
    else
      var n := |units| - 1;
      Owners(units[..n], key, exported) + if Owns(units[n], key, exported) then [n] else []
  }

  function CountTerm(units: seq<Unit>, term: string): nat {
    if units == [] then 0 else (if units[0].term == term then 1 else 0) + CountTerm(units[1..], term)
  }

  function DominantTerm(units: seq<Unit>): string {
    if CountTerm(units, "\r\n") > 0 && CountTerm(units, "\n") == 0 then "\r\n" else "\n"
  }

  function AppendUnit(units: seq<Unit>, line: string): seq<Unit> {
    var term := DominantTerm(units);
    if units == [] then [Unit(line, term)]
    else
      var n := |units| - 1;
      if units[n] == Unit("", "") then units[..n] + [Unit(line, term)]
      else if units[n].term == "" then units[..n] + [Unit(units[n].content, term), Unit(line, term)]
      else units + [Unit(line, term)]
  }

  function MakePlan(units: seq<Unit>, op: Op, key: string, value: string): Plan {
    var plain, exported := Owners(units, key, false), Owners(units, key, true);
    var line := key + "=" + value;
    if op.Insert? then
      if |plain| > 1 then Rejected(DuplicateAssignment)
      else if |plain| == 1 then Rejected(AlreadyExists)
      else if exported != [] then Rejected(ExportUnsupported)
      else Edited(AppendUnit(units, line))
    else
      OwnersBelow(units, key, false);
      if |plain| > 1 || (|plain| == 1 && exported != []) then Rejected(DuplicateAssignment)
      else if plain == [] && exported != [] then Rejected(ExportUnsupported)
      else if plain == [] then Rejected(NotFound)
      else if op.Rotate? then Edited(units[plain[0] := Unit(line, units[plain[0]].term)])
      else Edited(units[..plain[0]] + units[plain[0] + 1..])
  }

  lemma {:induction false} OwnersBelow(units: seq<Unit>, key: string, exported: bool)
    ensures forall k :: 0 <= k < |Owners(units, key, exported)| ==> Owners(units, key, exported)[k] < |units|
    ensures forall i :: 0 <= i < |units| ==> (i in Owners(units, key, exported) <==> Owns(units[i], key, exported))
  {
    hide Owns;
    if units != [] {
      var n := |units| - 1;
      OwnersBelow(units[..n], key, exported);
      assert forall i :: 0 <= i < n ==> units[..n][i] == units[i];
    }
  }

  /** The writer's loop over its units, collecting both kinds of owner. */
  method CollectOwners(units: seq<Unit>, key: string) returns (plain: seq<nat>, exported: seq<nat>)
    ensures plain == Owners(units, key, false) && exported == Owners(units, key, true)
  {
    plain, exported := [], [];
    var i := 0;
    while i < |units|
      invariant 0 <= i <= |units|
      invariant plain == Owners(units[..i], key, false) && exported == Owners(units[..i], key, true)
    {
      assert units[..i + 1][..i] == units[..i];
      match Classify(units[i].content) {
        case Unowned =>
        case Owned(k, e) =>
          if k == key {
            if e {
              exported := exported + [i];
            } else {
              plain := plain + [i];
            }
          }
      }
      i := i + 1;
    }
    assert units[..i] == units;
  }

  // ---------------------------------------------------------------- values

  /** Values the writer accepts: the reader gives them back unchanged. */
  predicate IsValue(v: string) {
    && v != "" && !IsSpace(v[0]) && !IsSpace(v[|v| - 1])
    && Unquote(v) == v
    && forall i :: 0 <= i < |v| ==> v[i] != '\0' && !IsBoundary(v[i])
  }

  lemma {:induction false} TrimmedKeeps(s: string)
    requires s != "" && !IsSpace(s[0]) && !IsSpace(s[|s| - 1])
    ensures Strip(s) == s
  {
  }

  lemma FindAt(s: string, c: char, n: nat)
    requires n < |s| && s[n] == c && forall i :: 0 <= i < n ==> s[i] != c
    ensures Find(s, c) == n
  {
  }

  lemma NotExport(key: string, value: string)
    requires IsKey(key)
    ensures !IsExport(key + "=" + value)
  {
    var line, word := key + "=" + value, "export ";
    assert forall i :: 0 <= i < 7 ==> word[i] != '=';
    if |key| < 7 {
      assert line[|key|] == '=' && word[|key|] != '=';
    } else {
      assert line[6] == key[6] && word[6] == ' ';
    }
  }

  lemma AssignmentIsPlain(key: string, value: string)
    requires IsKey(key) && IsValue(value)
    ensures var line := key + "=" + value; !Ignored(line) && !IsExport(line) && Strip(line) == line && Plain(line)
  {
    var line := key + "=" + value;
    assert line[0] == key[0] && line[|line| - 1] == value[|value| - 1];
    TrimmedKeeps(line);
    NotExport(key, value);
    forall i | 0 <= i < |line| ensures !IsBoundary(line[i]) {
      if i > |key| {
        assert line[i] == value[i - |key| - 1];
      } else if i < |key| {
        assert line[i] == key[i];
      }
    }
  }

  /** The written line reads back as the assignment it was written for. */
  lemma AssignmentReads(key: string, value: string)
    requires IsKey(key) && IsValue(value)
    ensures ParseLine(key + "=" + value) == Assign(key, value)
  {
    var line := key + "=" + value;
    AssignmentIsPlain(key, value);
    assert line[|key|] == '=' && forall i :: 0 <= i < |key| ==> line[i] == key[i];
    FindAt(line, '=', |key|);
    assert line[..|key|] == key && line[|key| + 1..] == value;
    TrimmedKeeps(key);
    TrimmedKeeps(value);
    assert !HasNul(value) by {
      assert IsBoundary('\r') && IsBoundary('\n');
    }
  }

  // ---------------------------------------------------------------- the map as a last-wins overlay

  predicate Clean(lines: seq<string>) {
    forall i :: 0 <= i < |lines| ==> !ParseLine(lines[i]).Invalid?
  }

  function Effect(l: Line): map<string, string> {
    if l.Assign? then map[l.key := l.value] else map[]
  }

  /** All assignments of the lines, later ones over earlier ones. */
  function Overlay(lines: seq<string>): map<string, string> {
    if lines == [] then map[] else Effect(ParseLine(lines[0])) + Overlay(lines[1..])
  }

  lemma CleanCons(lines: seq<string>)
    requires lines != []
    ensures Clean(lines) <==> !ParseLine(lines[0]).Invalid? && Clean(lines[1..])
  {
    hide ParseLine;
    assert forall i :: 0 <= i < |lines[1..]| ==> lines[1..][i] == lines[i + 1];
    if !ParseLine(lines[0]).Invalid? && Clean(lines[1..]) {
      forall i | 0 <= i < |lines| ensures !ParseLine(lines[i]).Invalid? {
        if i > 0 {
          assert lines[i] == lines[1..][i - 1];
        }
      }
    }
  }

  lemma CleanAppend(a: seq<string>, b: seq<string>)
    ensures Clean(a + b) <==> Clean(a) && Clean(b)
  {
    hide ParseLine;
    if Clean(a + b) {
      forall i | 0 <= i < |a| ensures !ParseLine(a[i]).Invalid? {
        assert (a + b)[i] == a[i];
      }
      forall i | 0 <= i < |b| ensures !ParseLine(b[i]).Invalid? {
        assert (a + b)[|a| + i] == b[i];
      }
    }
  }

  lemma {:induction false} ParseOverlay(lines: seq<string>, acc: map<string, string>)
    ensures ParseLines(lines, acc) == if Clean(lines) then Ok(acc + Overlay(lines)) else Failed
  {
    hide ParseLine, Clean;
    if lines != [] {
      CleanCons(lines);
      var rest := Overlay(lines[1..]);
      match ParseLine(lines[0]) {
        case Nothing =>
          ParseOverlay(lines[1..], acc);
          assert map[] + rest == rest;
        case Assign(k, v) =>
          ParseOverlay(lines[1..], acc[k := v]);
          assert acc[k := v] + rest == acc + (map[k := v] + rest);
        case Invalid(_) =>
      }
    } else {
      assert Clean(lines) by {
        EmptyClean();
      }
      assert acc + map[] == acc;
    }
  }

  lemma EmptyClean()
    ensures Clean([])
  {
  }

  lemma MergeAssociates(x: map<string, string>, y: map<string, string>, z: map<string, string>)
    ensures x + (y + z) == (x + y) + z
  {
  }

  lemma {:induction false} OverlayAppend(a: seq<string>, b: seq<string>)
    ensures Overlay(a + b) == Overlay(a) + Overlay(b)
  {
    hide ParseLine, Effect;
    if a == [] {
      assert a + b == b;
      assert map[] + Overlay(b) == Overlay(b);
    } else {
      assert (a + b)[1..] == a[1..] + b;
      OverlayAppend(a[1..], b);
      MergeAssociates(Effect(ParseLine(a[0])), Overlay(a[1..]), Overlay(b));
    }
  }

  predicate Unset(lines: seq<string>, key: string) {
    forall i :: 0 <= i < |lines| ==> !Sets(ParseLine(lines[i]), key)
  }

  lemma {:induction false} OverlayUnset(lines: seq<string>, key: string)
    requires Unset(lines, key)
    ensures key !in Overlay(lines)
  {
    if lines != [] {
      assert Unset(lines[1..], key) by {
        assert forall i :: 0 <= i < |lines[1..]| ==> lines[1..][i] == lines[i + 1];
      }
      assert !Sets(ParseLine(lines[0]), key);
      OverlayUnset(lines[1..], key);
    }
  }

  lemma {:induction false} OverlayAssigns(lines: seq<string>, key: string)
    requires Clean(lines) && key !in Overlay(lines)
    ensures Unset(lines, key)
  {
    if lines != [] {
      assert Clean(lines[1..]) by {
        assert forall i :: 0 <= i < |lines[1..]| ==> lines[1..][i] == lines[i + 1];
      }
      OverlayAssigns(lines[1..], key);
      assert !ParseLine(lines[0]).Invalid?;
      forall i | 0 <= i < |lines| ensures !Sets(ParseLine(lines[i]), key) {
        if i > 0 {
          assert lines[i] == lines[1..][i - 1];
        }
      }
    }
  }

  // ---------------------------------------------------------------- line level: what each edit does to the map

  /** The map the caller asked for. */
  function Wanted(values: map<string, string>, op: Op, key: string, value: string): map<string, string> {
    if op == Delete then values - {key} else values[key := value]
  }

  lemma OneLine(l: string)
    ensures Overlay([l]) == Effect(ParseLine(l)) && (Clean([l]) <==> !ParseLine(l).Invalid?)
  {
    hide ParseLine, Effect, Clean;
    CleanCons([l]);
    EmptyClean();
    assert [l][1..] == [];
    assert Effect(ParseLine(l)) + map[] == Effect(ParseLine(l));
  }

  lemma OverlayThree(a: seq<string>, l: string, b: seq<string>)
    ensures Overlay(a + [l] + b) == Overlay(a) + Effect(ParseLine(l)) + Overlay(b)
    ensures Clean(a + [l] + b) <==> Clean(a) && !ParseLine(l).Invalid? && Clean(b)
  {
    hide ParseLine, Effect, Overlay, Clean;
    OneLine(l);
    OverlayAppend(a + [l], b);
    OverlayAppend(a, [l]);
    CleanAppend(a + [l], b);
    CleanAppend(a, [l]);
  }

  /** Replacing the only line that sets `key`. */
  lemma RotateLine(a: seq<string>, was: string, b: seq<string>, key: string, line: string, value: string)
    requires Unset(b, key) && Clean(a + [was] + b) && ParseLine(line) == Assign(key, value)
    requires Sets(ParseLine(was), key)
    ensures Clean(a + [line] + b)
    ensures Overlay(a + [line] + b) == Overlay(a + [was] + b)[key := value]
  {
    hide ParseLine, Overlay, Clean;
    OverlayThree(a, was, b);
    OverlayThree(a, line, b);
    OverlayUnset(b, key);
  }

  /** Removing the only line that sets `key`. */
  lemma DeleteLine(a: seq<string>, was: string, b: seq<string>, key: string)
    requires Unset(a, key) && Unset(b, key) && Clean(a + [was] + b) && Sets(ParseLine(was), key)
    ensures Clean(a + b)
    ensures Overlay(a + b) == Overlay(a + [was] + b) - {key}
  {
    hide ParseLine, Overlay, Clean;
    OverlayThree(a, was, b);
    OverlayAppend(a, b);
    CleanAppend(a, b);
    OverlayUnset(a, key);
    OverlayUnset(b, key);
  }

  // ---------------------------------------------------------------- unit level

  lemma {:induction false} RenderAppend(a: seq<Unit>, b: seq<Unit>)
    ensures Render(a + b) == Render(a) + Render(b)
  {
    if a == [] {
      assert a + b == b;
    } else {
      assert (a + b)[1..] == a[1..] + b;
      RenderAppend(a[1..], b);
    }
  }

  lemma ContentsAppend(a: seq<Unit>, b: seq<Unit>)
    ensures Contents(a + b) == Contents(a) + Contents(b)
  {
    var l, r := Contents(a + b), Contents(a) + Contents(b);
    assert |l| == |r|;
    forall i | 0 <= i < |l| ensures l[i] == r[i] {
    }
  }

  /** The reader's view of rendered units, when no stray byte-order mark leads them. */
  lemma ParseUnits(units: seq<Unit>, bom: bool)
    requires Regular(units) && (bom || !HasBom(Render(units)))
    ensures Parse(RenderFile(units, bom)) == ParseLines(Contents(units), map[])
  {
    hide ParseLines, SplitLines, Contents;
    assert Text(RenderFile(units, bom)) == Render(units) by {
      if bom {
        assert ([BOM] + Render(units))[1..] == Render(units);
      } else {
        assert "" + Render(units) == Render(units);
      }
    }
    ParseRendered(units, map[]);
  }

  /** A file the writer goes on with: readable, with only LF and CR LF boundaries. */
  predicate Editable(file: string) {
    Supported(Text(file)) && Parse(file).Ok?
  }

  lemma EditableUnits(file: string)
    requires Editable(file)
    ensures var units := FileUnits(file);
            && Regular(units) && Clean(Contents(units))
            && Parse(file) == Ok(Overlay(Contents(units)))
            && (HasBom(file) || !HasBom(Render(units)))
            && RenderFile(units, HasBom(file)) == file
            && (units != [] ==> Render(units) != "")
  {
    hide ParseLines, SplitLines, Contents, Overlay, Clean, Units;
    var units := FileUnits(file);
    RenderOfFileUnits(file);
    if Text(file) != "" {
      UnitsRegular(Text(file));
      RenderOfUnits(Text(file));
    }
    assert Text(file) == Render(units) by {
      if Text(file) == "" {
        EmptyRender();
      }
    }
    ParseUnits(units, HasBom(file));
    ParseOverlay(Contents(units), map[]);
    assert map[] + Overlay(Contents(units)) == Overlay(Contents(units));
  }

  lemma EmptyRender()
    ensures Render([]) == ""
  {
  }

  /** No unit but `at` assigns `key`. */
  lemma OthersUnset(units: seq<Unit>, key: string, at: nat)
    requires at < |units|
    requires Owners(units, key, true) == [] && Owners(units, key, false) == [at]
    ensures Unset(Contents(units[..at]), key) && Unset(Contents(units[at + 1..]), key)
    ensures Sets(ParseLine(units[at].content), key)
  {
    hide ParseLine, Classify, Owners;
    OwnersBelow(units, key, false);
    OwnersBelow(units, key, true);
    forall i | 0 <= i < |units| && i != at ensures !Sets(ParseLine(units[i].content), key) {
      ClassifyMirrors(units[i].content, key);
      assert i !in [at] && i !in Owners(units, key, true);
      assert !Owns(units[i], key, false) && !Owns(units[i], key, true);
    }
    ClassifyMirrors(units[at].content, key);
    assert at in [at];
    assert Owns(units[at], key, false);
  }

  lemma {:induction false} SameFirst(a: seq<Unit>, b: seq<Unit>)
    requires Render(a) != ""
    ensures HasBom(Render(a + b)) == HasBom(Render(a))
  {
    RenderAppend(a, b);
  }

  /** Regular units without an invalid line read as the overlay of their contents. */
  lemma UnitsRead(units: seq<Unit>, bom: bool)
    requires Regular(units) && (bom || !HasBom(Render(units)))
    ensures Parse(RenderFile(units, bom))
         == if Clean(Contents(units)) then Ok(Overlay(Contents(units))) else Failed
  {
    hide ParseLines, Contents, Overlay, Clean, Parse, RenderFile, Render, Regular;
    ParseUnits(units, bom);
    ParseOverlay(Contents(units), map[]);
    assert map[] + Overlay(Contents(units)) == Overlay(Contents(units));
  }

  lemma RenderThree(a: seq<Unit>, u: Unit, b: seq<Unit>)
    ensures Render(a + [u] + b) == Render(a) + u.content + u.term + Render(b)
  {
    hide Render;
    RenderAppend(a + [u], b);
    RenderAppend(a, [u]);
    SingleRender(u);
  }

  lemma ContentsThree(a: seq<Unit>, u: Unit, b: seq<Unit>)
    ensures Contents(a + [u] + b) == Contents(a) + [u.content] + Contents(b)
  {
    ContentsAppend(a + [u], b);
    ContentsAppend(a, [u]);
  }

  lemma LineNoBom(key: string, value: string)
    requires IsKey(key)
    ensures key + "=" + value != "" && (key + "=" + value)[0] != BOM
  {
    assert (key + "=" + value)[0] == key[0];
  }

  // ---------------------------------------------------------------- rotation

  /** The unit written for an assignment. */
  function Line(key: string, value: string): string {
    key + "=" + value
  }

  /** Every byte outside the one assignment's text is kept by a rotation. */
  lemma RotateBytes(units: seq<Unit>, bom: bool, at: nat, line: string)
    requires at < |units|
    ensures var before := RenderFile(units[..at], bom);
            var behind := units[at].term + Render(units[at + 1..]);
            && RenderFile(units, bom) == before + units[at].content + behind
            && RenderFile(units[at := Unit(line, units[at].term)], bom) == before + line + behind
  {
    hide Render;
    var a, b, u := units[..at], units[at + 1..], Unit(line, units[at].term);
    assert units == a + [units[at]] + b && units[at := u] == a + [u] + b;
    RenderThree(a, units[at], b);
    RenderThree(a, u, b);
  }

  lemma RotatedUnits(units: seq<Unit>, bom: bool, at: nat, line: string)
    requires Regular(units) && at < |units| && Plain(line) && line != "" && line[0] != BOM
    requires bom || !HasBom(Render(units))
    ensures var units' := units[at := Unit(line, units[at].term)];
            Regular(units') && (bom || !HasBom(Render(units')))
  {
    var u := Unit(line, units[at].term);
    var a, b := units[..at], units[at + 1..];
    assert units == a + [units[at]] + b && units[at := u] == a + [u] + b;
    RenderThree(a, units[at], b);
    RenderThree(a, u, b);
  }

  /** Rotation sets exactly the one key in the reader's map. */
  lemma RotateReads(file: string, key: string, value: string, at: nat)
    requires Editable(file) && IsKey(key) && IsValue(value)
    requires at < |FileUnits(file)|
    requires Owners(FileUnits(file), key, true) == [] && Owners(FileUnits(file), key, false) == [at]
    ensures var units := FileUnits(file);
            Parse(RenderFile(units[at := Unit(Line(key, value), units[at].term)], HasBom(file)))
            == Ok(Parse(file).values[key := value])
  {
    hide ParseLines, SplitLines, Contents, Overlay, Clean, Parse, FileUnits, Owners, ParseLine, Unset, IsValue, IsKey,
         Regular, Render, RenderFile, Plain;
    var units, bom := FileUnits(file), HasBom(file);
    var u := Unit(Line(key, value), units[at].term);
    var a, b := units[..at], units[at + 1..];
    assert units == a + [units[at]] + b && units[at := u] == a + [u] + b;
    EditableUnits(file);
    OthersUnset(units, key, at);
    AssignmentReads(key, value);
    AssignmentIsPlain(key, value);
    LineNoBom(key, value);
    ContentsThree(a, units[at], b);
    ContentsThree(a, u, b);
    RotateLine(Contents(a), units[at].content, Contents(b), key, u.content, value);
    RotatedUnits(units, bom, at, u.content);
    UnitsRead(units[at := u], bom);
  }

  // ---------------------------------------------------------------- insertion

  /** What stands between the old bytes and the inserted line: nothing, or the missing terminator. */
  function Gap(units: seq<Unit>): string {
    if units != [] && units[|units| - 1].term == "" && units[|units| - 1].content != "" then DominantTerm(units) else ""
  }

  /** The units an insertion keeps in front of the new one. */
  function Kept(units: seq<Unit>): seq<Unit> {
    if units == [] then []
    else
      var n := |units| - 1;
      if units[n] == Unit("", "") then units[..n]
      else if units[n].term == "" then units[..n] + [Unit(units[n].content, DominantTerm(units))]
      else units
  }

  lemma AppendIsKept(units: seq<Unit>, line: string)
    ensures AppendUnit(units, line) == Kept(units) + [Unit(line, DominantTerm(units))]
  {
    hide DominantTerm;
  }

  lemma SingleRender(u: Unit)
    ensures Render([u]) == u.content + u.term
  {
    assert [u][1..] == [];
    assert u.content + u.term + "" == u.content + u.term;
  }

  lemma KeptBytes(units: seq<Unit>)
    ensures Render(Kept(units)) == Render(units) + Gap(units)
  {
    hide DominantTerm, Render;
    if units == [] {
      EmptyRender();
    } else {
      var n := |units| - 1;
      var init, last := units[..n], units[n];
      assert units == init + [last];
      RenderAppend(init, [last]);
      SingleRender(last);
      if last.term == "" && last != Unit("", "") {
        RenderAppend(init, [Unit(last.content, DominantTerm(units))]);
        SingleRender(Unit(last.content, DominantTerm(units)));
      }
    }
  }

  /** Insertion keeps every byte and only appends. */
  lemma InsertBytes(units: seq<Unit>, bom: bool, line: string)
    ensures Render(AppendUnit(units, line)) == Render(units) + Gap(units) + line + DominantTerm(units)
    ensures RenderFile(AppendUnit(units, line), bom)
         == RenderFile(units, bom) + Gap(units) + line + DominantTerm(units)
  {
    hide DominantTerm, Render, Gap, AppendUnit, Kept;
    AppendIsKept(units, line);
    RenderAppend(Kept(units), [Unit(line, DominantTerm(units))]);
    SingleRender(Unit(line, DominantTerm(units)));
    KeptBytes(units);
  }

  /** What an insertion keeps in front reads as the old units did. */
  lemma KeptContents(units: seq<Unit>)
    requires Regular(units)
    ensures Clean(Contents(Kept(units))) <==> Clean(Contents(units))
    ensures Overlay(Contents(Kept(units))) == Overlay(Contents(units))
  {
    hide ParseLine, Clean, Overlay, DominantTerm, Contents, Regular;
    if units != [] {
      var n := |units| - 1;
      var init, last := units[..n], units[n];
      assert units == init + [last];
      ContentsAppend(init, [last]);
      SingleContents(last);
      if last == Unit("", "") {
        BlankDropped(Contents(init));
      } else if last.term == "" {
        ContentsAppend(init, [Unit(last.content, DominantTerm(units))]);
        SingleContents(Unit(last.content, DominantTerm(units)));
      }
    }
  }

  lemma AppendRegular(units: seq<Unit>, line: string)
    requires Regular(units) && Plain(line)
    ensures Regular(AppendUnit(units, line))
  {
    hide Plain, DominantTerm;
    DominantIsBreak(units);
  }

  /** The contents after an insertion: the old ones, but for an empty last one, and the new line. */
  lemma InsertContents(units: seq<Unit>, line: string)
    requires Regular(units)
    ensures Clean(Contents(AppendUnit(units, line))) <==> Clean(Contents(units)) && !ParseLine(line).Invalid?
    ensures Overlay(Contents(AppendUnit(units, line))) == Overlay(Contents(units)) + Effect(ParseLine(line))
  {
    hide ParseLine, Clean, Overlay, Effect, DominantTerm, Contents, Regular, Kept, AppendUnit;
    AppendIsKept(units, line);
    ContentsAppend(Kept(units), [Unit(line, DominantTerm(units))]);
    SingleContents(Unit(line, DominantTerm(units)));
    AppendedLine(Contents(Kept(units)), line);
    KeptContents(units);
  }

  lemma DominantIsBreak(units: seq<Unit>)
    ensures DominantTerm(units) == "\n" || DominantTerm(units) == "\r\n"
  {
  }

  lemma SingleContents(u: Unit)
    ensures Contents([u]) == [u.content]
  {
  }

  lemma EmptyContents()
    ensures Contents([]) == [] && Overlay([]) == map[] && Clean([])
  {
  }

  lemma BlankDropped(lines: seq<string>)
    ensures Overlay(lines + [""]) == Overlay(lines) && (Clean(lines + [""]) <==> Clean(lines))
  {
    hide Overlay, Clean;
    AppendedLine(lines, "");
    BlankLine(map[]);
    assert Overlay(lines) + map[] == Overlay(lines);
  }

  lemma AppendedLine(lines: seq<string>, line: string)
    ensures Overlay(lines + [line]) == Overlay(lines) + Effect(ParseLine(line))
    ensures Clean(lines + [line]) <==> Clean(lines) && !ParseLine(line).Invalid?
  {
    hide Overlay, Clean, Effect, ParseLine;
    OverlayThree(lines, line, []);
    assert lines + [line] + [] == lines + [line];
    EmptyContents();
    assert Overlay(lines) + Effect(ParseLine(line)) + map[] == Overlay(lines) + Effect(ParseLine(line));
  }

  /** Insertion sets exactly the one new key in the reader's map. */
  lemma InsertReads(file: string, key: string, value: string)
    requires Editable(file) && IsKey(key) && IsValue(value)
    ensures Parse(RenderFile(AppendUnit(FileUnits(file), Line(key, value)), HasBom(file)))
         == Ok(Parse(file).values[key := value])
  {
    hide ParseLines, SplitLines, Contents, Overlay, Clean, Parse, FileUnits, ParseLine, IsValue, IsKey,
         Regular, Render, Plain, AppendUnit, DominantTerm;
    var units, bom, line := FileUnits(file), HasBom(file), Line(key, value);
    EditableUnits(file);
    AssignmentReads(key, value);
    AssignmentIsPlain(key, value);
    LineNoBom(key, value);
    AppendRegular(units, line);
    InsertContents(units, line);
    InsertBytes(units, bom, line);
    DominantIsBreak(units);
    if units == [] {
      EmptyRender();
      assert Gap(units) == "";
    }
    UnitsRead(AppendUnit(units, line), bom);
  }

  // ---------------------------------------------------------------- deletion

  /** Deletion removes exactly the unit's bytes, its terminator included. */
  lemma DeleteBytes(units: seq<Unit>, bom: bool, at: nat)
    requires at < |units|
    ensures var before, behind := RenderFile(units[..at], bom), Render(units[at + 1..]);
            && RenderFile(units, bom) == before + units[at].content + units[at].term + behind
            && RenderFile(units[..at] + units[at + 1..], bom) == before + behind
  {
    hide Render;
    var a, b := units[..at], units[at + 1..];
    assert units == a + [units[at]] + b;
    RenderThree(a, units[at], b);
    RenderAppend(a, b);
  }

  /** Deleting the first unit of a file without a byte-order mark can leave a U+FEFF in front, which
      the reader then takes for one: the line it hid would be read.  This is when that changes the map. */
  predicate Exposes(units: seq<Unit>, bom: bool, at: nat)
    requires at < |units|
  {
    && !bom && at == 0 && |units| > 1
    && HasBom(units[1].content)
    && (var bared := ParseLine(units[1].content[1..]);
        bared.Invalid? || (bared.Assign? && Unset(Contents(units[2..]), bared.key)))
  }

  /** A line led by U+FEFF assigns nothing. */
  lemma HiddenLine(line: string)
    requires HasBom(line)
    ensures ParseLine(line) == Nothing
  {
    var s := Strip(line);
    StripKeepsFirst(line);
    assert !IsExport(s) by {
      assert "export "[0] == 'e';
    }
    var eq := Find(s, '=');
    if eq > 0 && eq < |s| {
      StripKeepsFirst(s[..eq]);
    }
  }

  lemma {:induction false} TrimRightKeepsFirst(s: string)
    requires s != "" && !IsSpace(s[0])
    ensures TrimRight(s) != "" && TrimRight(s)[0] == s[0]
  {
    if IsSpace(s[|s| - 1]) {
      TrimRightKeepsFirst(s[..|s| - 1]);
    }
  }

  lemma StripKeepsFirst(s: string)
    requires s != "" && !IsSpace(s[0])
    ensures Strip(s) != "" && Strip(s)[0] == s[0]
  {
    TrimRightKeepsFirst(s);
  }

  lemma DeletedRegular(units: seq<Unit>, at: nat)
    requires Regular(units) && at < |units|
    ensures Regular(units[..at] + units[at + 1..])
  {
  }

  lemma LinesAfterFirst(units: seq<Unit>)
    requires units != []
    ensures Contents(units) == [units[0].content] + Contents(units[1..])
  {
  }

  lemma {:induction false} UnitFront(units: seq<Unit>)
    requires units != [] && Regular(units)
    ensures HasBom(Render(units)) <==> HasBom(units[0].content)
    ensures HasBom(units[0].content) ==> Render(units)[1..] == Render([Unit(units[0].content[1..], units[0].term)] + units[1..])
  {
    var u, rest := units[0], units[1..];
    assert Render(units) == u.content + u.term + Render(rest);
    if HasBom(u.content) {
      var bare := Unit(u.content[1..], u.term);
      assert ([bare] + rest)[1..] == rest;
      assert Render(units)[1..] == u.content[1..] + u.term + Render(rest);
    } else if u.content == "" && u.term == "" {
      assert rest == [];
    }
  }

  /** What the reader sees of units whose leading U+FEFF it takes for a byte-order mark. */
  lemma BaredReads(units: seq<Unit>)
    requires units != [] && Regular(units) && HasBom(units[0].content)
    ensures var lines := [units[0].content[1..]] + Contents(units[1..]);
            Parse(Render(units)) == if Clean(lines) then Ok(Overlay(lines)) else Failed
  {
    hide Clean, Overlay, SplitLines, ParseLines, Contents, Render;
    var bare := [Unit(units[0].content[1..], units[0].term)] + units[1..];
    UnitFront(units);
    assert Regular(bare);
    assert Contents(bare) == [units[0].content[1..]] + Contents(units[1..]) by {
      LinesAfterFirst(bare);
      assert bare[1..] == units[1..];
    }
    ParseRendered(bare, map[]);
    ParseOverlay(Contents(bare), map[]);
    assert map[] + Overlay(Contents(bare)) == Overlay(Contents(bare));
  }

  lemma BaredFirst(bare: string, rest: seq<string>)
    requires Clean(rest)
    ensures var l := ParseLine(bare);
            var lines := [bare] + rest;
            (Clean(lines) && Overlay(lines) == Overlay(rest))
            <==> !(l.Invalid? || (l.Assign? && Unset(rest, l.key)))
  {
    hide ParseLine, Clean;
    var l, lines := ParseLine(bare), [bare] + rest;
    assert lines[1..] == rest;
    CleanCons(lines);
    if l.Assign? {
      if Unset(rest, l.key) {
        OverlayUnset(rest, l.key);
        assert l.key in Overlay(lines);
      } else if l.key !in Overlay(rest) {
        OverlayAssigns(rest, l.key);
      } else {
        assert map[l.key := l.value] + Overlay(rest) == Overlay(rest);
      }
    } else if l.Nothing? {
      assert map[] + Overlay(rest) == Overlay(rest);
    }
  }

  /** Deletion removes exactly the one key from the reader's map, unless it bares a line that the
      reader had skipped for its leading U+FEFF and that line then changes the map. */
  lemma DeleteReads(file: string, key: string, at: nat)
    requires Editable(file)
    requires at < |FileUnits(file)|
    requires Owners(FileUnits(file), key, true) == [] && Owners(FileUnits(file), key, false) == [at]
    ensures var units := FileUnits(file);
            Parse(RenderFile(units[..at] + units[at + 1..], HasBom(file))) == Ok(Parse(file).values - {key})
            <==> !Exposes(units, HasBom(file), at)
  {
    hide ParseLines, SplitLines, Contents, Overlay, Clean, Parse, FileUnits, Owners, ParseLine, Unset, Regular, Render;
    var units, bom := FileUnits(file), HasBom(file);
    var a, b := units[..at], units[at + 1..];
    assert units == a + [units[at]] + b;
    EditableUnits(file);
    OthersUnset(units, key, at);
    ContentsThree(a, units[at], b);
    ContentsAppend(a, b);
    DeleteLine(Contents(a), units[at].content, Contents(b), key);
    DeletedRegular(units, at);
    if !bom && HasBom(Render(a + b)) {
      DeletedFront(units, at);
      assert a + b == b && "" + Render(b) == Render(b);
      BaredDeletion(b);
      assert b[1..] == units[2..] && b[0] == units[1];
    } else {
      UnitsRead(a + b, bom);
      if !bom && at == 0 && |units| > 1 {
        assert a + b == b && b[0] == units[1];
        UnitFront(b);
      }
    }
  }

  /** Deleting a later unit keeps the first one in front. */
  lemma FrontKept(units: seq<Unit>, at: nat)
    requires Regular(units) && 0 < at < |units|
    ensures HasBom(Render(units[..at] + units[at + 1..])) <==> HasBom(Render(units))
  {
    hide Render, HasBom, Regular;
    var a, b := units[..at], units[at + 1..];
    FirstHasTerm(units);
    assert a[0] == units[0];
    NonEmptyRender(a);
    SameFirst(a, b);
    SameFirst(a, units[at..]);
    assert units == a + units[at..];
  }

  lemma FirstHasTerm(units: seq<Unit>)
    requires Regular(units) && |units| > 1
    ensures units[0].term != ""
  {
  }

  lemma NonEmptyRender(units: seq<Unit>)
    requires units != [] && units[0].term != ""
    ensures Render(units) != ""
  {
  }

  /** Only deleting the first unit can bring a U+FEFF to the front. */
  lemma DeletedFront(units: seq<Unit>, at: nat)
    requires Regular(units) && at < |units| && !HasBom(Render(units))
    requires HasBom(Render(units[..at] + units[at + 1..]))
    ensures at == 0 && |units| > 1 && HasBom(units[1].content)
  {
    hide Render, Regular, IsBoundary;
    if at > 0 {
      FrontKept(units, at);
    } else {
      var b := units[1..];
      assert units[..at] + units[at + 1..] == b;
      EmptyRender();
      assert b != [];
      DeletedRegular(units, at);
      UnitFront(b);
    }
  }

  lemma BaredDeletion(b: seq<Unit>)
    requires b != [] && Regular(b) && HasBom(b[0].content) && Clean(Contents(b))
    ensures var l := ParseLine(b[0].content[1..]);
            Parse(Render(b)) == Ok(Overlay(Contents(b)))
            <==> !(l.Invalid? || (l.Assign? && Unset(Contents(b[1..]), l.key)))
  {
    hide Clean, Parse, Contents, ParseLine, Unset, Render;
    BaredReads(b);
    LinesAfterFirst(b);
    HiddenLine(b[0].content);
    var rest := Contents(b[1..]);
    assert ([b[0].content] + rest)[1..] == rest;
    CleanCons([b[0].content] + rest);
    assert Overlay([b[0].content] + rest) == map[] + Overlay(rest) == Overlay(rest);
    BaredFirst(b[0].content[1..], rest);
  }

  // ---------------------------------------------------------------- the plan as a whole

  /** The unit an edit removes, when it is a deletion. */
  function Removed(units: seq<Unit>, op: Op, key: string): (at: nat)
    requires Owners(units, key, false) != []
    ensures at < |units|
  {
    OwnersBelow(units, key, false);
    Owners(units, key, false)[0]
  }

  /** The one family of edits whose result does not read as asked. */
  predicate Misreads(file: string, op: Op, key: string) {
    && op.Delete? && Owners(FileUnits(file), key, false) != []
    && Exposes(FileUnits(file), HasBom(file), Removed(FileUnits(file), op, key))
  }

  /** Secret edit correctness: for every operation, key and value the writer goes on with, the reader's
      map of the planned bytes is the old map with that one key set or removed, if and only if the edit
      does not bare a hidden line. */
  lemma PlanReads(file: string, op: Op, key: string, value: string)
    requires Editable(file) && IsKey(key) && (op.Delete? || IsValue(value))
    ensures var plan := MakePlan(FileUnits(file), op, key, value);
            plan.Edited? ==>
              (Parse(RenderFile(plan.units, HasBom(file))) == Ok(Wanted(Parse(file).values, op, key, value))
               <==> !Misreads(file, op, key))
  {
    hide Parse, RenderFile, FileUnits, Owners, IsValue, IsKey, Editable, Exposes, AppendUnit;
    var units := FileUnits(file);
    OwnersBelow(units, key, false);
    var plain := Owners(units, key, false);
    match op {
      case Insert =>
        InsertReads(file, key, value);
      case Rotate =>
        if |plain| == 1 && Owners(units, key, true) == [] {
          assert plain == [plain[0]];
          RotateReads(file, key, value, plain[0]);
        }
      case Delete =>
        if |plain| == 1 && Owners(units, key, true) == [] {
          assert plain == [plain[0]];
          DeleteReads(file, key, plain[0]);
        }
    }
  }

  /** The plan edits exactly when the key has no assignment (insertion) or one plain and no exported one. */
  lemma PlanAccepts(file: string, op: Op, key: string, value: string)
    ensures var units := FileUnits(file);
            MakePlan(units, op, key, value).Edited? <==>
              if op.Insert? then forall i :: 0 <= i < |units| ==> !Sets(ParseLine(units[i].content), key)
              else |Owners(units, key, false)| == 1 && Owners(units, key, true) == []
  {
    hide Owners, ParseLine, Classify, FileUnits, AppendUnit;
    var units := FileUnits(file);
    OwnersBelow(units, key, false);
    OwnersBelow(units, key, true);
    forall i | 0 <= i < |units|
      ensures Sets(ParseLine(units[i].content), key)
              <==> i in Owners(units, key, false) || i in Owners(units, key, true)
    {
      ClassifyMirrors(units[i].content, key);
    }
    if Owners(units, key, false) != [] {
      assert Owners(units, key, false)[0] in Owners(units, key, false);
    }
    if Owners(units, key, true) != [] {
      assert Owners(units, key, true)[0] in Owners(units, key, true);
    }
  }

  /** Why a plan is refused: the key is nowhere, or only after `export`, or once where it must not be, or
      assigned more than once. */
  lemma PlanRefuses(file: string, op: Op, key: string, value: string)
    ensures var units := FileUnits(file);
            var plan := MakePlan(units, op, key, value);
            var plain := |Owners(units, key, false)|;
            && (plan == Rejected(NotFound) <==>
                  !op.Insert? && forall i :: 0 <= i < |units| ==> !Sets(ParseLine(units[i].content), key))
            && (plan == Rejected(ExportUnsupported) <==>
                  plain == 0 && exists i :: 0 <= i < |units| && Sets(ParseLine(units[i].content), key))
            && (plan == Rejected(AlreadyExists) <==> op.Insert? && plain == 1)
            && (plan == Rejected(DuplicateAssignment) <==>
                  plain > 1 || (!op.Insert? && plain == 1 && Owners(units, key, true) != []))
  {
    hide Owners, ParseLine, Classify, FileUnits, AppendUnit;
    var units := FileUnits(file);
    OwnersBelow(units, key, false);
    OwnersBelow(units, key, true);
    forall i | 0 <= i < |units|
      ensures Sets(ParseLine(units[i].content), key)
              <==> i in Owners(units, key, false) || i in Owners(units, key, true)
    {
      ClassifyMirrors(units[i].content, key);
    }
    if Owners(units, key, false) != [] {
      assert Owners(units, key, false)[0] in Owners(units, key, false);
    }
    if Owners(units, key, true) != [] {
      assert Owners(units, key, true)[0] in Owners(units, key, true);
    }
  }

  /** Two assignments, the second hidden behind a U+FEFF. */
  function HidingFile(a: string, x: string, b: string, y: string): string {
    Line(a, x) + "\n" + ([BOM] + Line(b, y))
  }

  function HidingUnits(a: string, x: string, b: string, y: string): seq<Unit> {
    [Unit(Line(a, x), "\n"), Unit([BOM] + Line(b, y), "")]
  }

  lemma TwoUnits(first: string, second: string)
    requires Plain(first) && Plain(second)
    ensures Units(first + "\n" + second) == [Unit(first, "\n"), Unit(second, "")]
  {
    var text := first + "\n" + second;
    assert Find(second, '\n') == |second| by {
      assert IsBoundary('\n');
    }
    assert text[|first|] == '\n';
    assert forall i :: 0 <= i < |first| ==> text[i] == first[i];
    assert IsBoundary('\n') && IsBoundary('\r');
    FindAt(text, '\n', |first|);
    assert text[..|first|] == first && text[|first| + 1..] == second;
  }

  lemma TwoUnitsSupported(first: string, second: string)
    requires Plain(first) && Plain(second)
    ensures Supported(first + "\n" + second)
  {
    var text := first + "\n" + second;
    forall i | 0 <= i < |text| ensures SupportedAt(text, i) {
      if i < |first| {
        assert text[i] == first[i];
      } else if i > |first| {
        assert text[i] == second[i - |first| - 1];
      }
    }
  }

  lemma BomIsPlain(line: string)
    requires Plain(line)
    ensures Plain([BOM] + line) && ([BOM] + line)[1..] == line && HasBom([BOM] + line)
  {
    var s := [BOM] + line;
    forall i | 0 <= i < |s| ensures !IsBoundary(s[i]) {
      if i > 0 {
        assert s[i] == line[i - 1];
      }
    }
  }

  lemma HidingSplits(a: string, x: string, b: string, y: string)
    requires IsKey(a) && IsKey(b) && IsValue(x) && IsValue(y)
    ensures var file := HidingFile(a, x, b, y);
            && !HasBom(file) && Supported(file)
            && Units(file) == FileUnits(file) == HidingUnits(a, x, b, y)
  {
    hide IsKey, IsValue, Supported, Units, Plain;
    AssignmentIsPlain(a, x);
    AssignmentIsPlain(b, y);
    BomIsPlain(Line(b, y));
    TwoUnits(Line(a, x), [BOM] + Line(b, y));
    TwoUnitsSupported(Line(a, x), [BOM] + Line(b, y));
    LineNoBom(a, x);
    assert HidingFile(a, x, b, y)[0] == Line(a, x)[0];
  }

  lemma FirstOwns(u: Unit, v: Unit, key: string)
    requires Classify(u.content) == Owned(key, false) && Classify(v.content) == Unowned
    ensures Owners([u, v], key, false) == [0] && Owners([u, v], key, true) == []
  {
    hide Classify;
    var units := [u, v];
    assert units[..1] == [u] && [u][..0] == [];
    assert Owners([u], key, false) == [0] && Owners([u], key, true) == [];
  }

  lemma AssignmentOwner(key: string, value: string)
    requires IsKey(key) && IsValue(value)
    ensures Classify(Line(key, value)) == Owned(key, false)
  {
    AssignmentIsPlain(key, value);
    AssignmentReads(key, value);
    ClassifyMirrors(Line(key, value), key);
  }

  lemma HiddenOwner(line: string)
    requires HasBom(line)
    ensures Classify(line) == Unowned
  {
    HiddenLine(line);
    if Classify(line).Owned? {
      ClassifyMirrors(line, Classify(line).key);
    }
  }

  lemma TwoRead(u: Unit, v: Unit)
    requires Regular([u, v]) && !HasBom(Render([u, v]))
    requires ParseLine(u.content).Assign? && ParseLine(v.content).Nothing?
    ensures Parse(Render([u, v])).Ok?
  {
    hide ParseLine, Parse, Regular, Render;
    UnitsRead([u, v], false);
    assert "" + Render([u, v]) == Render([u, v]);
  }

  /** For every two assignments: deleting the first makes the second readable, which it was not before. */
  lemma DeletionCanMisread(a: string, x: string, b: string, y: string)
    requires IsKey(a) && IsKey(b) && IsValue(x) && IsValue(y)
    ensures var file := HidingFile(a, x, b, y);
            && Editable(file) && MakePlan(FileUnits(file), Delete, a, "").Edited?
            && Misreads(file, Delete, a)
  {
    hide Parse, ParseLine, Owners, Regular, FileUnits, Render, Supported, AppendUnit, IsKey, IsValue, Classify, Line, HidingFile,
         Units;
    var file, units := HidingFile(a, x, b, y), HidingUnits(a, x, b, y);
    HidingSplits(a, x, b, y);
    AssignmentReads(a, x);
    AssignmentReads(b, y);
    AssignmentOwner(a, x);
    var hidden := [BOM] + Line(b, y);
    assert HasBom(hidden) && hidden[1..] == Line(b, y);
    HiddenLine(hidden);
    HiddenOwner(hidden);
    FirstOwns(units[0], units[1], a);
    RenderOfFileUnits(file);
    UnitsRegular(file);
    RenderOfUnits(file);
    assert Line(a, x) == a + "=" + x && Line(b, y) == b + "=" + y by {
      LineIs(a, x);
      LineIs(b, y);
    }
    TwoRead(units[0], units[1]);
    assert units[2..] == [];
  }

  lemma LineIs(key: string, value: string)
    ensures Line(key, value) == key + "=" + value
  {
  }
}
