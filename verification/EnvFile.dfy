/**
 The private env file: the reader's grammar, the writer's line units, and what editing one unit
 does to the map the reader sees.  A file is the text its UTF-8 bytes decode to; a byte-order mark
 is a leading U+FEFF.
 */
module EnvFile {
  import opened Chars

  const BOM := '\U{FEFF}'

  // ---------------------------------------------------------------- characters

  /** Characters the reader breaks lines at. */
  predicate IsBoundary(c: char) {
    var n := c as int;
    10 <= n <= 13 || 28 <= n <= 30 || n == 0x85 || n == 0x2028 || n == 0x2029
  }

  predicate IsLetter(c: char) {
    'A' <= c <= 'Z' || 'a' <= c <= 'z' || c == '_'
  }

  predicate IsKey(s: string) {
    s != "" && IsLetter(s[0]) && forall i :: 0 <= i < |s| ==> IsLetter(s[i]) || '0' <= s[i] <= '9'
  }

  function TrimLeft(s: string): string {
    if s != "" && IsSpace(s[0]) then TrimLeft(s[1..]) else s
  }

  function TrimRight(s: string): string {
    if s != "" && IsSpace(s[|s| - 1]) then TrimRight(s[..|s| - 1]) else s
  }

  function Strip(s: string): string {
    TrimRight(TrimLeft(s))
  }

  /** Position of the first character satisfying a test; the length when there is none. */
  function Find(s: string, c: char): (n: nat)
    ensures n <= |s| && (n < |s| ==> s[n] == c) && forall i :: 0 <= i < n ==> s[i] != c
  {
    if s == "" || s[0] == c then 0 else 1 + Find(s[1..], c)
  }

  // ---------------------------------------------------------------- one line

  datatype Line = Nothing | Assign(key: string, value: string) | Invalid(key: string)

  function Unquote(v: string): string {
    if |v| >= 2 && v[0] == v[|v| - 1] && (v[0] == '\'' || v[0] == '\"') then v[1..|v| - 1] else v
  }

  predicate HasNul(v: string) {
    exists i :: 0 <= i < |v| && (v[i] == '\0' || v[i] == '\r' || v[i] == '\n')
  }

  predicate IsExport(line: string) {
    "export " <= line
  }

  /** The assignment part of a stripped line. */
  function Body(line: string): string {
    if IsExport(line) then Strip(line[7..]) else line
  }

  predicate Ignored(line: string) {
    line == "" || line[0] == '#' || line[0] == ';'
  }

  /** What the reader makes of one line. */
  function ParseLine(raw: string): Line {
    var line := Strip(raw);
    if Ignored(line) then Nothing
    else
      var body := Body(line);
      var eq := Find(body, '=');
      if eq == |body| || !IsKey(Strip(body[..eq])) then Nothing
      else
        var value := Unquote(Strip(body[eq + 1..]));
        if HasNul(value) then Invalid(Strip(body[..eq])) else Assign(Strip(body[..eq]), value)
  }

  datatype Owner = Unowned | Owned(key: string, exported: bool)

  /** The writer's classification of one unit. */
  function Classify(content: string): Owner {
    var line := Strip(content);
    if Ignored(line) then Unowned
    else
      var body := Body(line);
      var eq := Find(body, '=');
      if eq == |body| || !IsKey(Strip(body[..eq])) then Unowned else Owned(Strip(body[..eq]), IsExport(line))
  }

  predicate Sets(l: Line, key: string) {
    !l.Nothing? && l.key == key
  }

  /** Writer and reader agree on which key a line belongs to. */
  lemma ClassifyMirrors(content: string, key: string)
    ensures Sets(ParseLine(content), key) <==> Classify(content).Owned? && Classify(content).key == key
  {
  }

  // ---------------------------------------------------------------- the reader

  datatype Parsed = Ok(values: map<string, string>) | Failed

  /** Later assignments win; one invalid value fails the whole file. */
  function ParseLines(lines: seq<string>, acc: map<string, string>): Parsed {
    if lines == [] then Ok(acc)
    else
      match ParseLine(lines[0])
      case Nothing => ParseLines(lines[1..], acc)
      case Assign(k, v) => ParseLines(lines[1..], acc[k := v])
      case Invalid(_) => Failed
  }

  function FirstBoundary(s: string): (n: nat)
    ensures n <= |s| && (n < |s| ==> IsBoundary(s[n])) && forall i :: 0 <= i < n ==> !IsBoundary(s[i])
  {
    if s == "" || IsBoundary(s[0]) then 0 else 1 + FirstBoundary(s[1..])
  }

  /** Line splitting at every boundary the reader honours; CR LF is one boundary. */
  function SplitLines(s: string): seq<string> {
    if s == "" then []
    else
      var n := FirstBoundary(s);
      if n == |s| then [s]
      else if s[n] == '\r' && n + 1 < |s| && s[n + 1] == '\n' then [s[..n]] + SplitLines(s[n + 2..])
      else [s[..n]] + SplitLines(s[n + 1..])
  }

  predicate HasBom(file: string) {
    file != "" && file[0] == BOM
  }

  function Text(file: string): string {
    if HasBom(file) then file[1..] else file
  }

  function Parse(file: string): Parsed {
    ParseLines(SplitLines(Text(file)), map[])
  }

  /** The reader's loop over the lines of a file. */
  method ReadEnv(file: string) returns (r: Parsed)
    ensures r == Parse(file)
  {
    var lines := SplitLines(Text(file));
    var values: map<string, string> := map[];
    var i := 0;
    assert lines[0..] == lines;
    while i < |lines|
      invariant 0 <= i <= |lines|
      invariant ParseLines(lines, map[]) == ParseLines(lines[i..], values)
    {
      assert lines[i..][1..] == lines[i + 1..];
      match ParseLine(lines[i]) {
        case Nothing =>
        case Assign(k, v) => values := values[k := v];
        case Invalid(_) => return Failed;
      }
      i := i + 1;
    }
    assert lines[i..] == [];
    r := Ok(values);
  }

  // ---------------------------------------------------------------- the writer's units

  datatype Unit = Unit(content: string, term: string)

  function Units(text: string): seq<Unit> {
    var n := Find(text, '\n');
    if n == |text| then [Unit(text, "")]
    else [UnitOf(text[..n])] + Units(text[n + 1..])
  }

  /** The unit of a part that was followed by a line feed. */
  function UnitOf(part: string): Unit {
    if part != "" && part[|part| - 1] == '\r' then Unit(part[..|part| - 1], "\r\n") else Unit(part, "\n")
  }

  function FileUnits(file: string): seq<Unit> {
    if Text(file) == "" then [] else Units(Text(file))
  }

  function Render(units: seq<Unit>): string {
    if units == [] then "" else units[0].content + units[0].term + Render(units[1..])
  }

  function RenderFile(units: seq<Unit>, bom: bool): string {
    (if bom then [BOM] else "") + Render(units)
  }

  function Parts(text: string): (p: seq<string>)
    ensures |p| > 0
  {
    var n := Find(text, '\n');
    if n == |text| then [text] else [text[..n]] + Parts(text[n + 1..])
  }

  function UnitsOfParts(parts: seq<string>): seq<Unit>
    requires parts != []
  {
    if |parts| == 1 then [Unit(parts[0], "")] else [UnitOf(parts[0])] + UnitsOfParts(parts[1..])
  }

  lemma {:induction false} UnitsAreParts(text: string)
    ensures UnitsOfParts(Parts(text)) == Units(text)
  {
    var n := Find(text, '\n');
    if n < |text| {
      UnitsAreParts(text[n + 1..]);
      assert Parts(text)[1..] == Parts(text[n + 1..]);
    }
  }

  /** The writer's loop over the parts between line feeds. */
  method SplitLineUnits(file: string) returns (units: seq<Unit>, bom: bool)
    ensures units == FileUnits(file) && bom == HasBom(file)
  {
    bom := HasBom(file);
    units := [];
    var text := Text(file);
    if text == "" {
      return;
    }
    var parts := Parts(text);
    UnitsAreParts(text);
    var i := 0;
    assert parts[0..] == parts;
    while i < |parts|
      invariant 0 <= i <= |parts|
      invariant i < |parts| ==> UnitsOfParts(parts) == units + UnitsOfParts(parts[i..])
      invariant i == |parts| ==> UnitsOfParts(parts) == units
    {
      ghost var before := units;
      if i == |parts| - 1 {
        units := units + [Unit(parts[i], "")];
        assert parts[i..] == [parts[i]];
      } else {
        units := units + [UnitOf(parts[i])];
        assert parts[i..][1..] == parts[i + 1..];
        assert before + ([UnitOf(parts[i])] + UnitsOfParts(parts[i + 1..])) == units + UnitsOfParts(parts[i + 1..]);
      }
      i := i + 1;
    }
  }

  /** Splitting loses nothing: on every file, whatever boundaries it holds. */
  lemma {:induction false} RenderOfUnits(text: string)
    ensures Render(Units(text)) == text
  {
    var n := Find(text, '\n');
    if n == |text| {
      assert Units(text)[1..] == [];
    } else {
      RenderOfUnits(text[n + 1..]);
      assert Units(text)[1..] == Units(text[n + 1..]);
      UnitText(text[..n]);
      assert text == text[..n] + "\n" + text[n + 1..];
    }
  }

  lemma UnitText(part: string)
    ensures UnitOf(part).content + UnitOf(part).term == part + "\n"
  {
    if part != "" && part[|part| - 1] == '\r' {
      assert part == part[..|part| - 1] + "\r";
      assert "\r\n" == "\r" + "\n";
    }
  }

  lemma RenderOfFileUnits(file: string)
    ensures RenderFile(FileUnits(file), HasBom(file)) == file
  {
    if Text(file) != "" {
      RenderOfUnits(Text(file));
    }
  }

  // ---------------------------------------------------------------- reading what was rendered

  predicate Plain(s: string) {
    forall i :: 0 <= i < |s| ==> !IsBoundary(s[i])
  }

  /** Units the reader sees as one line each. */
  predicate Regular(units: seq<Unit>) {
    forall i :: 0 <= i < |units| ==>
      && Plain(units[i].content)
      && (units[i].term == "\n" || units[i].term == "\r\n" || (units[i].term == "" && i == |units| - 1))
  }

  function Contents(units: seq<Unit>): (c: seq<string>)
    ensures |c| == |units| && forall i :: 0 <= i < |c| ==> c[i] == units[i].content
  {
    if units == [] then [] else [units[0].content] + Contents(units[1..])
  }

  /** Texts whose only boundaries are LF and CR LF. */
  predicate Supported(text: string) {
    forall i :: 0 <= i < |text| ==> SupportedAt(text, i)
  }

  predicate SupportedAt(text: string, i: nat)
    requires i < |text|
  {
    IsBoundary(text[i]) ==> text[i] == '\n' || (text[i] == '\r' && i + 1 < |text| && text[i + 1] == '\n')
  }

  lemma {:induction false} UnitsRegular(text: string)
    requires Supported(text)
    ensures Regular(Units(text))
  {
    var n := Find(text, '\n');
    if n < |text| {
      var rest := text[n + 1..];
      forall i | 0 <= i < |rest| ensures SupportedAt(rest, i) {
        assert SupportedAt(text, n + 1 + i);
      }
      UnitsRegular(rest);
      var u := UnitOf(text[..n]);
      forall i | 0 <= i < |u.content| ensures !IsBoundary(u.content[i]) {
        assert u.content[i] == text[i] && text[i] != '\n';
        assert SupportedAt(text, i);
      }
    } else {
      forall i | 0 <= i < |text| ensures !IsBoundary(text[i]) {
        assert SupportedAt(text, i) && text[i] != '\n';
      }
    }
  }

  lemma FirstBoundaryAt(s: string, n: nat)
    requires n < |s| && IsBoundary(s[n]) && forall i :: 0 <= i < n ==> !IsBoundary(s[i])
    ensures FirstBoundary(s) == n
  {
  }

  lemma SplitFirst(content: string, term: string, rest: string)
    requires Plain(content) && (term == "\n" || term == "\r\n")
    ensures SplitLines(content + term + rest) == [content] + SplitLines(rest)
  {
    var s := content + term + rest;
    var n := |content|;
    assert s[n] == term[0];
    forall i | 0 <= i < n ensures !IsBoundary(s[i]) {
      assert s[i] == content[i];
    }
    FirstBoundaryAt(s, n);
    assert s[..n] == content;
    if term == "\n" {
      assert s[n + 1..] == rest;
    } else {
      assert s[n + 1] == '\n' && s[n + 2..] == rest;
    }
  }

  lemma BlankLine(acc: map<string, string>)
    ensures ParseLine("") == Nothing
    ensures ParseLines([""], acc) == Ok(acc)
  {
    assert [""][1..] == [];
  }

  /** The reader sees exactly the contents of regular units, one line each. */
  lemma {:induction false} ParseRendered(units: seq<Unit>, acc: map<string, string>)
    requires Regular(units)
    ensures ParseLines(SplitLines(Render(units)), acc) == ParseLines(Contents(units), acc)
  {
    if units != [] {
      var u, rest := units[0], units[1..];
      assert Regular(rest);
      if u.term == "" {
        assert rest == [] && Render(units) == u.content;
        assert Contents(units) == [u.content];
        if u.content == "" {
          BlankLine(acc);
        } else {
          assert FirstBoundary(u.content) == |u.content|;
        }
      } else {
        SplitFirst(u.content, u.term, Render(rest));
        var lines := SplitLines(Render(rest));
        assert ([u.content] + lines)[1..] == lines && (Contents(units))[1..] == Contents(rest);
        match ParseLine(u.content) {
          case Nothing => ParseRendered(rest, acc);
          case Assign(k, v) => ParseRendered(rest, acc[k := v]);
          case Invalid(_) =>
        }
      }
    }
  }
}
