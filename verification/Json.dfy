/**
 JSON as the control plane writes and reads it: the compact ASCII writer (string escaping per
 section 7 of RFC 8259, non-BMP characters as surrogate pairs) and a reader that also accepts
 insignificant white space, every escape form and fractional numbers, and reports a repeated
 member name.  The main results are that reading inverts writing and that writing is injective.
 */
module Json {
  import opened Decimal

  datatype Json =
    | Null
    | Bool(b: bool)
    | Int(i: int)
    | Real(text: string)          // a number with a fraction or an exponent; read, never written
    | Str(s: string)
    | Arr(items: seq<Json>)
    | Obj(fields: seq<Field>)

  datatype Field = Field(key: string, value: Json)

  // ---------------------------------------------------------------- writer

  function HexDigit(d: nat): (c: char)
    requires d < 16
    ensures HexValue(c) == d
  {
    if d < 10 then ('0' as int + d) as char else ('a' as int + (d - 10)) as char
  }

  /** Value of a hexadecimal digit of either case; 16 for any other character. */
  function HexValue(c: char): (d: nat)
    ensures d <= 16
  {
    if '0' <= c <= '9' then c as int - '0' as int
    else if 'a' <= c <= 'f' then c as int - 'a' as int + 10
    else if 'A' <= c <= 'F' then c as int - 'A' as int + 10
    else 16
  }

  function Unit(u: nat): (s: string)
    requires u < 0x1_0000
    ensures |s| == 6 && s[0] == '\\' && s[1] == 'u'
  {
    ['\\', 'u', HexDigit(u / 4096), HexDigit(u / 256 % 16), HexDigit(u / 16 % 16), HexDigit(u % 16)]
  }

  /** The letter of the two-character escape of `c`, or a blank when there is none. */
  function ShortEscape(c: char): char {
    if c == '\"' then '\"'
    else if c == '\\' then '\\'
    else if c == '\n' then 'n'
    else if c == '\r' then 'r'
    else if c == '\t' then 't'
    else if c as int == 8 then 'b'
    else if c as int == 12 then 'f'
    else ' '
  }

  function EscapeChar(c: char): (s: string)
    ensures |s| > 0
  {
    if ShortEscape(c) != ' ' then ['\\', ShortEscape(c)]
    else if ' ' <= c <= '~' then [c]
    else if c as int < 0x1_0000 then Unit(c as int)
    else Unit(0xD800 + (c as int - 0x1_0000) / 1024) + Unit(0xDC00 + (c as int - 0x1_0000) % 1024)
  }

  function Escape(s: string): string {
    if s == "" then "" else EscapeChar(s[0]) + Escape(s[1..])
  }

  function Quote(s: string): string {
    "\"" + Escape(s) + "\""
  }

  function PrintInt(i: int): string {
    if i < 0 then "-" + Print(-i) else Print(i)
  }

  function Dumps(v: Json): string
    decreases v, 1
  {
    match v
    case Null => "null"
    case Bool(b) => if b then "true" else "false"
    case Int(i) => PrintInt(i)
    case Real(t) => t
    case Str(s) => Quote(s)
    case Arr(items) => if items == [] then "[]" else "[" + DumpsItems(items) + "]"
    case Obj(fields) => if fields == [] then "{}" else "{" + DumpsFields(fields) + "}"
  }

  function DumpsItems(items: seq<Json>): string
    requires items != []
    decreases items, 0
  {
    Dumps(items[0]) + if |items| == 1 then "" else "," + DumpsItems(items[1..])
  }

  function DumpsFields(fields: seq<Field>): string
    requires fields != []
    decreases fields, 0
  {
    Quote(fields[0].key) + ":" + Dumps(fields[0].value)
    + if |fields| == 1 then "" else "," + DumpsFields(fields[1..])
  }

  // ---------------------------------------------------------------- reader

  datatype Read<+T> = Ok(value: T, rest: string) | Malformed | DuplicateKey

  predicate IsSpace(c: char) {
    c == ' ' || c == '\t' || c == '\n' || c == '\r'
  }

  function SkipSpace(s: string): (r: string)
    ensures |r| <= |s|
  {
    if s != "" && IsSpace(s[0]) then SkipSpace(s[1..]) else s
  }

  /** A four-digit unit after `\u`, or 0x1_0000 when the text is not one. */
  function ReadUnit(s: string): nat {
    if |s| < 4 || HexValue(s[0]) == 16 || HexValue(s[1]) == 16 || HexValue(s[2]) == 16 || HexValue(s[3]) == 16 then
      0x1_0000
    else
      4096 * HexValue(s[0]) + 256 * HexValue(s[1]) + 16 * HexValue(s[2]) + HexValue(s[3])
  }

  /** The character denoted by the text after `\u`. */
  function ReadUnicode(s: string): (r: Read<char>)
    ensures r.Ok? ==> |r.rest| < |s|
  {
    var u := ReadUnit(s);
    if u == 0x1_0000 then Malformed
    else if u < 0xD800 || 0xE000 <= u then Ok(u as char, s[4..])
    else if u < 0xDC00 && |s| >= 10 && s[4] == '\\' && s[5] == 'u' && 0xDC00 <= ReadUnit(s[6..]) < 0xE000 then
      Ok((0x1_0000 + (u - 0xD800) * 1024 + (ReadUnit(s[6..]) - 0xDC00)) as char, s[10..])
    else Malformed
  }

  /** The character a two-character escape denotes, or a blank for an unknown letter. */
  function ShortMeaning(x: char): char {
    if x == '\"' || x == '\\' || x == '/' then x
    else if x == 'n' then '\n'
    else if x == 'r' then '\r'
    else if x == 't' then '\t'
    else if x == 'b' then 8 as char
    else if x == 'f' then 12 as char
    else ' '
  }

  /** One character of a string body; `Malformed` also for a lone surrogate, which no character denotes. */
  function ReadChar(s: string): (r: Read<char>)
    requires s != ""
    ensures r.Ok? ==> |r.rest| < |s|
  {
    if (s[0] as int) < 0x20 then Malformed
    else if s[0] != '\\' then Ok(s[0], s[1..])
    else if |s| < 2 then Malformed
    else if s[1] == 'u' then ReadUnicode(s[2..])
    else if ShortMeaning(s[1]) == ' ' then Malformed
    else Ok(ShortMeaning(s[1]), s[2..])
  }

  /** The body of a string, from after the opening quote to after the closing one. */
  function ReadString(s: string): (r: Read<string>)
    ensures r.Ok? ==> |r.rest| < |s|
    decreases |s|
  {
    if s == "" then Malformed
    else if s[0] == '\"' then Ok("", s[1..])
    else
      match ReadChar(s)
      case Ok(c, t) => (
        match ReadString(t)
        case Ok(tail, rest) => Ok([c] + tail, rest)
        case _ => Malformed
      )
      case _ => Malformed
  }

  /** Number of leading digits. */
  function DigitRun(s: string): (n: nat)
    ensures n <= |s| && AllDigits(s[..n]) && (n < |s| ==> !IsDigit(s[n]))
  {
    if s == "" || !IsDigit(s[0]) then 0
    else
      var n := 1 + DigitRun(s[1..]);
      assert s[..n] == [s[0]] + s[1..][..n - 1];
      n
  }

  /** Length of a fraction and exponent at the start of `s`. */
  function FractionLength(s: string): (n: nat)
    ensures n <= |s|
  {
    var f := if |s| > 1 && s[0] == '.' && IsDigit(s[1]) then 1 + DigitRun(s[1..]) else 0;
    var t := s[f..];
    var sign := if |t| > 1 && t[0] in "eE" && t[1] in "+-" then 2 else 1;
    if |t| > sign && t[0] in "eE" && IsDigit(t[sign]) then f + sign + DigitRun(t[sign..]) else f
  }

  /** Length of the integer part: a lone zero, or a run that does not start with one. */
  function IntegerLength(s: string): (n: nat)
    ensures n <= |s| && AllDigits(s[..n])
  {
    var run := DigitRun(s);
    if run > 0 && s[0] == '0' then 1 else run
  }

  function ReadNumber(s: string): (r: Read<Json>)
    ensures r.Ok? ==> |r.rest| < |s|
  {
    var negative := s != "" && s[0] == '-';
    var t := if negative then s[1..] else s;
    var n := IntegerLength(t);
    var f := FractionLength(t[n..]);
    if n == 0 then Malformed
    else if f > 0 then Ok(Real(s[..|s| - |t| + n + f]), t[n + f..])
    else
      var m: int := Value(t[..n]);
      Ok(Int(if negative then -m else m), t[n..])
  }

  function ReadScalar(s: string): (r: Read<Json>)
    ensures r.Ok? ==> |r.rest| < |s|
  {
    if s == "" then Malformed
    else if s[0] == '\"' then
      match ReadString(s[1..])
      case Ok(t, rest) => Ok(Str(t), rest)
      case _ => Malformed
    else if s[0] == 'n' && "null" <= s then Ok(Null, s[4..])
    else if s[0] == 't' && "true" <= s then Ok(Bool(true), s[4..])
    else if s[0] == 'f' && "false" <= s then Ok(Bool(false), s[5..])
    else ReadNumber(s)
  }

  function ReadValue(s: string): (r: Read<Json>)
    ensures r.Ok? ==> |r.rest| < |s|
    decreases |s|, 0
  {
    if s == "" then Malformed
    else if s[0] == '[' then
      var t := SkipSpace(s[1..]);
      if t != "" && t[0] == ']' then Ok(Arr([]), t[1..])
      else
        match ReadItems(t)
        case Ok(items, rest) => Ok(Arr(items), rest)
        case Malformed => Malformed
        case DuplicateKey => DuplicateKey
    else if s[0] == '{' then
      var t := SkipSpace(s[1..]);
      if t != "" && t[0] == '}' then Ok(Obj([]), t[1..])
      else
        match ReadFields(t)
        case Ok(fields, rest) => if DistinctKeys(fields) then Ok(Obj(fields), rest) else DuplicateKey
        case Malformed => Malformed
        case DuplicateKey => DuplicateKey
    else ReadScalar(s)
  }

  function ReadItems(s: string): (r: Read<seq<Json>>)
    ensures r.Ok? ==> |r.rest| < |s|
    decreases |s|, 1
  {
    match ReadValue(s)
    case Malformed => Malformed
    case DuplicateKey => DuplicateKey
    case Ok(v, rest) =>
      var t := SkipSpace(rest);
      if t != "" && t[0] == ']' then Ok([v], t[1..])
      else if t != "" && t[0] == ',' then
        match ReadItems(SkipSpace(t[1..]))
        case Ok(items, end) => Ok([v] + items, end)
        case Malformed => Malformed
        case DuplicateKey => DuplicateKey
      else Malformed
  }

  /** A member name, its colon and the white space around the colon. */
  function ReadKey(s: string): (r: Read<string>)
    ensures r.Ok? ==> |r.rest| < |s|
  {
    if s == "" || s[0] != '\"' then Malformed
    else
      match ReadString(s[1..])
      case Ok(k, afterKey) =>
        var colon := SkipSpace(afterKey);
        if colon == "" || colon[0] != ':' then Malformed else Ok(k, SkipSpace(colon[1..]))
      case _ => Malformed
  }

  function ReadFields(s: string): (r: Read<seq<Field>>)
    ensures r.Ok? ==> |r.rest| < |s|
    decreases |s|, 1
  {
    match ReadKey(s)
    case Malformed => Malformed
    case DuplicateKey => Malformed
    case Ok(k, body) =>
      match ReadValue(body)
      case Malformed => Malformed
      case DuplicateKey => DuplicateKey
      case Ok(v, rest) =>
        var t := SkipSpace(rest);
        if t != "" && t[0] == '}' then Ok([Field(k, v)], t[1..])
        else if t != "" && t[0] == ',' then
          match ReadFields(SkipSpace(t[1..]))
          case Ok(fields, end) => Ok([Field(k, v)] + fields, end)
          case Malformed => Malformed
          case DuplicateKey => DuplicateKey
        else Malformed
  }

  /** The whole text is one value, white space around it allowed. */
  function Loads(s: string): Read<Json> {
    match ReadValue(SkipSpace(s))
    case Ok(v, rest) => if SkipSpace(rest) == "" then Ok(v, "") else Malformed
    case Malformed => Malformed
    case DuplicateKey => DuplicateKey
  }

  predicate DistinctKeys(fields: seq<Field>) {
    forall i, j :: 0 <= i < j < |fields| ==> fields[i].key != fields[j].key
  }

  /** Values the writer is used on: no fractional number, no repeated member name. */
  predicate WellFormed(v: Json)
    decreases v
  {
    match v
    case Real(_) => false
    case Arr(items) => forall i :: 0 <= i < |items| ==> WellFormed(items[i])
    case Obj(fields) => DistinctKeys(fields) && forall i :: 0 <= i < |fields| ==> WellFormed(fields[i].value)
    case _ => true
  }

  // ---------------------------------------------------------------- reading inverts writing

  lemma {:induction false} FourDigits(u: nat)
    requires u < 0x1_0000
    ensures u == 4096 * (u / 4096) + 256 * (u / 256 % 16) + 16 * (u / 16 % 16) + u % 16
  {
    var v, w := u / 16, u / 256;
    assert u == 16 * v + u % 16;
    assert v == 16 * w + v % 16;
    assert w == 16 * (u / 4096) + w % 16;
  }

  lemma {:induction false} ReadUnitOfUnit(u: nat, rest: string)
    requires u < 0x1_0000
    ensures ReadUnit(Unit(u)[2..] + rest) == u
  {
    var a, b, c, d := HexDigit(u / 4096), HexDigit(u / 256 % 16), HexDigit(u / 16 % 16), HexDigit(u % 16);
    var t := Unit(u)[2..] + rest;
    assert t[0] == a && t[1] == b && t[2] == c && t[3] == d;
    FourDigits(u);
  }

  lemma {:induction false} ReadUnicodeUnit(c: char, rest: string)
    requires c as int < 0x1_0000
    ensures ReadUnicode(Unit(c as int)[2..] + rest) == Ok(c, rest)
  {
    ReadUnitOfUnit(c as int, rest);
    assert (Unit(c as int)[2..] + rest)[4..] == rest;
  }

  lemma {:induction false} ReadSurrogates(hi: nat, lo: nat, rest: string)
    requires 0xD800 <= hi < 0xDC00 && 0xDC00 <= lo < 0xE000
    ensures ReadUnicode(Unit(hi)[2..] + Unit(lo) + rest)
         == Ok((0x1_0000 + (hi - 0xD800) * 1024 + (lo - 0xDC00)) as char, rest)
  {
    var s := Unit(hi)[2..] + Unit(lo) + rest;
    assert s == Unit(hi)[2..] + (Unit(lo) + rest);
    ReadUnitOfUnit(hi, Unit(lo) + rest);
    ReadUnitOfUnit(lo, rest);
    assert s[4] == '\\' && s[5] == 'u';
    assert s[6..] == Unit(lo)[2..] + rest;
    assert s[10..] == rest;
  }

  lemma {:induction false} ReadEscapedUnit(c: char, rest: string)
    requires c as int < 0x1_0000
    ensures ReadChar(Unit(c as int) + rest) == Ok(c, rest)
  {
    var e := Unit(c as int) + rest;
    ReadUnicodeUnit(c, rest);
    assert e[0] == '\\' && e[1] == 'u' && e[2..] == Unit(c as int)[2..] + rest;
  }

  lemma {:induction false} ReadEscapedPair(c: char, rest: string)
    requires c as int >= 0x1_0000
    ensures var n := c as int - 0x1_0000;
            ReadChar(Unit(0xD800 + n / 1024) + Unit(0xDC00 + n % 1024) + rest) == Ok(c, rest)
  {
    var n := c as int - 0x1_0000;
    var hi, lo := Unit(0xD800 + n / 1024), Unit(0xDC00 + n % 1024);
    ReadSurrogates(0xD800 + n / 1024, 0xDC00 + n % 1024, rest);
    var e := hi + lo + rest;
    assert e[0] == '\\' && e[1] == 'u' && e[2..] == hi[2..] + lo + rest;
  }

  lemma {:induction false} ReadEscapedChar(c: char, rest: string)
    ensures ReadChar(EscapeChar(c) + rest) == Ok(c, rest)
    ensures EscapeChar(c)[0] != '\"'
  {
    if ShortEscape(c) != ' ' {
      var e := EscapeChar(c) + rest;
      assert ShortMeaning(ShortEscape(c)) == c;
      assert e[0] == '\\' && e[1] == ShortEscape(c) && e[2..] == rest;
    } else if ' ' <= c <= '~' {
      var e := EscapeChar(c) + rest;
      assert e[0] == c && e[1..] == rest;
    } else if c as int < 0x1_0000 {
      ReadEscapedUnit(c, rest);
    } else {
      ReadEscapedPair(c, rest);
    }
  }

  lemma {:induction false} ReadEscaped(s: string, rest: string)
    ensures ReadString(Escape(s) + "\"" + rest) == Ok(s, rest)
  {
    var e := Escape(s) + "\"" + rest;
    if s == "" {
      assert e[0] == '\"' && e[1..] == rest;
    } else {
      var tail := Escape(s[1..]) + "\"" + rest;
      assert e == EscapeChar(s[0]) + tail;
      ReadEscapedChar(s[0], tail);
      ReadEscaped(s[1..], rest);
      assert [s[0]] + s[1..] == s;
    }
  }

  lemma {:induction false} ReadQuoted(s: string, rest: string)
    ensures var q := Quote(s) + rest; q[0] == '\"' && q[1..] == Escape(s) + "\"" + rest
    ensures ReadString(Escape(s) + "\"" + rest) == Ok(s, rest)
  {
    ReadEscaped(s, rest);
  }

  /** What may follow a value inside a document: nothing that could extend a number. */
  predicate Terminated(rest: string) {
    rest == "" || rest[0] == ',' || rest[0] == ']' || rest[0] == '}'
  }

  lemma {:induction false} DigitRunOf(s: string, rest: string)
    requires AllDigits(s) && Terminated(rest)
    ensures DigitRun(s + rest) == |s|
  {
    if s != "" {
      assert (s + rest)[1..] == s[1..] + rest;
      DigitRunOf(s[1..], rest);
    } else {
      assert s + rest == rest;
    }
  }

  lemma {:induction false} NoFraction(rest: string)
    requires Terminated(rest)
    ensures FractionLength(rest) == 0
  {
    assert rest[0..] == rest;
  }

  lemma {:induction false} PrintedLength(n: nat, rest: string)
    requires Terminated(rest)
    ensures var t := Print(n) + rest;
            IntegerLength(t) == |Print(n)| && t[..|Print(n)|] == Print(n) && t[|Print(n)|..] == rest
  {
    DigitRunOf(Print(n), rest);
    assert (Print(n) + rest)[0] == Print(n)[0];
  }

  lemma {:induction false} ReadPrintedNat(n: nat, rest: string)
    requires Terminated(rest)
    ensures ReadNumber(Print(n) + rest) == Ok(Int(n), rest)
    ensures ReadNumber("-" + Print(n) + rest) == Ok(Int(0 - n), rest)
  {
    PrintedLength(n, rest);
    ValueOfPrint(n);
    NoFraction(rest);
    var s := "-" + Print(n) + rest;
    assert s[0] == '-' && s[1..] == Print(n) + rest;
    assert (Print(n) + rest)[0] == Print(n)[0] != '-';
  }

  lemma {:induction false} ReadPrintedInt(i: int, rest: string)
    requires Terminated(rest)
    ensures ReadNumber(PrintInt(i) + rest) == Ok(Int(i), rest)
    ensures PrintInt(i)[0] == '-' || IsDigit(PrintInt(i)[0])
  {
    ReadPrintedNat(if i < 0 then -i else i, rest);
  }

  /** A first character of a value: no white space and no closing bracket. */
  predicate Opens(c: char) {
    !IsSpace(c) && c != ']' && c != '}'
  }

  lemma {:induction false} ReadBracketed(t: string)
    requires t != "" && Opens(t[0])
    ensures ReadValue("[" + t) == match ReadItems(t)
                                  case Ok(items, rest) => Ok(Arr(items), rest)
                                  case Malformed => Malformed
                                  case DuplicateKey => DuplicateKey
  {
    assert ("[" + t)[1..] == t;
  }

  lemma {:induction false} ReadBraced(t: string)
    requires t != "" && Opens(t[0])
    ensures ReadValue("{" + t) == match ReadFields(t)
                                  case Ok(fields, rest) => if DistinctKeys(fields) then Ok(Obj(fields), rest) else DuplicateKey
                                  case Malformed => Malformed
                                  case DuplicateKey => DuplicateKey
  {
    assert ("{" + t)[1..] == t;
  }

  lemma {:induction false} ReadNumeral(s: string)
    requires s != "" && (s[0] == '-' || IsDigit(s[0]))
    ensures ReadValue(s) == ReadScalar(s) == ReadNumber(s)
  {
  }

  lemma {:induction false} ReadWord(w: string, rest: string)
    requires w == "null" || w == "true" || w == "false"
    ensures ReadValue(w + rest) == Ok(if w == "null" then Null else Bool(w == "true"), rest)
  {
    var s := w + rest;
    assert w <= s && s[|w|..] == rest && s[0] == w[0];
  }

  lemma {:induction false} ReadText(t: string, rest: string)
    ensures ReadValue(Quote(t) + rest) == ReadScalar(Quote(t) + rest) == Ok(Str(t), rest)
  {
    ReadQuoted(t, rest);
  }

  lemma {:induction false} ReadEmpty(rest: string)
    ensures ReadValue("[]" + rest) == Ok(Arr([]), rest)
    ensures ReadValue("{}" + rest) == Ok(Obj([]), rest)
  {
    var s, t := "[]" + rest, "{}" + rest;
    assert s[1..][0] == ']' && s[1..][1..] == rest;
    assert t[1..][0] == '}' && t[1..][1..] == rest;
  }

  lemma {:induction false} ReadInt(i: int, rest: string)
    requires Terminated(rest)
    ensures ReadValue(PrintInt(i) + rest) == Ok(Int(i), rest)
    ensures PrintInt(i) != "" && Opens(PrintInt(i)[0])
  {
    ReadPrintedInt(i, rest);
    assert (PrintInt(i) + rest)[0] == PrintInt(i)[0];
    ReadNumeral(PrintInt(i) + rest);
  }

  lemma {:induction false} ReadAtom(v: Json, rest: string)
    requires v.Null? || v.Bool? || v.Int? || v.Str? || v == Arr([]) || v == Obj([])
    requires Terminated(rest)
    ensures ReadValue(Dumps(v) + rest) == Ok(v, rest)
    ensures Dumps(v) != "" && Opens(Dumps(v)[0])
  {
    match v
    case Null => ReadWord("null", rest);
    case Bool(b) => ReadWord(if b then "true" else "false", rest);
    case Int(i) => ReadInt(i, rest);
    case Str(t) => ReadText(t, rest);
    case Arr(_) => ReadEmpty(rest);
    case Obj(_) => ReadEmpty(rest);
  }

  lemma {:induction false} ReadArray(items: seq<Json>, rest: string)
    requires items != [] && ReadItems(DumpsItems(items) + "]" + rest) == Ok(items, rest)
    requires DumpsItems(items) != "" && Opens(DumpsItems(items)[0])
    ensures ReadValue(Dumps(Arr(items)) + rest) == Ok(Arr(items), rest)
  {
    var t := DumpsItems(items) + "]" + rest;
    assert Dumps(Arr(items)) + rest == "[" + t;
    ReadBracketed(t);
  }

  lemma {:induction false} ReadObject(fields: seq<Field>, rest: string)
    requires fields != [] && ReadFields(DumpsFields(fields) + "}" + rest) == Ok(fields, rest)
    requires DumpsFields(fields) != "" && Opens(DumpsFields(fields)[0]) && DistinctKeys(fields)
    ensures ReadValue(Dumps(Obj(fields)) + rest) == Ok(Obj(fields), rest)
  {
    var t := DumpsFields(fields) + "}" + rest;
    assert Dumps(Obj(fields)) + rest == "{" + t;
    ReadBraced(t);
  }

  lemma {:induction false} ReadDumps(v: Json, rest: string)
    requires WellFormed(v) && Terminated(rest)
    ensures ReadValue(Dumps(v) + rest) == Ok(v, rest)
    ensures Dumps(v) != "" && Opens(Dumps(v)[0])
    decreases v, 1
  {
    if v.Arr? && v.items != [] {
      ReadDumpsItems(v.items, rest);
      ReadArray(v.items, rest);
    } else if v.Obj? && v.fields != [] {
      ReadDumpsFields(v.fields, rest);
      ReadObject(v.fields, rest);
    } else {
      ReadAtom(v, rest);
    }
  }

  lemma {:induction false} ReadItem(v: Json, more: string)
    requires ReadValue(Dumps(v) + more) == Ok(v, more)
    requires more != "" && (more[0] == ']' || more[0] == ',')
    ensures ReadItems(Dumps(v) + more) ==
            if more[0] == ']' then Ok([v], more[1..])
            else match ReadItems(SkipSpace(more[1..]))
              case Ok(items, end) => Ok([v] + items, end)
              case Malformed => Malformed
              case DuplicateKey => DuplicateKey
  {
    assert SkipSpace(more) == more;
  }

  lemma {:induction false} ReadDumpsItems(items: seq<Json>, rest: string)
    requires items != [] && forall i :: 0 <= i < |items| ==> WellFormed(items[i])
    ensures ReadItems(DumpsItems(items) + "]" + rest) == Ok(items, rest)
    ensures DumpsItems(items) != "" && Opens(DumpsItems(items)[0])
    decreases items, 0
  {
    var s := DumpsItems(items) + "]" + rest;
    var more := if |items| == 1 then "]" + rest else "," + (DumpsItems(items[1..]) + "]" + rest);
    assert s == Dumps(items[0]) + more;
    ReadDumps(items[0], more);
    ReadItem(items[0], more);
    if |items| == 1 {
      assert more[1..] == rest;
      assert items == [items[0]];
    } else {
      ReadDumpsItems(items[1..], rest);
      assert more[1..] == DumpsItems(items[1..]) + "]" + rest;
      assert [items[0]] + items[1..] == items;
    }
  }

  lemma {:induction false} ReadWrittenKey(k: string, body: string)
    requires body != "" && !IsSpace(body[0])
    ensures ReadKey(Quote(k) + ":" + body) == Ok(k, body)
  {
    var after := ":" + body;
    assert Quote(k) + ":" + body == Quote(k) + after;
    ReadQuoted(k, after);
    assert after[0] == ':' && after[1..] == body;
    assert SkipSpace(after) == after && SkipSpace(body) == body;
  }

  lemma {:induction false} ReadMember(k: string, v: Json, more: string)
    requires ReadValue(Dumps(v) + more) == Ok(v, more)
    requires Dumps(v) != "" && Opens(Dumps(v)[0])
    requires more != "" && (more[0] == '}' || more[0] == ',')
    ensures ReadFields(Quote(k) + ":" + Dumps(v) + more) ==
            if more[0] == '}' then Ok([Field(k, v)], more[1..])
            else match ReadFields(SkipSpace(more[1..]))
              case Ok(fields, end) => Ok([Field(k, v)] + fields, end)
              case Malformed => Malformed
              case DuplicateKey => DuplicateKey
  {
    var body := Dumps(v) + more;
    ReadWrittenKey(k, body);
    assert Quote(k) + ":" + Dumps(v) + more == Quote(k) + ":" + body;
    assert SkipSpace(more) == more;
  }

  function AfterMember(fields: seq<Field>, rest: string): (s: string)
    requires fields != []
    ensures s != "" && (s[0] == '}' || s[0] == ',') && Terminated(s)
  {
    if |fields| == 1 then "}" + rest else "," + (DumpsFields(fields[1..]) + "}" + rest)
  }

  lemma {:induction false} DumpsFirstMember(fields: seq<Field>, rest: string)
    requires fields != []
    ensures DumpsFields(fields) + "}" + rest
         == Quote(fields[0].key) + ":" + Dumps(fields[0].value) + AfterMember(fields, rest)
  {
    var head := Quote(fields[0].key) + ":" + Dumps(fields[0].value);
    if |fields| == 1 {
      assert DumpsFields(fields) == head;
    } else {
      assert DumpsFields(fields) == head + ("," + DumpsFields(fields[1..]));
    }
  }

  lemma {:induction false} ReadDumpsFields(fields: seq<Field>, rest: string)
    requires fields != [] && forall i :: 0 <= i < |fields| ==> WellFormed(fields[i].value)
    ensures ReadFields(DumpsFields(fields) + "}" + rest) == Ok(fields, rest)
    ensures DumpsFields(fields) != "" && DumpsFields(fields)[0] == '\"'
    decreases fields, 0
  {
    hide ReadFields, ReadValue, Dumps, DumpsFields, Quote, Terminated, Opens, WellFormed, Escape;
    var f, more := fields[0], AfterMember(fields, rest);
    DumpsFirstMember(fields, rest);
    ReadDumps(f.value, more);
    ReadMember(f.key, f.value, more);
    FieldsOpen(fields);
    if |fields| == 1 {
      assert more[1..] == rest;
      assert fields == [f];
    } else {
      ReadDumpsFields(fields[1..], rest);
      assert more[1..] == DumpsFields(fields[1..]) + "}" + rest;
      assert SkipSpace(more[1..]) == more[1..];
      assert [f] + fields[1..] == fields;
    }
  }

  lemma {:induction false} FieldsOpen(fields: seq<Field>)
    requires fields != []
    ensures DumpsFields(fields) != "" && DumpsFields(fields)[0] == '\"'
  {
    DumpsFirstMember(fields, "");
  }

  /** Reading back a written value returns exactly that value. */
  lemma {:induction false} RoundTrip(v: Json)
    requires WellFormed(v)
    ensures Loads(Dumps(v)) == Ok(v, "")
  {
    ReadDumps(v, "");
    assert Dumps(v) + "" == Dumps(v);
  }

  /** Distinct values never share a text. */
  lemma {:induction false} DumpsInjective(v: Json, w: Json)
    requires WellFormed(v) && WellFormed(w) && Dumps(v) == Dumps(w)
    ensures v == w
  {
    RoundTrip(v);
    RoundTrip(w);
  }
}
