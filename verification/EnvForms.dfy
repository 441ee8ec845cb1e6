/** The lines an env file may hold, form by form: what the reader takes from each, and the writer's view of it. */
module EnvForms {
  import opened Chars
  import opened EnvFile
  import opened EnvEdit

  predicate Blank(s: string) {
    forall i :: 0 <= i < |s| ==> IsSpace(s[i])
  }

  predicate Trimmed(s: string) {
    s != "" && !IsSpace(s[0]) && !IsSpace(s[|s| - 1])
  }

  lemma {:induction false} TrimLeftPad(pad: string, s: string)
    requires Blank(pad) && (s == "" || !IsSpace(s[0]))
    ensures TrimLeft(pad + s) == s
  {
    if pad == "" {
      assert pad + s == s;
    } else {
      assert (pad + s)[1..] == pad[1..] + s;
      TrimLeftPad(pad[1..], s);
    }
  }

  lemma {:induction false} TrimRightPad(s: string, pad: string)
    requires Blank(pad) && (s == "" || !IsSpace(s[|s| - 1]))
    ensures TrimRight(s + pad) == s
  {
    if pad == "" {
      assert s + pad == s;
    } else {
      var n := |pad| - 1;
      assert (s + pad)[..|s + pad| - 1] == s + pad[..n];
      TrimRightPad(s, pad[..n]);
    }
  }

  lemma StripPads(lead: string, s: string, trail: string)
    requires Blank(lead) && Blank(trail) && Trimmed(s)
    ensures Strip(lead + s + trail) == s
  {
    assert lead + s + trail == lead + (s + trail);
    TrimLeftPad(lead, s + trail);
    TrimRightPad(s, trail);
  }

  lemma BlankStrips(s: string)
    requires Blank(s)
    ensures Strip(s) == ""
  {
    assert s + "" == s && "" + s == s;
    TrimLeftPad(s, "");
  }

  /** Blank lines and comments set nothing. */
  lemma NothingReads(lead: string, mark: char, rest: string)
    requires Blank(lead) && (mark == '#' || mark == ';')
    ensures ParseLine(lead) == Nothing && ParseLine(lead + [mark] + rest) == Nothing
    ensures Classify(lead) == Unowned && Classify(lead + [mark] + rest) == Unowned
  {
    BlankStrips(lead);
    assert lead + [mark] + rest == lead + ([mark] + rest);
    TrimLeftPad(lead, [mark] + rest);
    TrimRightKeepsFirst([mark] + rest);
  }

  // ---------------------------------------------------------------- assignments

  /** One assignment as it may be written. */
  datatype Form = Form(exported: bool, gap: string, key: string, before: string, after: string, quote: string, value: string)

  predicate Proper(f: Form) {
    && IsKey(f.key) && Blank(f.gap) && Blank(f.before) && Blank(f.after)
    && (f.quote == "" || f.quote == "'" || f.quote == "\"")
    && (f.quote == "" ==> Trimmed(f.value) && Unquote(f.value) == f.value)
    && !HasNul(f.value)
    && (!f.exported && f.key == "export" ==> f.before == "" || f.before[0] != ' ')
  }

  function Right(f: Form): string {
    f.quote + f.value + f.quote
  }

  function Sides(f: Form): string {
    f.key + f.before + "=" + f.after + Right(f)
  }

  function Line(f: Form): string {
    if f.exported then "export " + f.gap + Sides(f) else Sides(f)
  }

  lemma KeyTrimmed(key: string)
    requires IsKey(key)
    ensures Trimmed(key) && '=' !in key && !Ignored(key)
  {
  }

  lemma RightTrimmed(f: Form)
    requires Proper(f)
    ensures Trimmed(Right(f)) && Unquote(Right(f)) == f.value
  {
    if f.quote == "" {
      assert Right(f) == f.value;
    } else {
      var r := Right(f);
      assert r[0] == f.quote[0] == r[|r| - 1] && r[1..|r| - 1] == f.value;
    }
  }

  lemma SidesRead(f: Form)
    requires Proper(f)
    ensures var s := Sides(f);
            && Trimmed(s) && s[0] == f.key[0] && Find(s, '=') == |f.key + f.before|
            && Strip(s[..|f.key + f.before|]) == f.key && Strip(s[|f.key + f.before| + 1..]) == Right(f)
  {
    hide Strip, Unquote, HasNul, IsKey, Find, Right, Trimmed;
    var s, left := Sides(f), f.key + f.before;
    NoEquals(f);
    KeyTrimmed(f.key);
    RightTrimmed(f);
    Ends(s, f);
    assert s == left + ("=" + (f.after + Right(f)));
    assert s[|left|] == '=';
    forall i | 0 <= i < |left| ensures s[i] != '=' {
      if i < |f.key| {
        assert s[i] == f.key[i];
      } else {
        assert s[i] == f.before[i - |f.key|];
      }
    }
    FindAt(s, '=', |left|);
    assert s[..|left|] == left && s[|left| + 1..] == f.after + Right(f);
    StripPads("", f.key, f.before);
    StripPads(f.after, Right(f), "");
    assert "" + f.key + f.before == left && f.after + Right(f) + "" == f.after + Right(f);
  }

  lemma NoEquals(f: Form)
    requires Proper(f)
    ensures '=' !in f.key && '=' !in f.before
  {
  }

  lemma Ends(s: string, f: Form)
    requires s == Sides(f) && Trimmed(f.key) && Trimmed(Right(f))
    ensures Trimmed(s) && s[0] == f.key[0]
  {
    hide Right;
    assert s[|s| - 1] == Right(f)[|Right(f)| - 1];
  }

  lemma NotExported(f: Form)
    requires Proper(f) && !f.exported
    ensures !IsExport(Sides(f))
  {
    var s, word := Sides(f), "export ";
    assert word[0] == 'e' && word[1] == 'x' && word[2] == 'p' && word[3] == 'o' && word[4] == 'r' && word[5] == 't' && word[6] == ' ';
    assert forall i :: 0 <= i < |f.key| ==> s[i] == f.key[i];
    if |f.key| < 6 {
      KeyTooShort(f);
    } else {
      assert s[..6] == f.key[..6] && word[..6] == "export";
      assert |f.key| == 6 ==> f.key[..6] == f.key && s[6] == if f.before != "" then f.before[0] else '=';
    }
  }

  /** A blank or an equals sign follows a shorter key, where the word has a letter. */
  lemma KeyTooShort(f: Form)
    requires Proper(f) && |f.key| < 6
    ensures !("export " <= Sides(f))
  {
    var s, word, n := Sides(f), "export ", |f.key|;
    assert word[1] == 'x' && word[2] == 'p' && word[3] == 'o' && word[4] == 'r' && word[5] == 't';
    assert s[n] == if f.before != "" then f.before[0] else '=';
    assert f.before != "" ==> IsSpace(f.before[0]);
  }

  /** An assignment, exported or not, with blanks anywhere around its parts and a value in quotes or bare, sets
      its key to exactly its value, and the writer takes it for an assignment of that key. */
  lemma FormReads(f: Form, lead: string, trail: string)
    requires Proper(f) && Blank(lead) && Blank(trail)
    ensures ParseLine(lead + Line(f) + trail) == Assign(f.key, f.value)
    ensures Classify(lead + Line(f) + trail) == Owned(f.key, f.exported)
  {
    hide Strip, Find, Unquote, IsKey, HasNul;
    SidesRead(f);
    RightTrimmed(f);
    KeyLetter(f);
    if f.exported {
      var line, word := Line(f), "export ";
      assert line == word + (f.gap + Sides(f));
      assert line[7..] == f.gap + Sides(f) && line[0] == 'e' && line[|line| - 1] == Sides(f)[|Sides(f)| - 1];
      assert f.gap + Sides(f) + "" == f.gap + Sides(f);
      StripPads(f.gap, Sides(f), "");
    } else {
      NotExported(f);
    }
    StripPads(lead, Line(f), trail);
  }

  lemma KeyLetter(f: Form)
    requires Proper(f)
    ensures IsKey(f.key) && f.key[0] != '#' && f.key[0] != ';' && !HasNul(f.value)
    ensures !IsSpace('e')
  {
  }

  /** A line without an equals sign, or with something else than a key before it, sets nothing. */
  lemma OtherLinesSetNothing(raw: string)
    requires var body := Body(Strip(raw)); '=' !in body || !IsKey(Strip(body[..Find(body, '=')]))
    ensures ParseLine(raw) == Nothing && Classify(raw) == Unowned
  {
    hide Strip, IsKey;
    var body := Body(Strip(raw));
    if '=' !in body {
      assert Find(body, '=') == |body|;
    }
  }

  // ---------------------------------------------------------------- the terminator of an insertion

  /** An insertion ends its line as the file ends its lines: with CR LF where all do, with LF otherwise. */
  lemma {:induction false} TermCounted(units: seq<Unit>, term: string)
    ensures CountTerm(units, term) > 0 <==> exists i :: 0 <= i < |units| && units[i].term == term
  {
    if units != [] {
      TermCounted(units[1..], term);
      assert units == [units[0]] + units[1..];
      if exists i :: 0 <= i < |units| && units[i].term == term {
        var i :| 0 <= i < |units| && units[i].term == term;
        assert i > 0 ==> units[1..][i - 1].term == term;
      }
      if CountTerm(units[1..], term) > 0 {
        var i :| 0 <= i < |units[1..]| && units[1..][i].term == term;
        assert units[i + 1].term == term;
      }
    }
  }

  lemma TerminatorFollowsFile(units: seq<Unit>)
    ensures DominantTerm(units) == "\r\n" <==>
              (exists i :: 0 <= i < |units| && units[i].term == "\r\n") && forall i :: 0 <= i < |units| ==> units[i].term != "\n"
    ensures DominantTerm(units) == "\r\n" || DominantTerm(units) == "\n"
  {
    TermCounted(units, "\r\n");
    TermCounted(units, "\n");
  }
}
