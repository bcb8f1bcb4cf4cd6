/** The string scanners that repair a model's JSON before it is parsed. */
module JsonCleaners {

  // ----- unclosed brackets -----

  /** Where the scan is: the closers still owed, innermost last, and whether it is inside a quoted
      string, past a backslash. */
  datatype Scan = Scan(stack: string, inString: bool, escape: bool)

  const START := Scan("", false, false)

  function Step(s: Scan, c: char): Scan {
    if s.escape then s.(escape := false)
    else if c == '\\' && s.inString then s.(escape := true)
    else if c == '"' then s.(inString := !s.inString)
    else if s.inString then s
    else if c == '{' then s.(stack := s.stack + "}")
    else if c == '[' then s.(stack := s.stack + "]")
    else if (c == '}' || c == ']') && s.stack != "" && s.stack[|s.stack| - 1] == c then s.(stack := s.stack[..|s.stack| - 1])
    else s
  }

  function Scanned(s: Scan, content: string): Scan {
    if content == "" then s
    else Step(Scanned(s, content[..|content| - 1]), content[|content| - 1])
  }

  /** The closers of every bracket that content opens outside strings and does not close. */
  method ScanJsonStructure(content: string) returns (stack: string)
    ensures stack == Scanned(START, content).stack
  {
    stack := "";
    var inString, escape := false, false;
    for i := 0 to |content|
      invariant Scan(stack, inString, escape) == Scanned(START, content[..i])
    {
      assert content[..i + 1][..i] == content[..i];
      var c := content[i];
      if escape {
        escape := false;
      } else if c == '\\' && inString {
        escape := true;
      } else if c == '"' && !inString {
        inString := true;
      } else if c == '"' && inString {
        inString := false;
      } else if !inString {
        if c == '{' {
          stack := stack + "}";
        } else if c == '[' {
          stack := stack + "]";
        } else if (c == '}' || c == ']') && stack != "" && stack[|stack| - 1] == c {
          stack := stack[..|stack| - 1];
        }
      }
    }
    assert content[..|content|] == content;
  }

  function Reversed(s: string): string {
    if s == "" then "" else [s[|s| - 1]] + Reversed(s[..|s| - 1])
  }

  lemma {:induction false} ScannedOn(s: Scan, a: string, b: string)
    ensures Scanned(s, a + b) == Scanned(Scanned(s, a), b)
  {
    if b == "" {
      assert a + b == a;
    } else {
      assert (a + b)[..|a + b| - 1] == a + b[..|b| - 1];
      ScannedOn(s, a, b[..|b| - 1]);
    }
  }

  lemma {:induction false} ScannedFirst(s: Scan, b: string)
    requires b != ""
    ensures Scanned(s, b) == Scanned(Step(s, b[0]), b[1..])
  {
    assert b == b[..1] + b[1..];
    ScannedOn(s, b[..1], b[1..]);
    assert Scanned(s, b[..1]) == Step(Scanned(s, b[..1][..0]), b[0]);
  }

  predicate Closers(s: string) { forall i | 0 <= i < |s| :: s[i] == '}' || s[i] == ']' }

  lemma {:induction false} StackIsClosers(content: string)
    ensures Closers(Scanned(START, content).stack)
    ensures Scanned(START, content).escape ==> Scanned(START, content).inString
  {
    if content != "" {
      StackIsClosers(content[..|content| - 1]);
    }
  }

  lemma {:induction false} ClosersClose(s: Scan)
    requires Closers(s.stack) && !s.inString && !s.escape
    ensures Scanned(s, Reversed(s.stack)) == Scan("", false, false)
    decreases |s.stack|
  {
    if s.stack != "" {
      var front := s.stack[..|s.stack| - 1];
      var r := Reversed(s.stack);
      ScannedFirst(s, r);
      assert r[1..] == Reversed(front);
      assert Step(s, r[0]) == s.(stack := front);
      ClosersClose(s.(stack := front));
    }
  }

  /** A closer that does not close the innermost open bracket is passed over, as is any text that is no
      bracket and no quote. */
  lemma StrayIsPassedOver(content: string, c: char)
    requires var s := Scanned(START, content); !s.inString && !s.escape && (s.stack == "" || s.stack[|s.stack| - 1] != c)
    requires c !in "{[\""
    ensures Scanned(START, content + [c]) == Scanned(START, content)
  {
    assert (content + [c])[..|content|] == content;
  }

  /** Inside a string closers close nothing. */
  lemma {:induction false} ClosersSwallowed(s: Scan, closers: string)
    requires s.inString && Closers(closers)
    ensures Scanned(s, closers).inString && Scanned(s, closers).stack == s.stack
  {
    if closers != "" {
      ClosersSwallowed(s, closers[..|closers| - 1]);
    }
  }

  lemma {:induction false} ReversedClosers(s: string)
    requires Closers(s)
    ensures Closers(Reversed(s)) && |Reversed(s)| == |s|
  {
    if s != "" {
      ReversedClosers(s[..|s| - 1]);
    }
  }

  /** Appending the closers owed, innermost first, closes every bracket exactly when the content ends
      outside a string or owes none. */
  lemma {:induction false} AutoCloseBalances(content: string)
    ensures var s := Scanned(START, content);
      Scanned(START, content + Reversed(s.stack)).stack == "" <==> !s.inString || s.stack == ""
  {
    var s := Scanned(START, content);
    StackIsClosers(content);
    ScannedOn(START, content, Reversed(s.stack));
    if s.inString {
      ReversedClosers(s.stack);
      ClosersSwallowed(s, Reversed(s.stack));
    } else {
      ClosersClose(s);
    }
  }

  /** Such a text: a brace and the start of a string. Its closed form is still inside the string, and
      still owes the brace. */
  lemma AutoCloseFails()
    ensures var s := Scanned(START, "{\"");
      s.inString && Scanned(START, "{\"" + Reversed(s.stack)) == Scan("}", true, false)
  {
    ScannedFirst(START, "{\"");
    ScannedFirst(Scan("}", false, false), "\"");
    assert "{\""[1..] == "\"" && "\""[1..] == "";
    assert Scanned(START, "{\"") == Scan("}", true, false);
    assert Reversed("}") == "}";
    ScannedOn(START, "{\"", "}");
    ScannedFirst(Scan("}", true, false), "}");
  }

  lemma {:induction false} OnePerCharacter(s: Scan, suffix: string)
    ensures |Scanned(s, suffix).stack| + |suffix| >= |s.stack|
  {
    if suffix != "" {
      OnePerCharacter(s, suffix[..|suffix| - 1]);
    }
  }

  lemma {:induction false} OnlyTheClosers(s: Scan, suffix: string)
    requires !s.inString && !s.escape && |suffix| == |s.stack| && Scanned(s, suffix).stack == ""
    ensures suffix == Reversed(s.stack)
    decreases |suffix|
  {
    if suffix != "" {
      var t := Step(s, suffix[0]);
      ScannedFirst(s, suffix);
      OnePerCharacter(t, suffix[1..]);
      assert |t.stack| < |s.stack|;
      OnlyTheClosers(t, suffix[1..]);
      assert suffix == [suffix[0]] + suffix[1..];
    }
  }

  /** No shorter text closes every bracket, and outside a string no other text of that length. */
  lemma {:induction false} ShortestClose(content: string, suffix: string)
    requires Scanned(START, content + suffix).stack == ""
    ensures var s := Scanned(START, content);
      |suffix| >= |s.stack| && (|suffix| == |s.stack| && !s.inString ==> suffix == Reversed(s.stack))
  {
    var s := Scanned(START, content);
    ScannedOn(START, content, suffix);
    OnePerCharacter(s, suffix);
    StackIsClosers(content);
    if |suffix| == |s.stack| && !s.inString {
      OnlyTheClosers(s, suffix);
    }
  }

  /** Closes what content leaves open, unless it is valid JSON as it is. */
  method AutoCloseJson(content: string, valid: string -> bool) returns (closed: string)
    ensures content <= closed
    ensures content == "" || valid(content) ==> closed == content
    ensures content != "" && !valid(content) ==> closed == content + Reversed(Scanned(START, content).stack)
    ensures content != "" && !valid(content) && !Scanned(START, content).inString ==> Scanned(START, closed).stack == ""
  {
    if content == "" || valid(content) {
      return content;
    }
    AutoCloseBalances(content);
    var stack := ScanJsonStructure(content);
    closed := content + Reversed(stack);
  }

  // ----- what is owed -----

  /** Well-nested text: plain text, a quoted string, or a group in braces or brackets. */
  datatype Doc = Plain(text: string) | Str(body: string) | Group(braces: bool, items: seq<Doc>)

  /** No quote that is not escaped, and no backslash at the end. */
  predicate StringBody(s: string) {
    s == "" || (
      if s[0] == '\\' then |s| > 1 && StringBody(s[2..])
      else s[0] != '"' && StringBody(s[1..]))
  }

  predicate WellNested(d: Doc) {
    match d
    case Plain(text) => forall i | 0 <= i < |text| :: text[i] !in "{}[]\""
    case Str(body) => StringBody(body)
    case Group(_, items) => forall i | 0 <= i < |items| :: WellNested(items[i])
  }

  function Opener(braces: bool): string { if braces then "{" else "[" }

  function Closer(braces: bool): string { if braces then "}" else "]" }

  function Render(d: Doc): string {
    match d
    case Plain(text) => text
    case Str(body) => "\"" + body + "\""
    case Group(braces, items) => Opener(braces) + RenderAll(items) + Closer(braces)
  }

  function RenderAll(docs: seq<Doc>): string {
    if docs == [] then "" else RenderAll(docs[..|docs| - 1]) + Render(docs[|docs| - 1])
  }

  lemma {:induction false} PlainScans(text: string, s: Scan)
    requires WellNested(Plain(text)) && !s.inString && !s.escape
    ensures Scanned(s, text) == s
  {
    if text != "" {
      PlainScans(text[..|text| - 1], s);
    }
  }

  lemma {:induction false} BodyScans(body: string, s: Scan)
    requires StringBody(body) && s.inString && !s.escape
    ensures Scanned(s, body) == s
    decreases |body|
  {
    if body != "" {
      ScannedFirst(s, body);
      if body[0] == '\\' {
        ScannedFirst(s.(escape := true), body[1..]);
        assert body[1..][1..] == body[2..];
        BodyScans(body[2..], s);
      } else {
        BodyScans(body[1..], s);
      }
    }
  }

  lemma QuotedScans(body: string, s: Scan)
    requires StringBody(body) && !s.inString && !s.escape
    ensures Scanned(s, "\"" + body + "\"") == s
  {
    var t := s.(inString := true);
    ScannedFirst(s, "\"" + body + "\"");
    assert ("\"" + body + "\"")[1..] == body + "\"";
    BodyScans(body, t);
    ScannedOn(t, body, "\"");
    ScannedFirst(t, "\"");
  }

  lemma OpenerScans(s: Scan, braces: bool)
    requires !s.inString && !s.escape
    ensures Scanned(s, Opener(braces)) == s.(stack := s.stack + Closer(braces))
    ensures Scanned(s.(stack := s.stack + Closer(braces)), Closer(braces)) == s
  {
    ScannedFirst(s, Opener(braces));
    var t := s.(stack := s.stack + Closer(braces));
    ScannedFirst(t, Closer(braces));
    assert t.stack[..|s.stack|] == s.stack;
  }

  /** Well-nested text owes nothing, wherever it stands outside a string. */
  lemma {:induction false} WellNestedScans(d: Doc, s: Scan)
    requires WellNested(d) && !s.inString && !s.escape
    ensures Scanned(s, Render(d)) == s
  {
    match d
    case Plain(text) => PlainScans(text, s);
    case Str(body) => QuotedScans(body, s);
    case Group(braces, items) =>
      var t := s.(stack := s.stack + Closer(braces));
      OpenerScans(s, braces);
      AllScan(items, t);
      ScannedOn(s, Opener(braces) + RenderAll(items), Closer(braces));
      ScannedOn(s, Opener(braces), RenderAll(items));
  }

  lemma {:induction false} AllScan(docs: seq<Doc>, s: Scan)
    requires (forall i | 0 <= i < |docs| :: WellNested(docs[i])) && !s.inString && !s.escape
    ensures Scanned(s, RenderAll(docs)) == s
  {
    if docs != [] {
      var front, last := docs[..|docs| - 1], docs[|docs| - 1];
      AllScan(front, s);
      WellNestedScans(last, s);
      ScannedOn(s, RenderAll(front), Render(last));
    }
  }

  /** A group text was cut off in, with what it holds so far. */
  datatype Unfinished = Unfinished(braces: bool, items: seq<Doc>)

  function Cut(groups: seq<Unfinished>): string {
    if groups == [] then ""
    else
      var last := groups[|groups| - 1];
      Cut(groups[..|groups| - 1]) + Opener(last.braces) + RenderAll(last.items)
  }

  function Owed(groups: seq<Unfinished>): string {
    if groups == [] then "" else Owed(groups[..|groups| - 1]) + Closer(groups[|groups| - 1].braces)
  }

  /** Of text cut off inside groups the scan yields exactly the closers of those groups, outermost
      first. */
  lemma {:induction false} OwesItsGroups(before: seq<Doc>, groups: seq<Unfinished>)
    requires forall i | 0 <= i < |before| :: WellNested(before[i])
    requires forall g | 0 <= g < |groups| :: WellNested(Group(groups[g].braces, groups[g].items))
    ensures Scanned(START, RenderAll(before) + Cut(groups)) == Scan(Owed(groups), false, false)
    decreases |groups|
  {
    AllScan(before, START);
    ScannedOn(START, RenderAll(before), Cut(groups));
    if groups != [] {
      var front, last := groups[..|groups| - 1], groups[|groups| - 1];
      OwesItsGroups(before, front);
      ScannedOn(START, RenderAll(before), Cut(front));
      var s := Scan(Owed(front), false, false);
      OpenerScans(s, last.braces);
      assert WellNested(Group(last.braces, last.items));
      AllScan(last.items, s.(stack := s.stack + Closer(last.braces)));
      ScannedOn(START, Cut(front) + Opener(last.braces), RenderAll(last.items));
      ScannedOn(START, Cut(front), Opener(last.braces));
    }
  }

  // ----- literal escapes -----

  function EscapeReplacement(next: char): string {
    if next == 'n' then "\n" else if next == 't' then "\t" else ['\\', next]
  }

  /** content with the literal \n and \t outside quoted strings replaced. */
  function Fixed(content: string, inString: bool): string
    decreases |content|
  {
    if content == "" then ""
    else if inString && content[0] == '\\' && |content| > 1 then content[..2] + Fixed(content[2..], inString)
    else if content[0] == '"' then "\"" + Fixed(content[1..], !inString)
    else if !inString && content[0] == '\\' && |content| > 1 then EscapeReplacement(content[1]) + Fixed(content[2..], inString)
    else [content[0]] + Fixed(content[1..], inString)
  }

  /** The quoted strings of content, with their quotes, one after the other. */
  function Quoted(content: string, inString: bool): string
    decreases |content|
  {
    if content == "" then ""
    else if inString && content[0] == '\\' && |content| > 1 then content[..2] + Quoted(content[2..], inString)
    else if content[0] == '"' then "\"" + Quoted(content[1..], !inString)
    else if !inString && content[0] == '\\' && |content| > 1 then Quoted(content[2..], inString)
    else (if inString then [content[0]] else "") + Quoted(content[1..], inString)
  }

  /** How many characters the replacer takes at once, and what it makes of them. */
  function Taken(content: string): nat
    requires content != ""
  {
    if content[0] == '\\' && |content| > 1 then 2 else 1
  }

  function Made(content: string, inString: bool): string
    requires content != ""
  {
    if Taken(content) == 2 && !inString then EscapeReplacement(content[1]) else content[..Taken(content)]
  }

  function Then(content: string, inString: bool): bool
    requires content != ""
  {
    if content[0] == '"' then !inString else inString
  }

  lemma FixedTakes(content: string, inString: bool)
    requires content != ""
    ensures Fixed(content, inString) == Made(content, inString) + Fixed(content[Taken(content)..], Then(content, inString))
  {
    assert content[..1] == [content[0]];
  }

  method ReplaceEscapesOutsideStrings(content: string) returns (result: string)
    ensures result == Fixed(content, false)
  {
    result := "";
    var inString := false;
    var i := 0;
    while i < |content|
      invariant i <= |content|
      invariant result + Fixed(content[i..], inString) == Fixed(content, false)
    {
      var c := content[i];
      var hasNext := i + 1 < |content|;
      ghost var before, rest := result, content[i..];
      ghost var made, left := Made(rest, inString), Fixed(rest[Taken(rest)..], Then(rest, inString));
      FixedTakes(rest, inString);
      assert before + (made + left) == (before + made) + left;
      assert content[i + Taken(rest)..] == rest[Taken(rest)..];
      if inString && c == '\\' && hasNext {
        assert [c, content[i + 1]] == made;
        result := result + [c, content[i + 1]];
        i := i + 2;
      } else if c == '"' {
        assert [c] == made;
        inString := !inString;
        result := result + [c];
        i := i + 1;
      } else if !inString && c == '\\' && hasNext {
        result := result + EscapeReplacement(content[i + 1]);
        i := i + 2;
      } else {
        assert [c] == made;
        result := result + [c];
        i := i + 1;
      }
      assert result == before + made && left == Fixed(content[i..], inString);
    }
  }

  /** Taking what was made makes the same again. */
  lemma MadeAgain(content: string, inString: bool, rest: string)
    requires content != "" && (Taken(content) == 1 && content[0] == '\\' ==> rest == "")
    ensures var made := Made(content, inString);
      && Taken(made + rest) == |made| && Made(made + rest, inString) == made
      && Then(made + rest, inString) == Then(content, inString)
      && (made + rest)[Taken(made + rest)..] == rest
  {
    var made := Made(content, inString);
    assert (made + rest)[..|made|] == made;
    assert (made + rest)[|made|..] == rest;
    assert made[0] == (made + rest)[0];
  }

  /** Replacing escapes twice is replacing them once. */
  lemma {:induction false} FixedIdempotent(content: string, inString: bool)
    ensures Fixed(Fixed(content, inString), inString) == Fixed(content, inString)
    decreases |content|
  {
    if content != "" {
      var rest := content[Taken(content)..];
      var made := Made(content, inString);
      FixedTakes(content, inString);
      FixedIdempotent(rest, Then(content, inString));
      var fixedRest := Fixed(rest, Then(content, inString));
      MadeAgain(content, inString, fixedRest);
      FixedTakes(made + fixedRest, inString);
    }
  }

  lemma QuotedTakes(content: string, inString: bool)
    requires content != ""
    ensures Quoted(content, inString) ==
      (if inString || content[0] == '"' then content[..Taken(content)] else "") + Quoted(content[Taken(content)..], Then(content, inString))
  {
    assert content[..1] == [content[0]];
  }

  /** Every quoted string is copied as it is. */
  lemma {:induction false} FixedKeepsQuoted(content: string, inString: bool)
    ensures Quoted(Fixed(content, inString), inString) == Quoted(content, inString)
    decreases |content|
  {
    if content != "" {
      var rest := content[Taken(content)..];
      var made := Made(content, inString);
      FixedTakes(content, inString);
      FixedKeepsQuoted(rest, Then(content, inString));
      var fixedRest := Fixed(rest, Then(content, inString));
      MadeAgain(content, inString, fixedRest);
      QuotedTakes(content, inString);
      QuotedTakes(made + fixedRest, inString);
      assert (made + fixedRest)[..|made|] == made;
    }
  }

  /** Text without quotes and backslashes. */
  predicate Unescaped(s: string) { '"' !in s && '\\' !in s }

  lemma {:induction false} PlainStays(t: string, rest: string)
    requires Unescaped(t)
    ensures Fixed(t + rest, false) == t + Fixed(rest, false) && Quoted(t + rest, false) == Quoted(rest, false)
    decreases |t|
  {
    if t == "" {
      assert t + rest == rest;
    } else {
      assert (t + rest)[0] == t[0] && (t + rest)[1..] == t[1..] + rest;
      PlainStays(t[1..], rest);
      assert [t[0]] + (t[1..] + Fixed(rest, false)) == t + Fixed(rest, false);
    }
  }

  /** After plain text a literal \\n becomes a newline and a literal \\t a tab; any other escape stays. */
  lemma {:induction false} EscapeOutside(t: string, c: char, rest: string)
    requires Unescaped(t)
    ensures Fixed(t + ['\\', c] + rest, false) ==
      t + (if c == 'n' then "\n" else if c == 't' then "\t" else ['\\', c]) + Fixed(rest, false)
    ensures Quoted(t + ['\\', c] + rest, false) == Quoted(rest, false)
  {
    var content := ['\\', c] + rest;
    assert t + ['\\', c] + rest == t + content;
    assert content[2..] == rest;
    PlainStays(t, content);
  }

  /** Inside a string what the replacer takes at once stays, unless it is the closing quote. */
  lemma TakenStays(taken: string, rest: string)
    requires (|taken| == 1 && taken[0] != '"' && taken[0] != '\\') || (|taken| == 2 && taken[0] == '\\')
    ensures Fixed(taken + rest, true) == taken + Fixed(rest, true)
    ensures Quoted(taken + rest, true) == taken + Quoted(rest, true)
  {
    assert (taken + rest)[..|taken|] == taken && (taken + rest)[|taken|..] == rest;
    assert |taken| == 1 ==> taken == [taken[0]];
  }

  lemma Associates(a: string, b: string, c: string)
    ensures a + b + c == a + (b + c)
  {}

  /** A string's body and its closing quote. */
  lemma {:induction false} BodyStays(body: string, rest: string)
    requires StringBody(body)
    ensures Fixed(body + ("\"" + rest), true) == body + ("\"" + Fixed(rest, false))
    ensures Quoted(body + ("\"" + rest), true) == body + ("\"" + Quoted(rest, false))
    decreases |body|
  {
    if body == "" {
      assert ("\"" + rest)[1..] == rest;
      assert "" + ("\"" + rest) == "\"" + rest;
    } else {
      var n := if body[0] == '\\' then 2 else 1;
      var taken, left := body[..n], body[n..];
      assert body == taken + left;
      BodyStays(left, rest);
      TakenStays(taken, left + ("\"" + rest));
      Associates(taken, left, "\"" + rest);
      Associates(taken, left, "\"" + Fixed(rest, false));
      Associates(taken, left, "\"" + Quoted(rest, false));
    }
  }

  /** A quoted string after plain text stays as it is, escapes and all, and is among the quoted ones. */
  lemma {:induction false} StringStays(t: string, body: string, rest: string)
    requires Unescaped(t) && StringBody(body)
    ensures Fixed(t + ("\"" + (body + ("\"" + rest))), false) == t + ("\"" + (body + ("\"" + Fixed(rest, false))))
    ensures Quoted(t + ("\"" + (body + ("\"" + rest))), false) == "\"" + (body + ("\"" + Quoted(rest, false)))
  {
    var inner := body + ("\"" + rest);
    assert ("\"" + inner)[1..] == inner;
    PlainStays(t, "\"" + inner);
    BodyStays(body, rest);
  }

  /** What the replacer takes at once, and whether it is inside a quoted string. */
  datatype Token = Token(text: string, inString: bool)

  function Tokens(content: string, inString: bool): seq<Token>
    decreases |content|
  {
    if content == "" then []
    else [Token(content[..Taken(content)], inString)] + Tokens(content[Taken(content)..], Then(content, inString))
  }

  function Joined(tokens: seq<Token>): string {
    if tokens == [] then "" else tokens[0].text + Joined(tokens[1..])
  }

  /** A literal \n or \t outside a string becomes the character it names; nothing else changes. */
  function Repaired(t: Token): Token {
    if t == Token("\\n", false) then Token("\n", false)
    else if t == Token("\\t", false) then Token("\t", false)
    else t
  }

  function RepairedAll(tokens: seq<Token>): seq<Token> {
    if tokens == [] then [] else [Repaired(tokens[0])] + RepairedAll(tokens[1..])
  }

  /** The result, read again, is the content with exactly its literal escapes outside strings
      replaced. */
  lemma {:induction false} FixedRepairsTokens(content: string, inString: bool)
    ensures Joined(Tokens(content, inString)) == content
    ensures Tokens(Fixed(content, inString), inString) == RepairedAll(Tokens(content, inString))
    decreases |content|
  {
    if content != "" {
      var n := Taken(content);
      var rest := content[n..];
      var made := Made(content, inString);
      FixedTakes(content, inString);
      FixedRepairsTokens(rest, Then(content, inString));
      var fixedRest := Fixed(rest, Then(content, inString));
      MadeAgain(content, inString, fixedRest);
      assert (made + fixedRest)[..|made|] == made;
      assert made == Repaired(Token(content[..n], inString)).text;
    }
  }

  lemma MadeScans(s: Scan, content: string, inString: bool)
    requires content != "" && !s.escape
    ensures Scanned(s, Made(content, inString)) == Scanned(s, content[..Taken(content)])
    ensures Taken(content) < |content| ==> !Scanned(s, content[..Taken(content)]).escape
  {
    var token := content[..Taken(content)];
    ScannedFirst(s, token);
    ScannedFirst(s, Made(content, inString));
    if |token| == 2 {
      ScannedFirst(Step(s, token[0]), token[1..]);
      if |Made(content, inString)| == 2 {
        assert Made(content, inString) == token;
      }
    }
  }

  /** Replacing escapes leaves the bracket scan as it was, wherever the two disagree on what is
      quoted: the closers appended after it are those the content owed before. */
  lemma {:induction false} FixedKeepsScan(s: Scan, content: string, inString: bool)
    requires !s.escape
    ensures Scanned(s, Fixed(content, inString)) == Scanned(s, content)
    decreases |content|
  {
    if content != "" {
      var n := Taken(content);
      var token, rest := content[..n], content[n..];
      var made := Made(content, inString);
      FixedTakes(content, inString);
      MadeScans(s, content, inString);
      assert content == token + rest;
      ScannedOn(s, token, rest);
      ScannedOn(s, made, Fixed(rest, Then(content, inString)));
      if rest != "" {
        FixedKeepsScan(Scanned(s, token), rest, Then(content, inString));
      }
    }
  }
}
