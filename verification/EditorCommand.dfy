/** Splitting an editor command line into arguments, and the shell quoting it undoes. */
module EditorCommand {
  import opened Collections

  datatype Mistake = UnfinishedEscape | UnterminatedQuote | EmptyCommand
  datatype Split = Arguments(args: seq<string>) | Malformed(mistake: Mistake)

  /** White space in the sense of the Unicode property, as Go's `unicode.IsSpace` has it. */
  predicate IsSpace(c: char) {
    || c in {'\t', '\n', '\U{B}', '\U{C}', '\r', ' ', '\U{85}', '\U{A0}'}
    || c in {'\U{1680}', '\U{2028}', '\U{2029}', '\U{202F}', '\U{205F}', '\U{3000}'}
    || '\U{2000}' <= c <= '\U{200A}'
  }

  /** The arguments finished so far, the word being read, the quote it is in, and whether there is a
      word at all. */
  datatype Lexer = Lexer(args: seq<string>, word: string, quote: Option<char>, started: bool)

  const START := Lexer([], "", None, false)

  /** A backslash before this character is dropped and the character taken as it is. */
  predicate Escapable(c: char, quote: Option<char>) {
    c == '\\' || c == '"' || (quote.None? && (c == '\'' || IsSpace(c)))
  }

  function Take(st: Lexer, c: char): Lexer {
    st.(word := st.word + [c], started := true)
  }

  /** One character that is not part of an escape. */
  function Consume(st: Lexer, c: char): Lexer {
    if st.quote.Some? then
      if c == st.quote.value then st.(quote := None) else st.(word := st.word + [c])
    else if c == '\'' || c == '"' then st.(quote := Some(c), started := true)
    else if IsSpace(c) then
      if st.started then Lexer(st.args + [st.word], "", None, false) else st
    else Take(st, c)
  }

  function Finish(st: Lexer): Split {
    var args := if st.started then st.args + [st.word] else st.args;
    if st.quote.Some? then Malformed(UnterminatedQuote)
    else if args == [] || args[0] == "" then Malformed(EmptyCommand)
    else Arguments(args)
  }

  /** Reads the rest of a command line. */
  function Scan(rest: string, st: Lexer): Split
    decreases |rest|
  {
    if rest == [] then Finish(st)
    else if rest[0] == '\\' && st.quote != Some('\'') then
      if |rest| == 1 then Malformed(UnfinishedEscape)
      else if Escapable(rest[1], st.quote) then Scan(rest[2..], Take(st, rest[1]))
      else Scan(rest[1..], Consume(st, '\\'))
    else Scan(rest[1..], Consume(st, rest[0]))
  }

  method SplitEditorCommand(spec: string) returns (r: Split)
    ensures r == Scan(spec, START)
  {
    var args: seq<string> := [];
    var word := "";
    var quote: Option<char> := None;
    var started := false;
    var i := 0;
    while i < |spec|
      invariant 0 <= i <= |spec|
      invariant Scan(spec, START) == Scan(spec[i..], Lexer(args, word, quote, started))
    {
      var c := spec[i];
      assert spec[i..][1..] == spec[i + 1..];
      if c == '\\' && quote != Some('\'') {
        if i + 1 == |spec| {
          return Malformed(UnfinishedEscape);
        }
        var next := spec[i + 1];
        if next == '\\' || next == '"' || (quote == None && (next == '\'' || IsSpace(next))) {
          assert spec[i..][2..] == spec[i + 2..];
          word := word + [next];
          started := true;
          i := i + 2;
          continue;
        }
      }
      if quote != None {
        if c == quote.value {
          quote := None;
        } else {
          word := word + [c];
        }
      } else if c == '\'' || c == '"' {
        quote, started := Some(c), true;
      } else if IsSpace(c) {
        if started {
          args, word, started := args + [word], "", false;
        }
      } else {
        word, started := word + [c], true;
      }
      i := i + 1;
    }
    if quote != None {
      return Malformed(UnterminatedQuote);
    }
    if started {
      args := args + [word];
    }
    if |args| == 0 || args[0] == "" {
      return Malformed(EmptyCommand);
    }
    return Arguments(args);
  }

  // ---------------------------------------------------------------------------------------
  // Quoting

  predicate Safe(c: char) {
    c in {'_', '-', '.', '/'} || 'a' <= c <= 'z' || 'A' <= c <= 'Z' || '0' <= c <= '9'
  }

  predicate AllSafe(value: string) {
    forall k :: 0 <= k < |value| ==> Safe(value[k])
  }

  /** A single quote becomes the end of the quotes, an escaped quote, and new quotes. */
  function Escaped(value: string): string {
    if value == "" then ""
    else EscapeOne(value[0]) + Escaped(value[1..])
  }

  function EscapeOne(c: char): string {
    if c == '\'' then "'\\''" else [c]
  }

  function ShellQuote(value: string): string {
    if value != "" && AllSafe(value) then value else "'" + Escaped(value) + "'"
  }

  function Quoted(args: seq<string>): string {
    if args == [] then ""
    else if |args| == 1 then ShellQuote(args[0])
    else ShellQuote(args[0]) + " " + Quoted(args[1..])
  }

  /** Reading this text takes the lexer from one state to another, whatever comes after it. */
  ghost predicate Reads(text: string, from: Lexer, to: Lexer) {
    forall tail: string :: Scan(text + tail, from) == Scan(tail, to)
  }

  lemma ReadsNothing(st: Lexer)
    ensures Reads("", st, st)
  {
    forall tail: string
      ensures Scan("" + tail, st) == Scan(tail, st)
    {
      assert "" + tail == tail;
    }
  }

  lemma ReadsBoth(a: string, b: string, from: Lexer, mid: Lexer, to: Lexer)
    requires Reads(a, from, mid) && Reads(b, mid, to)
    ensures Reads(a + b, from, to)
  {
    forall tail: string
      ensures Scan(a + b + tail, from) == Scan(tail, to)
    {
      assert a + b + tail == a + (b + tail);
    }
  }

  /** A character that does not begin an escape. */
  lemma ReadsOne(c: char, st: Lexer)
    requires c != '\\' || st.quote == Some('\'')
    ensures Reads([c], st, Consume(st, c))
  {
    forall tail: string
      ensures Scan([c] + tail, st) == Scan(tail, Consume(st, c))
    {
      assert ([c] + tail)[1..] == tail;
    }
  }

  lemma ReadsEscape(c: char, st: Lexer)
    requires st.quote != Some('\'') && Escapable(c, st.quote)
    ensures Reads(['\\', c], st, Take(st, c))
  {
    forall tail: string
      ensures Scan(['\\', c] + tail, st) == Scan(tail, Take(st, c))
    {
      assert (['\\', c] + tail)[2..] == tail;
    }
  }

  lemma {:induction false} ReadsSafe(value: string, st: Lexer)
    requires AllSafe(value) && st.quote.None?
    ensures Reads(value, st, st.(word := st.word + value, started := st.started || value != ""))
    decreases |value|
  {
    if value == "" {
      ReadsNothing(st);
      assert st.word + value == st.word;
    } else {
      assert Safe(value[0]);
      var next := Take(st, value[0]);
      ReadsOne(value[0], st);
      ReadsSafe(value[1..], next);
      assert next.word + value[1..] == st.word + value;
      ReadsBoth([value[0]], value[1..], st, next, next.(word := next.word + value[1..]));
      assert [value[0]] + value[1..] == value;
    }
  }

  /** Inside single quotes a quote mark is a closing quote, an escaped one, and an opening one. */
  lemma ReadsEscapeOne(c: char, st: Lexer)
    requires st.quote == Some('\'') && st.started
    ensures Reads(EscapeOne(c), st, st.(word := st.word + [c]))
  {
    if c == '\'' {
      var closed := st.(quote := None);
      var taken := Take(closed, c);
      ReadsOne(c, st);
      ReadsEscape(c, closed);
      ReadsBoth("'", ['\\', '\''], st, closed, taken);
      ReadsOne(c, taken);
      ReadsBoth("'" + ['\\', '\''], "'", st, taken, taken.(quote := Some('\'')));
      assert "'" + ['\\', '\''] + "'" == EscapeOne(c);
    } else {
      ReadsOne(c, st);
    }
  }

  /** Inside single quotes everything but a single quote stands for itself. */
  lemma {:induction false} ReadsEscaped(value: string, st: Lexer)
    requires st.quote == Some('\'') && st.started
    ensures Reads(Escaped(value), st, st.(word := st.word + value))
    decreases |value|
  {
    if value == "" {
      ReadsNothing(st);
      assert st.word + value == st.word;
    } else {
      var next := st.(word := st.word + [value[0]]);
      ReadsEscapeOne(value[0], st);
      ReadsEscaped(value[1..], next);
      assert next.word + value[1..] == st.word + value;
      ReadsBoth(EscapeOne(value[0]), Escaped(value[1..]), st, next, next.(word := next.word + value[1..]));
    }
  }

  /** A quoted argument is read back as one word. */
  lemma ReadsShellQuote(value: string, before: seq<string>)
    ensures Reads(ShellQuote(value), Lexer(before, "", None, false), Lexer(before, value, None, true))
  {
    var st := Lexer(before, "", None, false);
    assert "" + value == value;
    if value != "" && AllSafe(value) {
      ReadsSafe(value, st);
    } else {
      var quoted := Lexer(before, "", Some('\''), true);
      ReadsOne('\'', st);
      ReadsEscaped(value, quoted);
      ReadsBoth("'", Escaped(value), st, quoted, quoted.(word := value));
      ReadsOne('\'', quoted.(word := value));
      ReadsBoth("'" + Escaped(value), "'", st, quoted.(word := value), Lexer(before, value, None, true));
    }
  }

  /** The space after it ends the word. */
  lemma ReadsWord(value: string, before: seq<string>)
    ensures Reads(ShellQuote(value) + " ", Lexer(before, "", None, false), Lexer(before + [value], "", None, false))
  {
    ReadsShellQuote(value, before);
    ReadsOne(' ', Lexer(before, value, None, true));
    ReadsBoth(ShellQuote(value), " ", Lexer(before, "", None, false), Lexer(before, value, None, true),
              Lexer(before + [value], "", None, false));
  }

  lemma ScanRead(text: string, tail: string, from: Lexer, to: Lexer)
    requires Reads(text, from, to)
    ensures Scan(text + tail, from) == Scan(tail, to)
  {
  }

  lemma ScanLast(value: string, before: seq<string>)
    ensures Scan(ShellQuote(value), Lexer(before, "", None, false)) == Finish(Lexer(before + [value], "", None, false))
  {
    ReadsShellQuote(value, before);
    ScanRead(ShellQuote(value), "", Lexer(before, "", None, false), Lexer(before, value, None, true));
    assert ShellQuote(value) + "" == ShellQuote(value);
  }

  lemma {:induction false} ScanQuoted(args: seq<string>, before: seq<string>)
    requires args != []
    ensures Scan(Quoted(args), Lexer(before, "", None, false)) == Finish(Lexer(before + args, "", None, false))
    decreases |args|
  {
    var st := Lexer(before, "", None, false);
    if |args| == 1 {
      ScanLast(args[0], before);
      assert before + args == before + [args[0]];
    } else {
      ReadsWord(args[0], before);
      ScanRead(ShellQuote(args[0]) + " ", Quoted(args[1..]), st, Lexer(before + [args[0]], "", None, false));
      ScanQuoted(args[1..], before + [args[0]]);
      assert before + [args[0]] + args[1..] == before + args;
    }
  }

  /** Splitting undoes quoting, for every list of arguments that names a command. */
  lemma QuotedRoundTrip(args: seq<string>)
    ensures Scan(Quoted(args), START) == Arguments(args) <==> args != [] && args[0] != ""
  {
    if args != [] {
      ScanQuoted(args, []);
      assert [] + args == args;
    }
  }

  // ---------------------------------------------------------------------------------------
  // What each kind of text means

  /** Spaces, tabs and line ends separate words; letters, digits and quotes do not. */
  lemma Separators(c: char)
    requires c in {' ', '\t', '\n', '\r'} || Safe(c) || c in {'"', '\'', '\\'}
    ensures IsSpace(c) <==> c in {' ', '\t', '\n', '\r'}
  {
  }

  /** Outside quotes a separator ends the word before it; without one it does nothing. */
  lemma ReadsSpace(c: char, before: seq<string>, word: string, started: bool)
    requires IsSpace(c) && (!started ==> word == "")
    ensures Reads([c], Lexer(before, word, None, started),
                  Lexer(if started then before + [word] else before, "", None, false))
  {
    ReadsOne(c, Lexer(before, word, None, started));
  }

  /** Inside double quotes a backslash goes before a double quote and before another backslash. */
  function DoubleEscaped(value: string): string {
    if value == "" then ""
    else (if value[0] in {'"', '\\'} then ['\\', value[0]] else [value[0]]) + DoubleEscaped(value[1..])
  }

  lemma {:induction false} ReadsDoubleEscaped(value: string, st: Lexer)
    requires st.quote == Some('"') && st.started
    ensures Reads(DoubleEscaped(value), st, st.(word := st.word + value))
    decreases |value|
  {
    if value == "" {
      ReadsNothing(st);
      assert st.word + value == st.word;
    } else {
      var next := st.(word := st.word + [value[0]]);
      if value[0] in {'"', '\\'} {
        ReadsEscape(value[0], st);
      } else {
        ReadsOne(value[0], st);
      }
      ReadsDoubleEscaped(value[1..], next);
      assert next.word + value[1..] == st.word + value;
      ReadsBoth(if value[0] in {'"', '\\'} then ['\\', value[0]] else [value[0]], DoubleEscaped(value[1..]), st, next,
                next.(word := next.word + value[1..]));
    }
  }

  /** Text in double quotes is part of one word, whatever it contains and whatever comes before it. */
  lemma ReadsDoubleQuoted(value: string, before: seq<string>, word: string, started: bool)
    ensures Reads("\"" + DoubleEscaped(value) + "\"", Lexer(before, word, None, started),
                  Lexer(before, word + value, None, true))
  {
    var st, quoted := Lexer(before, word, None, started), Lexer(before, word, Some('"'), true);
    ReadsOne('"', st);
    ReadsDoubleEscaped(value, quoted);
    ReadsBoth("\"", DoubleEscaped(value), st, quoted, quoted.(word := word + value));
    ReadsOne('"', quoted.(word := word + value));
    ReadsBoth("\"" + DoubleEscaped(value), "\"", st, quoted.(word := word + value),
              Lexer(before, word + value, None, true));
  }

  /** Text in single quotes is part of one word, with nothing escaped in it. */
  lemma {:induction false} ReadsSingleText(value: string, st: Lexer)
    requires st.quote == Some('\'') && '\'' !in value
    ensures Reads(value, st, st.(word := st.word + value))
    decreases |value|
  {
    if value == "" {
      ReadsNothing(st);
      assert st.word + value == st.word;
    } else {
      var next := st.(word := st.word + [value[0]]);
      assert value[0] in value && forall c :: c in value[1..] ==> c in value;
      ReadsOne(value[0], st);
      ReadsSingleText(value[1..], next);
      assert next.word + value[1..] == st.word + value && [value[0]] + value[1..] == value;
      ReadsBoth([value[0]], value[1..], st, next, next.(word := next.word + value[1..]));
    }
  }

  lemma ReadsSingleQuoted(value: string, before: seq<string>, word: string, started: bool)
    requires '\'' !in value
    ensures Reads("'" + value + "'", Lexer(before, word, None, started), Lexer(before, word + value, None, true))
  {
    var st, quoted := Lexer(before, word, None, started), Lexer(before, word, Some('\''), true);
    ReadsOne('\'', st);
    ReadsSingleText(value, quoted);
    ReadsBoth("'", value, st, quoted, quoted.(word := word + value));
    ReadsOne('\'', quoted.(word := word + value));
    ReadsBoth("'" + value, "'", st, quoted.(word := word + value), Lexer(before, word + value, None, true));
  }

  /** A backslash takes a backslash or a double quote as it is, outside quotes also a single quote and a
      separator. */
  lemma BackslashTakes(c: char, st: Lexer)
    requires c in {'\\', '"'} || (st.quote.None? && (c == '\'' || IsSpace(c)))
    requires st.quote in {None, Some('"')}
    ensures Reads(['\\', c], st, st.(word := st.word + [c], started := true))
  {
    ReadsEscape(c, st);
  }

  /** An open quote, a backslash at the end and a line that names no command are errors. */
  lemma {:induction false} OpenQuoteFails(rest: string, st: Lexer)
    requires st.quote.Some? && st.quote.value in {'"', '\''} && st.quote.value !in rest && '\\' !in rest
    ensures Scan(rest, st) == Malformed(UnterminatedQuote)
    decreases |rest|
  {
    if rest != "" {
      assert rest[0] in rest && forall c :: c in rest[1..] ==> c in rest;
      OpenQuoteFails(rest[1..], Consume(st, rest[0]));
    }
  }

  lemma OpenEscapeFails(st: Lexer)
    requires st.quote != Some('\'')
    ensures Scan("\\", st) == Malformed(UnfinishedEscape)
  {
  }

  lemma {:induction false} BlankFails(blank: string)
    requires forall c :: c in blank ==> c in {' ', '\t', '\n', '\r'}
    ensures Scan(blank, START) == Malformed(EmptyCommand)
    ensures Scan(blank + "''", START) == Malformed(EmptyCommand)
    decreases |blank|
  {
    if blank == "" {
      assert blank + "''" == "''";
      ReadsSingleQuoted("", [], "", false);
      assert "'" + "" + "'" == "''" && "" + "" == "";
      ScanRead("''", "", START, Lexer([], "", None, true));
      assert "''" + "" == "''";
    } else {
      assert blank[0] in blank && forall c :: c in blank[1..] ==> c in blank;
      ReadsSpace(blank[0], [], "", false);
      assert blank == [blank[0]] + blank[1..];
      assert blank + "''" == [blank[0]] + (blank[1..] + "''");
      ScanRead([blank[0]], blank[1..], START, START);
      ScanRead([blank[0]], blank[1..] + "''", START, START);
      BlankFails(blank[1..]);
    }
  }

  /** At the end of a line outside quotes the words read so far, with the last one if any, are its arguments. */
  lemma EndGivesArguments(before: seq<string>, word: string, started: bool)
    requires (!started ==> word == "") && before + (if started then [word] else []) != []
    requires (before + if started then [word] else [])[0] != ""
    ensures Scan("", Lexer(before, word, None, started)) == Arguments(before + if started then [word] else [])
  {
    assert before + [] == before;
  }

  /** A backslash before an ordinary character stays, as in a Windows path. */
  lemma BackslashKept(c: char, st: Lexer)
    requires st.quote in {None, Some('"')} && c !in {'\\', '"'}
    requires st.quote.None? ==> c != '\'' && !IsSpace(c)
    ensures Reads(['\\', c], st, st.(word := st.word + ['\\', c], started := st.quote.None? || st.started))
  {
    var one := Consume(st, '\\');
    assert st.word + ['\\'] + [c] == st.word + ['\\', c];
    forall tail: string
      ensures Scan(['\\', c] + tail, st) == Scan(tail, Consume(one, c))
    {
      assert (['\\', c] + tail)[1..] == [c] + tail;
      ReadsOne(c, one);
      ScanRead([c], tail, one, Consume(one, c));
    }
  }
}
