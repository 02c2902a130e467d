/** Glob patterns as Go's `path.Match` documents them. */
module PathMatch {
  import opened Collections

  /** Characters from `lo` to `hi`. */
  datatype Range = Range(lo: char, hi: char)

  datatype Token = AnySequence | AnyCharacter | Class(negated: bool, ranges: seq<Range>) | Literal(c: char)

  /** One possibly escaped character of a class and what follows it. */
  datatype Escape = Escape(c: char, rest: string)

  function ReadEscape(p: string): Option<Escape> {
    if p == "" || p[0] == '-' || p[0] == ']' then None
    else if p[0] == '\\' then if |p| < 3 then None else Some(Escape(p[1], p[2..]))
    else if |p| < 2 then None
    else Some(Escape(p[0], p[1..]))
  }

  datatype Ranges = Ranges(ranges: seq<Range>, rest: string)

  /** The ranges of a class up to its closing bracket; there is at least one. */
  function ReadRanges(p: string, any: bool): (r: Option<Ranges>)
    ensures r.Some? ==> |r.value.rest| < |p|
    decreases |p|
  {
    if p != "" && p[0] == ']' && any then Some(Ranges([], p[1..]))
    else
      var lo := ReadEscape(p);
      if lo.None? then None
      else
        var hi := if lo.value.rest != "" && lo.value.rest[0] == '-' then ReadEscape(lo.value.rest[1..]) else lo;
        if hi.None? then None
        else
          var more := ReadRanges(hi.value.rest, true);
          if more.None? then None
          else Some(Ranges([Range(lo.value.c, hi.value.c)] + more.value.ranges, more.value.rest))
  }

  /** The parts of a pattern; absent when it is malformed. */
  function Tokens(p: string): Option<seq<Token>>
    decreases |p|
  {
    if p == "" then Some([])
    else if p[0] == '*' then Prepend(AnySequence, Tokens(p[1..]))
    else if p[0] == '?' then Prepend(AnyCharacter, Tokens(p[1..]))
    else if p[0] == '\\' then if |p| == 1 then None else Prepend(Literal(p[1]), Tokens(p[2..]))
    else if p[0] == '[' then
      var negated := |p| > 1 && p[1] == '^';
      var members := ReadRanges(if negated then p[2..] else p[1..], false);
      if members.None? then None else Prepend(Class(negated, members.value.ranges), Tokens(members.value.rest))
    else Prepend(Literal(p[0]), Tokens(p[1..]))
  }

  function Prepend(t: Token, rest: Option<seq<Token>>): Option<seq<Token>> {
    if rest.None? then None else Some([t] + rest.value)
  }

  predicate InRanges(c: char, ranges: seq<Range>) {
    exists k :: 0 <= k < |ranges| && ranges[k].lo <= c <= ranges[k].hi
  }

  predicate Accepts(t: Token, c: char) {
    match t
    case AnySequence => c != '/'
    case AnyCharacter => c != '/'
    case Class(negated, ranges) => InRanges(c, ranges) != negated
    case Literal(d) => c == d
  }

  predicate MatchTokens(tokens: seq<Token>, name: string)
    decreases |tokens| + |name|
  {
    if tokens == [] then name == ""
    else if tokens[0].AnySequence? then
      MatchTokens(tokens[1..], name) || (name != "" && Accepts(tokens[0], name[0]) && MatchTokens(tokens, name[1..]))
    else name != "" && Accepts(tokens[0], name[0]) && MatchTokens(tokens[1..], name[1..])
  }

  predicate WellFormed(pattern: string) {
    Tokens(pattern).Some?
  }

  predicate Matches(pattern: string, name: string) {
    WellFormed(pattern) && MatchTokens(Tokens(pattern).value, name)
  }

  predicate HasMeta(pattern: string) {
    exists k :: 0 <= k < |pattern| && pattern[k] in {'*', '?', '[', '\\'}
  }

  /** A pattern without special characters matches exactly the name it spells. */
  lemma {:induction false} LiteralMatches(pattern: string, name: string)
    requires !HasMeta(pattern)
    ensures WellFormed(pattern)
    ensures Matches(pattern, name) <==> name == pattern
    decreases |pattern|
  {
    if pattern != "" {
      assert pattern[0] !in {'*', '?', '[', '\\'};
      assert forall k :: 0 <= k < |pattern[1..]| ==> pattern[1..][k] == pattern[k + 1];
      LiteralMatches(pattern[1..], if name == "" then "" else name[1..]);
      var rest := Tokens(pattern[1..]).value;
      assert Tokens(pattern).value[1..] == rest;
      if name != "" && name[0] == pattern[0] {
        assert name == [name[0]] + name[1..] && pattern == [pattern[0]] + pattern[1..];
      }
    }
  }

  // ---------------------------------------------------------------------------------------
  // What each special character means

  function Literals(text: string): seq<Token> {
    if text == "" then [] else [Literal(text[0])] + Literals(text[1..])
  }

  predicate NoSlash(s: string) {
    '/' !in s
  }

  /** Text without special characters stands for itself, whatever comes after it. */
  lemma {:induction false} LiteralTokens(text: string, rest: string)
    requires !HasMeta(text)
    ensures Tokens(text + rest) ==
      if Tokens(rest).None? then None else Some(Literals(text) + Tokens(rest).value)
    decreases |text|
  {
    if text == "" {
      assert text + rest == rest;
      assert Tokens(rest).Some? ==> Literals(text) + Tokens(rest).value == Tokens(rest).value;
    } else {
      assert text[0] !in {'*', '?', '[', '\\'};
      assert forall k :: 0 <= k < |text[1..]| ==> text[1..][k] == text[k + 1];
      assert (text + rest)[1..] == text[1..] + rest && (text + rest)[0] == text[0];
      LiteralTokens(text[1..], rest);
      if Tokens(rest).Some? {
        var tail := Tokens(rest).value;
        assert [Literal(text[0])] + (Literals(text[1..]) + tail) == Literals(text) + tail;
      }
    }
  }

  lemma {:induction false} LiteralsMatch(text: string, rest: seq<Token>, name: string)
    ensures MatchTokens(Literals(text) + rest, name) <==> text <= name && MatchTokens(rest, name[|text|..])
    decreases |text|
  {
    var tokens := Literals(text) + rest;
    if text == "" {
      assert tokens == rest && name[0..] == name;
    } else {
      assert tokens[0] == Literal(text[0]) && tokens[1..] == Literals(text[1..]) + rest;
      if name != "" && name[0] == text[0] {
        LiteralsMatch(text[1..], rest, name[1..]);
        assert name == [name[0]] + name[1..] && text == [text[0]] + text[1..];
        assert text[1..] <= name[1..] ==> name[1..][|text| - 1..] == name[|text|..];
      }
    }
  }

  lemma {:induction false} StarMatches(rest: seq<Token>, name: string)
    ensures MatchTokens([AnySequence] + rest, name) <==>
      exists i :: 0 <= i <= |name| && NoSlash(name[..i]) && MatchTokens(rest, name[i..])
    decreases |name|
  {
    var tokens := [AnySequence] + rest;
    assert tokens[1..] == rest && name[0..] == name && NoSlash(name[..0]);
    if name != "" {
      StarMatches(rest, name[1..]);
      if i :| 0 <= i <= |name[1..]| && NoSlash(name[1..][..i]) && MatchTokens(rest, name[1..][i..]) {
        assert name[..i + 1] == [name[0]] + name[1..][..i] && name[i + 1..] == name[1..][i..];
        assert name[0] != '/' ==> NoSlash(name[..i + 1]);
      }
      if i :| 0 < i <= |name| && NoSlash(name[..i]) && MatchTokens(rest, name[i..]) {
        assert name[..i][0] == name[0] && forall c :: c in name[1..][..i - 1] ==> c in name[..i];
        assert name[1..][i - 1..] == name[i..];
      }
    }
  }

  lemma OnlyLiterals(text: string, name: string)
    requires !HasMeta(text)
    ensures Tokens(text) == Some(Literals(text))
    ensures MatchTokens(Literals(text), name) <==> name == text
  {
    LiteralTokens(text, "");
    LiteralsMatch(text, [], name);
    assert text + "" == text && Literals(text) + [] == Literals(text);
  }

  /** A star between texts matches any text there but a slash. */
  lemma StarBetween(before: string, after: string, name: string)
    requires !HasMeta(before) && !HasMeta(after)
    ensures Matches(before + "*" + after, name) <==>
      && before <= name
      && exists i :: 0 <= i <= |name| - |before| && NoSlash(name[|before|..][..i]) && name[|before|..][i..] == after
  {
    assert before + "*" + after == before + ("*" + after);
    assert ("*" + after)[1..] == after;
    LiteralTokens(before, "*" + after);
    OnlyLiterals(after, "");
    LiteralsMatch(before, [AnySequence] + Literals(after), name);
    if before <= name {
      var rest := name[|before|..];
      StarMatches(Literals(after), rest);
      forall i | 0 <= i <= |rest|
        ensures MatchTokens(Literals(after), rest[i..]) <==> rest[i..] == after
      {
        OnlyLiterals(after, rest[i..]);
      }
    }
  }

  /** A question mark matches one character that is not a slash. */
  lemma QuestionBetween(before: string, after: string, name: string)
    requires !HasMeta(before) && !HasMeta(after)
    ensures Matches(before + "?" + after, name) <==>
      before <= name && |name| > |before| && name[|before|] != '/' && name[|before| + 1..] == after
  {
    assert before + "?" + after == before + ("?" + after);
    assert ("?" + after)[1..] == after;
    LiteralTokens(before, "?" + after);
    OnlyLiterals(after, "");
    LiteralsMatch(before, [AnyCharacter] + Literals(after), name);
    if before <= name && |name| > |before| {
      var rest := name[|before|..];
      assert ([AnyCharacter] + Literals(after))[1..] == Literals(after) && rest[1..] == name[|before| + 1..];
      OnlyLiterals(after, rest[1..]);
    }
  }

  /** A range matches the characters in it, a negated one those outside. */
  lemma RangeMatches(lo: char, hi: char, negated: bool, c: char)
    requires lo !in {'-', ']', '\\', '^'} && hi !in {'-', ']', '\\'}
    ensures Matches((if negated then "[^" else "[") + [lo, '-', hi, ']'], [c]) <==> (lo <= c <= hi) != negated
  {
    var pattern := (if negated then "[^" else "[") + [lo, '-', hi, ']'];
    var inner := [lo, '-', hi, ']'];
    assert (if negated then pattern[2..] else pattern[1..]) == inner;
    assert inner[1..] == ['-', hi, ']'] && inner[1..][1..] == [hi, ']'] && [hi, ']'][1..] == "]" && "]"[1..] == "";
    assert ReadEscape(inner) == Some(Escape(lo, inner[1..]));
    assert ReadEscape([hi, ']']) == Some(Escape(hi, "]"));
    assert ReadRanges("]", true) == Some(Ranges([], ""));
    assert [Range(lo, hi)] + [] == [Range(lo, hi)];
    assert ReadEscape(inner[1..][1..]) == Some(Escape(hi, "]"));
    assert ReadRanges(inner, false) == Some(Ranges([Range(lo, hi)], ""));
    assert Tokens("") == Some([]);
    assert [Class(negated, [Range(lo, hi)])] + [] == [Class(negated, [Range(lo, hi)])];
    assert Tokens(pattern) == Some([Class(negated, [Range(lo, hi)])]);
    var tokens := [Class(negated, [Range(lo, hi)])];
    assert tokens[1..] == [] && [c][1..] == "" && MatchTokens([], "");
    assert MatchTokens(tokens, [c]) <==> Accepts(tokens[0], c);
    assert [Range(lo, hi)][0] == Range(lo, hi);
    assert InRanges(c, [Range(lo, hi)]) <==> lo <= c <= hi;
  }

  /** A backslash makes the next character stand for itself. */
  lemma EscapeMatches(c: char, name: string)
    ensures Matches(['\\', c], name) <==> name == [c]
  {
    assert ['\\', c][2..] == "";
    assert Tokens("") == Some([]) && [Literal(c)] + [] == [Literal(c)];
    assert Tokens(['\\', c]) == Some([Literal(c)]);
    assert [Literal(c)][1..] == [];
    assert MatchTokens([Literal(c)], name) <==> name != "" && name[0] == c && MatchTokens([], name[1..]);
    assert name != "" ==> name == [name[0]] + name[1..];
  }

  /** A backslash at the end and an open or empty class are malformed. */
  lemma MalformedPatterns(c: char)
    requires c !in {'-', ']', '\\', '^'}
    ensures !WellFormed("\\") && !WellFormed("[") && !WellFormed("[]") && !WellFormed(['[', c])
  {
    assert "["[1..] == "" && "[]"[1..] == "]" && ['[', c][1..] == [c];
    assert ReadRanges([c], false).None?;
  }
}
