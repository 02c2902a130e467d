/** The bounded tail of streamed standard error, and the lines shown from it. */
module StderrTail {
  import opened CleanupScopes

  newtype byte = x: int | 0 <= x < 256

  const TAIL_BYTES := 16 * 1024
  const TAIL_LINES := 10
  const NEWLINE: byte := 10

  predicate IsSuffix(s: seq<byte>, of: seq<byte>) {
    |s| <= |of| && s == of[|of| - |s|..]
  }

  function Min(a: nat, b: nat): nat {
    if a < b then a else b
  }

  // ---------------------------------------------------------------------------------------
  // Lines

  function LastIndex(s: seq<byte>): (index: int)
    ensures -1 <= index < |s|
    ensures index >= 0 ==> s[index] == NEWLINE
    ensures forall k :: index < k < |s| ==> s[k] != NEWLINE
  {
    if s == [] then -1
    else if s[|s| - 1] == NEWLINE then |s| - 1
    else LastIndex(s[..|s| - 1])
  }

  /** A byte in front of the first piece, or a newline before it. */
  function Prepend(c: byte, pieces: seq<seq<byte>>): seq<seq<byte>> {
    if c == NEWLINE then [[]] + pieces
    else if pieces == [] then [[c]]
    else [[c] + pieces[0]] + pieces[1..]
  }

  /** The pieces between newlines, first to last; there is always one. */
  function Pieces(s: seq<byte>): (pieces: seq<seq<byte>>)
    ensures pieces != []
  {
    if s == [] then [[]] else Prepend(s[0], Pieces(s[1..]))
  }

  lemma {:induction false} OnePiece(s: seq<byte>)
    requires NEWLINE !in s
    ensures Pieces(s) == [s]
  {
    if s != [] {
      OnePiece(s[1..]);
      assert s == [s[0]] + s[1..];
    }
  }

  lemma PrependJoin(c: byte, a: seq<seq<byte>>, b: seq<seq<byte>>)
    requires a != []
    ensures Prepend(c, a + b) == Prepend(c, a) + b
  {
  }

  /** Cutting at a newline cuts the pieces. */
  lemma {:induction false} PiecesCut(a: seq<byte>, b: seq<byte>)
    ensures Pieces(a + [NEWLINE] + b) == Pieces(a) + Pieces(b)
  {
    var all := a + [NEWLINE] + b;
    if a == [] {
      assert all[0] == NEWLINE && all[1..] == b;
    } else {
      assert all[0] == a[0] && all[1..] == a[1..] + [NEWLINE] + b;
      PiecesCut(a[1..], b);
      PrependJoin(a[0], Pieces(a[1..]), Pieces(b));
    }
  }

  /** The cleaned pieces that are not blank, in order. */
  function Kept(pieces: seq<seq<byte>>, clean: seq<byte> -> seq<byte>): seq<seq<byte>> {
    if pieces == [] then []
    else (if clean(pieces[0]) == [] then [] else [clean(pieces[0])]) + Kept(pieces[1..], clean)
  }

  lemma {:induction false} KeptJoin(a: seq<seq<byte>>, b: seq<seq<byte>>, clean: seq<byte> -> seq<byte>)
    ensures Kept(a + b, clean) == Kept(a, clean) + Kept(b, clean)
  {
    if a == [] {
      assert a + b == b;
    } else {
      assert (a + b)[1..] == a[1..] + b;
      KeptJoin(a[1..], b, clean);
    }
  }

  lemma KeptOne(piece: seq<byte>, clean: seq<byte> -> seq<byte>)
    ensures Kept([piece], clean) == if clean(piece) == [] then [] else [clean(piece)]
  {
    assert [piece][1..] == [];
  }

  /** At most the last ten. */
  function LastLines(lines: seq<seq<byte>>): seq<seq<byte>> {
    if |lines| <= TAIL_LINES then lines else lines[|lines| - TAIL_LINES..]
  }

  function JoinLines(lines: seq<seq<byte>>): seq<byte> {
    if lines == [] then []
    else if |lines| == 1 then lines[0]
    else JoinLines(lines[..|lines| - 1]) + [NEWLINE] + lines[|lines| - 1]
  }

  /** Joining lines is undone by cutting at newlines. */
  lemma {:induction false} JoinedPieces(lines: seq<seq<byte>>)
    requires lines != [] && forall k :: 0 <= k < |lines| ==> NEWLINE !in lines[k]
    ensures Pieces(JoinLines(lines)) == lines
    decreases |lines|
  {
    var last := lines[|lines| - 1];
    OnePiece(last);
    if |lines| > 1 {
      var front := lines[..|lines| - 1];
      JoinedPieces(front);
      PiecesCut(JoinLines(front), last);
      assert front + [last] == lines;
    }
  }

  /** What the last newline separates. */
  function LastPiece(rest: seq<byte>): seq<byte> {
    rest[LastIndex(rest) + 1..]
  }

  function Before(rest: seq<byte>): seq<byte> {
    rest[..if LastIndex(rest) < 0 then 0 else LastIndex(rest)]
  }

  lemma KeptFromEnd(rest: seq<byte>, clean: seq<byte> -> seq<byte>)
    requires clean([]) == [] && rest != []
    ensures Kept(Pieces(rest), clean) == Kept(Pieces(Before(rest)), clean) + Kept([LastPiece(rest)], clean)
  {
    var index := LastIndex(rest);
    var line := rest[index + 1..];
    OnePiece(line);
    if index < 0 {
      assert line == rest && rest[..0] == [];
      KeptOne([], clean);
    } else {
      assert rest == rest[..index] + [NEWLINE] + line;
      PiecesCut(rest[..index], line);
      KeptJoin(Pieces(rest[..index]), [line], clean);
    }
  }

  /** `written` is everything written since the last reset. */
  class Tail {
    var buffer: seq<byte>
    ghost var written: seq<byte>

    ghost predicate Valid()
      reads this
    {
      && IsSuffix(buffer, written)
      && Min(|written|, TAIL_BYTES) <= |buffer| <= 2 * TAIL_BYTES
    }

    constructor ()
      ensures Valid() && written == []
    {
      buffer, written := [], [];
    }

    method Write(data: seq<byte>) returns (n: nat)
      requires Valid()
      modifies this
      ensures Valid() && n == |data|
      ensures written == old(written) + data
    {
      written := written + data;
      n := |data|;
      if |data| >= TAIL_BYTES {
        buffer := data[|data| - TAIL_BYTES..];
        return;
      }
      buffer := buffer + data;
      if |buffer| > 2 * TAIL_BYTES {
        buffer := buffer[|buffer| - TAIL_BYTES..];
      }
    }

    method Reset()
      modifies this
      ensures Valid() && written == []
    {
      buffer, written := [], [];
    }

    /** The last lines of the kept bytes; any cleaning will do that leaves nothing of an empty line. */
    method Lines(clean: seq<byte> -> seq<byte>) returns (text: seq<byte>)
      requires clean([]) == []
      ensures text == JoinLines(LastLines(Kept(Pieces(buffer), clean)))
    {
      var rest := buffer;
      var lines: seq<seq<byte>> := [];
      ghost var all := Kept(Pieces(buffer), clean);
      while |rest| > 0 && |lines| < TAIL_LINES
        invariant |lines| <= TAIL_LINES && all == Kept(Pieces(rest), clean) + Reversed(lines)
        decreases |rest|
      {
        TakeLine(rest, lines, clean, all);
        var index := LastIndex(rest);
        var line := clean(rest[index + 1..]);
        rest := rest[..if index < 0 then 0 else index];
        if line != [] {
          lines := lines + [line];
        }
      }
      LastTaken(rest, lines, clean, all);
      text := JoinLines(Reversed(lines));
    }
  }

  lemma TakeLine(rest: seq<byte>, lines: seq<seq<byte>>, clean: seq<byte> -> seq<byte>, all: seq<seq<byte>>)
    requires clean([]) == [] && rest != [] && all == Kept(Pieces(rest), clean) + Reversed(lines)
    ensures var line := clean(LastPiece(rest));
      all == Kept(Pieces(Before(rest)), clean) + Reversed(if line == [] then lines else lines + [line])
  {
    KeptFromEnd(rest, clean);
    KeptOne(LastPiece(rest), clean);
    MoveLine(Kept(Pieces(Before(rest)), clean), clean(LastPiece(rest)), lines);
  }

  lemma MoveLine(front: seq<seq<byte>>, line: seq<byte>, lines: seq<seq<byte>>)
    ensures front + [line] + Reversed(lines) == front + Reversed(lines + [line])
    ensures front + [] + Reversed(lines) == front + Reversed(lines)
  {
    ReversedJoin(lines, [line]);
    assert Reversed([line]) == [line];
  }

  lemma LastTaken(rest: seq<byte>, lines: seq<seq<byte>>, clean: seq<byte> -> seq<byte>, all: seq<seq<byte>>)
    requires clean([]) == [] && all == Kept(Pieces(rest), clean) + Reversed(lines)
    requires |lines| == TAIL_LINES || (rest == [] && |lines| <= TAIL_LINES)
    ensures LastLines(all) == Reversed(lines)
  {
    ReversedLength(lines);
    if rest == [] {
      KeptOne([], clean);
    }
  }

  lemma {:induction false} ReversedLength(lines: seq<seq<byte>>)
    ensures |Reversed(lines)| == |lines|
  {
    if lines != [] {
      ReversedLength(lines[1..]);
    }
  }
}
