/** The stdio server's framing (`serve_stdio` and `process_line` in `api/stdio.py`): lines are read with a
    size hint, over-length ones are drained to their newline. */
module StdioServer {
  import opened Common

  const MAX_REQUEST_BYTES := 8 * 1024 * 1024
  const HINT := MAX_REQUEST_BYTES + 2
  const NEWLINE: Byte := 10

  datatype Response = TooLarge | Answer(text: string)

  // ----- lines -----

  /** Up to and including the first newline, or everything. */
  function FirstLine(s: Bytes): (line: Bytes)
    ensures |line| <= |s| && s[..|line|] == line && (s != [] ==> line != [])
    ensures forall i :: 0 <= i < |line| - 1 ==> line[i] != NEWLINE
    ensures |line| < |s| ==> Ends(line)
  {
    if s == [] then [] else if s[0] == NEWLINE then [s[0]] else [s[0]] + FirstLine(s[1..])
  }

  predicate Ends(line: Bytes) {
    line != [] && line[|line| - 1] == NEWLINE
  }

  predicate IsSpace(b: Byte) {
    b == 32 || 9 <= b <= 13
  }

  /** `not raw.strip()`. */
  predicate Blank(line: Bytes) {
    forall i :: 0 <= i < |line| ==> IsSpace(line[i])
  }

  /** Too long to have been read in one piece with its newline, or unterminated beyond the limit. */
  predicate Overlong(line: Bytes) {
    |line| > HINT || (|line| > MAX_REQUEST_BYTES && !Ends(line))
  }

  function ProcessLine(handle: Bytes -> string, raw: Bytes): Response {
    if |raw| > MAX_REQUEST_BYTES then TooLarge else Answer(handle(raw))
  }

  /** What one line of input is answered with, if anything. */
  function Reply(handle: Bytes -> string, line: Bytes): seq<Response> {
    if Overlong(line) then [TooLarge]
    else if Blank(line) then []
    else [ProcessLine(handle, line)]
  }

  function Lines(s: Bytes): seq<Bytes>
    decreases |s|
  {
    if s == [] then [] else [FirstLine(s)] + Lines(s[|FirstLine(s)|..])
  }

  function Replies(handle: Bytes -> string, lines: seq<Bytes>): seq<Response> {
    if lines == [] then [] else Reply(handle, lines[0]) + Replies(handle, lines[1..])
  }

  // ----- the loop -----

  class Source {
    var rest: Bytes

    constructor (data: Bytes)
      ensures rest == data
    {
      rest := data;
    }

    /** `readline(limit)`: the first line, but no more than `limit` bytes of it. */
    method ReadLine(limit: nat) returns (raw: Bytes)
      modifies this
      ensures raw == Piece(old(rest), limit) && rest == old(rest)[|raw|..]
    {
      raw := Piece(rest, limit);
      rest := rest[|raw|..];
    }
  }

  function Piece(s: Bytes, limit: nat): (raw: Bytes)
    ensures |raw| <= |s|
  {
    var line := FirstLine(s);
    if |line| <= limit then line else line[..limit]
  }

  /** A piece of a line that is not its end leaves the rest of the same line. */
  lemma PieceOfLine(s: Bytes, limit: nat)
    requires s != [] && limit > 0
    ensures
      var raw, line := Piece(s, limit), FirstLine(s);
      && 0 < |raw| <= |line| && raw == line[..|raw|]
      && (Ends(raw) ==> raw == line)
      && (!Ends(raw) && raw != line ==> |raw| == limit && s[|raw|..] != [] && FirstLine(s[|raw|..]) == line[|raw|..])
      && (!Ends(raw) && raw == line ==> s[|raw|..] == [])
  {
    var raw, line := Piece(s, limit), FirstLine(s);
    if |raw| < |line| {
      assert raw[|raw| - 1] == line[|raw| - 1];
      RestOfLine(s, |raw|);
    }
  }

  lemma {:induction false} RestOfLine(s: Bytes, n: nat)
    requires n < |FirstLine(s)|
    ensures FirstLine(s[n..]) == FirstLine(s)[n..]
  {
    if n > 0 {
      assert s[0] != NEWLINE;
      RestOfLine(s[1..], n - 1);
      assert s[1..][n - 1..] == s[n..];
    } else {
      assert s[0..] == s;
    }
  }

  /** `serve_stdio`: one answer per line that is not blank or is over-length, in order, to the end of input. */
  method Serve(handle: Bytes -> string, source: Source) returns (sink: seq<Response>)
    modifies source
    ensures sink == Replies(handle, Lines(old(source.rest))) && source.rest == []
  {
    hide FirstLine, Reply, Piece, Replies, Lines, Overlong;
    sink := [];
    assert [] + Replies(handle, Lines(source.rest)) == Replies(handle, Lines(source.rest));
    ghost var input := source.rest;
    while true
      invariant sink + Replies(handle, Lines(source.rest)) == Replies(handle, Lines(input))
      decreases |source.rest|
    {
      ghost var before, answered := source.rest, sink;
      var raw := source.ReadLine(HINT);
      if before != [] { PieceOfLine(before, HINT); }
      if raw == [] {
        EmptyPiece(before);
        NoReplies(handle, sink);
        return;
      }
      assert before != [];
      ghost var line := FirstLine(before);
      LinesStep(handle, before);
      if |raw| > MAX_REQUEST_BYTES && !Ends(raw) {
        Drain(source, raw, before);
        OverlongSeen(before);
        OverlongReply(handle, line);
        sink := sink + [TooLarge];
      } else {
        WholeLineSeen(before);
        ReplyIs(handle, line);
        if !Blank(raw) {
          sink := sink + [ProcessLine(handle, raw)];
        }
      }
      Regroup(answered, Reply(handle, line), Replies(handle, Lines(source.rest)));
      assert sink == answered + Reply(handle, line);
    }
  }

  /** The inner loop: reads on until the newline that ends the over-length line, or the end of input. */
  method Drain(source: Source, first: Bytes, ghost before: Bytes)
    requires before != [] && first == Piece(before, HINT) && source.rest == before[|first|..] && !Ends(first)
    modifies source
    ensures source.rest == before[|FirstLine(before)|..]
  {
    hide FirstLine, Piece;
    var raw := first;
    ghost var line := FirstLine(before);
    PieceOfLine(before, HINT);
    LineFits(before);
    ghost var consumed := |first|;
    while raw != [] && !Ends(raw)
      invariant 0 < consumed <= |line| && source.rest == before[consumed..]
      invariant raw == [] || Ends(raw) ==> consumed == |line|
      invariant consumed < |line| ==> source.rest != [] && FirstLine(source.rest) == line[consumed..]
      invariant consumed == |line| && !Ends(raw) ==> source.rest == []
      decreases |source.rest|, if raw != [] && !Ends(raw) then 1 else 0
    {
      ghost var left := source.rest;
      raw := source.ReadLine(HINT);
      if left != [] {
        PieceOfLine(left, HINT);
        assert before[consumed..][|raw|..] == before[consumed + |raw|..];
        consumed := consumed + |raw|;
      } else {
        EmptyPiece(left);
      }
    }
  }

  lemma NoReplies(handle: Bytes -> string, sink: seq<Response>)
    ensures sink + Replies(handle, Lines([])) == sink
  {
  }

  lemma Regroup<T>(a: seq<T>, b: seq<T>, c: seq<T>)
    ensures a + b + c == a + (b + c)
  {
  }

  lemma LineFits(s: Bytes)
    ensures |FirstLine(s)| <= |s| && (|FirstLine(s)| < |s| ==> Ends(FirstLine(s)))
  {
  }

  lemma EmptyPiece(s: Bytes)
    ensures Piece(s, HINT) == [] <==> s == []
  {
    if s != [] { PieceOfLine(s, HINT); }
  }

  lemma LinesStep(handle: Bytes -> string, s: Bytes)
    requires s != []
    ensures |FirstLine(s)| <= |s|
    ensures Replies(handle, Lines(s)) == Reply(handle, FirstLine(s)) + Replies(handle, Lines(s[|FirstLine(s)|..]))
  {
    hide Reply;
    var lines := Lines(s);
    assert lines[0] == FirstLine(s) && lines[1..] == Lines(s[|FirstLine(s)|..]);
  }

  lemma OverlongSeen(s: Bytes)
    requires s != [] && |Piece(s, HINT)| > MAX_REQUEST_BYTES && !Ends(Piece(s, HINT))
    ensures Overlong(FirstLine(s))
  {
    PieceOfLine(s, HINT);
  }

  lemma WholeLineSeen(s: Bytes)
    requires s != [] && !(|Piece(s, HINT)| > MAX_REQUEST_BYTES && !Ends(Piece(s, HINT)))
    ensures Piece(s, HINT) == FirstLine(s) && !Overlong(FirstLine(s))
  {
    PieceOfLine(s, HINT);
  }

  lemma OverlongReply(handle: Bytes -> string, line: Bytes)
    requires Overlong(line)
    ensures Reply(handle, line) == [TooLarge]
  {
  }

  lemma ReplyIs(handle: Bytes -> string, line: Bytes)
    requires !Overlong(line)
    ensures Reply(handle, line) == if Blank(line) then [] else [ProcessLine(handle, line)]
  {
  }

  // ----- what the framing means -----

  function Joined(lines: seq<Bytes>): Bytes {
    if lines == [] then [] else lines[0] + Joined(lines[1..])
  }

  /** The lines are the input cut after each newline: nothing is lost, and no line but the last lacks one. */
  lemma {:induction false} LinesAreTheInput(s: Bytes)
    ensures Joined(Lines(s)) == s
    ensures forall i :: 0 <= i < |Lines(s)| ==> Lines(s)[i] != [] && (i < |Lines(s)| - 1 ==> Ends(Lines(s)[i]))
    ensures forall i, j :: 0 <= i < |Lines(s)| && 0 <= j < |Lines(s)[i]| - 1 ==> Lines(s)[i][j] != NEWLINE
    decreases |s|
  {
    if s != [] {
      var line := FirstLine(s);
      LinesAreTheInput(s[|line|..]);
      var lines := Lines(s);
      assert lines[1..] == Lines(s[|line|..]);
      assert s == line + s[|line|..];
      forall i | 0 < i < |lines| ensures lines[i] == Lines(s[|line|..])[i - 1] {}
    }
  }

  /** After an over-length line the server resumes at the byte after its newline. */
  lemma Resynchronises(handle: Bytes -> string, line: Bytes, rest: Bytes)
    requires Ends(line) && |line| > HINT && forall i :: 0 <= i < |line| - 1 ==> line[i] != NEWLINE
    ensures Replies(handle, Lines(line + rest)) == [TooLarge] + Replies(handle, Lines(rest))
  {
    hide Replies, Lines, Reply;
    var s := line + rest;
    TerminatedFirst(line, rest);
    LinesStep(handle, s);
    OverlongReply(handle, line);
    assert s[|line|..] == rest;
  }

  /** Space, tab, line feed, vertical tab, form feed and carriage return. */
  ghost predicate OnlyWhitespace(line: Bytes) {
    forall b :: b in line ==> b in {32, 9, 10, 11, 12, 13}
  }

  lemma BlankIsWhitespace(line: Bytes)
    ensures Blank(line) <==> OnlyWhitespace(line)
  {
    forall b: Byte ensures IsSpace(b) <==> b in {32, 9, 10, 11, 12, 13} {}
    if OnlyWhitespace(line) {
      forall i | 0 <= i < |line| ensures IsSpace(line[i]) {
        assert line[i] in line;
      }
    }
  }

  /** Every line that ends is answered on its own: nothing for whitespace, a refusal beyond eight MiB, and
      otherwise just what the handler says of that line. */
  lemma LineAnswered(handle: Bytes -> string, line: Bytes, rest: Bytes)
    requires Ends(line) && forall i :: 0 <= i < |line| - 1 ==> line[i] != NEWLINE
    ensures Replies(handle, Lines(line + rest)) ==
      (if OnlyWhitespace(line) && |line| <= 8_388_610 then []
       else if |line| > 8_388_608 then [TooLarge]
       else [Answer(handle(line))]) + Replies(handle, Lines(rest))
  {
    hide Replies, Lines, Blank, OnlyWhitespace;
    TerminatedFirst(line, rest);
    LinesStep(handle, line + rest);
    BlankIsWhitespace(line);
    assert (line + rest)[|line|..] == rest;
  }

  /** So is a last line without a newline. */
  lemma LastLineAnswered(handle: Bytes -> string, line: Bytes)
    requires line != [] && NEWLINE !in line
    ensures Replies(handle, Lines(line)) ==
      if |line| > 8_388_608 then [TooLarge] else if OnlyWhitespace(line) then [] else [Answer(handle(line))]
  {
    hide Replies, Lines, Blank, OnlyWhitespace;
    UnterminatedFirst(line);
    LinesStep(handle, line);
    BlankIsWhitespace(line);
    assert line[|line| - 1] in line;
    NoReplies(handle, Reply(handle, line));
    assert line[|line|..] == [];
  }

  lemma {:induction false} UnterminatedFirst(line: Bytes)
    requires NEWLINE !in line
    ensures FirstLine(line) == line
  {
    if line != [] {
      assert line[0] in line;
      UnterminatedFirst(line[1..]);
    }
  }

  lemma {:induction false} TerminatedFirst(line: Bytes, rest: Bytes)
    requires Ends(line) && forall i :: 0 <= i < |line| - 1 ==> line[i] != NEWLINE
    ensures FirstLine(line + rest) == line
  {
    if |line| > 1 {
      assert line[1..][|line| - 2] == line[|line| - 1];
      TerminatedFirst(line[1..], rest);
      assert (line + rest)[1..] == line[1..] + rest && line == [line[0]] + line[1..];
    }
  }

  /** How many answers there are: one for every line that is over-length or not blank. */
  lemma {:induction false} OneReplyPerLine(handle: Bytes -> string, lines: seq<Bytes>)
    ensures |Replies(handle, lines)| == Answered(lines)
  {
    if lines != [] { OneReplyPerLine(handle, lines[1..]); }
  }

  ghost function Answered(lines: seq<Bytes>): nat {
    if lines == [] then 0 else (if Overlong(lines[0]) || !Blank(lines[0]) then 1 else 0) + Answered(lines[1..])
  }
}
