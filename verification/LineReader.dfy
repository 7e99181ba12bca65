/** Reading response lines from a pipe (`_JsonlStdioTransport._read_line` in `adapters/nexus.py`): the bytes
    arrive in chunks of any size, and the lines do not depend on it. */
module LineReader {
  import opened Common

  const MAX_RESPONSE_BYTES := 32 * 1024 * 1024
  const NEWLINE: Byte := 10

  datatype Failure = TooLong | Ended

  /** Where the first newline is, or the length if there is none. */
  function FindNewline(s: Bytes): (n: nat)
    ensures n <= |s| && (n < |s| ==> s[n] == NEWLINE) && forall i :: 0 <= i < n ==> s[i] != NEWLINE
  {
    if s == [] || s[0] == NEWLINE then 0 else 1 + FindNewline(s[1..])
  }

  lemma NewlineUnique(s: Bytes, n: nat)
    requires n <= |s| && (n < |s| ==> s[n] == NEWLINE) && forall i :: 0 <= i < n ==> s[i] != NEWLINE
    ensures FindNewline(s) == n
  {
  }

  function Flat(chunks: seq<Bytes>): Bytes {
    if chunks == [] then [] else chunks[0] + Flat(chunks[1..])
  }

  /** Lines put back together. */
  function Terminated(lines: seq<Bytes>): Bytes {
    if lines == [] then [] else Terminated(lines[..|lines| - 1]) + lines[|lines| - 1] + [NEWLINE]
  }

  predicate IsLine(line: Bytes) {
    |line| <= MAX_RESPONSE_BYTES && NEWLINE !in line
  }

  class LineReader {
    var buffer: Bytes
    /** What the pipe will deliver, read by read, before it is closed. */
    var pending: seq<Bytes>

    function Stream(): Bytes
      reads this
    {
      buffer + Flat(pending)
    }

    constructor (pending: seq<Bytes>)
      ensures Stream() == Flat(pending)
    {
      this.buffer, this.pending := [], pending;
    }

    /** One line, if the next newline comes within the limit; a failure that depends on the stream alone. */
    method ReadLine() returns (r: Result<Bytes, Failure>)
      requires forall i :: 0 <= i < |pending| ==> pending[i] != []
      modifies this
      ensures forall i :: 0 <= i < |pending| ==> pending[i] != []
      ensures
        var s := old(Stream());
        var n := FindNewline(s);
        if n < |s| && n <= MAX_RESPONSE_BYTES then r == Ok(s[..n]) && Stream() == s[n + 1..]
        else if |s| <= MAX_RESPONSE_BYTES then r == Err(Ended)
        else r == Err(TooLong)
    {
      ghost var s := Stream();
      while true
        invariant Stream() == s && forall i :: 0 <= i < |pending| ==> pending[i] != []
        decreases |pending|
      {
        var newline := FindNewline(buffer);
        if newline < |buffer| {
          NewlineUnique(s, newline);
          var line := buffer[..newline];
          assert s[..newline] == line && s[newline + 1..] == buffer[newline + 1..] + Flat(pending);
          buffer := buffer[newline + 1..];
          if |line| > MAX_RESPONSE_BYTES {
            return Err(TooLong);
          }
          return Ok(line);
        }
        if |buffer| > MAX_RESPONSE_BYTES {
          assert forall i :: 0 <= i < |buffer| ==> s[i] == buffer[i];
          return Err(TooLong);
        }
        if pending == [] {
          assert s == buffer;
          return Err(Ended);
        }
        assert buffer + Flat(pending) == buffer + pending[0] + Flat(pending[1..]);
        buffer := buffer + pending[0];
        pending := pending[1..];
      }
    }

    /** Repeated reading returns the newline split of the stream, whatever the chunks. */
    method ReadLines(count: nat) returns (r: Result<seq<Bytes>, Failure>)
      requires forall i :: 0 <= i < |pending| ==> pending[i] != []
      modifies this
      ensures r.Ok? ==>
        && |r.value| == count && Terminated(r.value) + Stream() == old(Stream())
        && forall i :: 0 <= i < count ==> IsLine(r.value[i])
      ensures (exists lines, rest :: Split(old(Stream()), lines, rest) && |lines| == count) ==> r.Ok?
    {
      var lines: seq<Bytes> := [];
      ghost var s := Stream();
      assert Terminated(lines) + Stream() == s;
      for k := 0 to count
        invariant |lines| == k && Terminated(lines) + Stream() == s
        invariant forall i :: 0 <= i < k ==> IsLine(lines[i])
        invariant forall i :: 0 <= i < |pending| ==> pending[i] != []
      {
        ghost var before := Stream();
        var line := ReadLine();
        if line.Err? {
          forall all, rest | Split(s, all, rest) && |all| == count ensures false {
            NextLineThere(s, lines, before, all, rest);
          }
          return Err(line.error);
        }
        assert before == line.value + [NEWLINE] + Stream();
        assert (lines + [line.value])[..k] == lines;
        assert Terminated(lines) + before == Terminated(lines) + line.value + [NEWLINE] + Stream();
        lines := lines + [line.value];
      }
      r := Ok(lines);
    }
  }

  /** The stream begins with these lines, each within the limit. */
  ghost predicate Split(s: Bytes, lines: seq<Bytes>, rest: Bytes) {
    s == Terminated(lines) + rest && forall i :: 0 <= i < |lines| ==> IsLine(lines[i])
  }

  lemma {:induction false} TerminatedConcat(a: seq<Bytes>, b: seq<Bytes>)
    ensures Terminated(a + b) == Terminated(a) + Terminated(b)
  {
    if b == [] {
      assert a + b == a;
    } else {
      assert (a + b)[..|a + b| - 1] == a + b[..|b| - 1];
      TerminatedConcat(a, b[..|b| - 1]);
    }
  }

  lemma OneLine(line: Bytes)
    ensures Terminated([line]) == line + [NEWLINE]
  {
    assert [line][..0] == [];
  }

  lemma FirstLineIs(line: Bytes, rest: Bytes)
    requires NEWLINE !in line
    ensures FindNewline(line + [NEWLINE] + rest) == |line|
  {
    NewlineUnique(line + [NEWLINE] + rest, |line|);
  }

  /** A stream splits into a given number of lines in at most one way. */
  lemma {:induction false} SplitUnique(s: Bytes, a: seq<Bytes>, ra: Bytes, b: seq<Bytes>, rb: Bytes)
    requires Split(s, a, ra) && Split(s, b, rb) && |a| <= |b|
    ensures a == b[..|a|] && ra == Terminated(b[|a|..]) + rb
  {
    hide IsLine;
    if a == [] {
      assert b[0..] == b;
    } else {
      HeadLine(s, a, ra);
      HeadLine(s, b, rb);
      var n := FindNewline(s);
      SplitUnique(s[n + 1..], a[1..], ra, b[1..], rb);
      assert a == [a[0]] + a[1..] && b == [b[0]] + b[1..] && b[1..][|a| - 1..] == b[|a|..];
    }
  }

  lemma HeadLine(s: Bytes, lines: seq<Bytes>, rest: Bytes)
    requires Split(s, lines, rest) && lines != []
    ensures FindNewline(s) == |lines[0]| < |s| && s[..|lines[0]|] == lines[0]
      && Split(s[|lines[0]| + 1..], lines[1..], rest)
  {
    hide FindNewline, Terminated;
    assert lines == [lines[0]] + lines[1..];
    TerminatedConcat([lines[0]], lines[1..]);
    OneLine(lines[0]);
    assert IsLine(lines[0]);
    var after := Terminated(lines[1..]) + rest;
    CutLine(s, lines[0], Terminated(lines[1..]), rest);
    FirstLineIs(lines[0], after);
  }

  lemma CutLine(s: Bytes, line: Bytes, more: Bytes, rest: Bytes)
    requires s == line + [NEWLINE] + more + rest
    ensures |line| < |s| && s[..|line|] == line && s[|line| + 1..] == more + rest && s == line + [NEWLINE]
      + (more + rest)
  {
  }

  /** If more lines follow, the next one can be read. */
  lemma NextLineThere(s: Bytes, lines: seq<Bytes>, left: Bytes, all: seq<Bytes>, rest: Bytes)
    requires Split(s, all, rest) && Split(s, lines, left) && |lines| < |all|
    ensures FindNewline(left) < |left| && FindNewline(left) <= MAX_RESPONSE_BYTES
  {
    hide FindNewline, Terminated, IsLine;
    SplitUnique(s, lines, left, all, rest);
    var more := all[|lines|..];
    assert forall i :: 0 <= i < |more| ==> more[i] == all[|lines| + i];
    HeadLine(left, more, rest);
    assert IsLine(more[0]);
    LineLength(more[0]);
  }

  lemma LineLength(line: Bytes)
    requires IsLine(line)
    ensures |line| <= MAX_RESPONSE_BYTES
  {
  }
}
