/** The stream buffer behind the log stream: characters in, log lines out. */
module LoggerBuf {
  import opened Wrappers

  type Text = seq<char>

  /** The first line end in `s`, if any. */
  function FindLineEnd(s: Text): (r: Option<nat>)
    ensures r.Some? ==> r.value < |s| && s[r.value] == '\n' && '\n' !in s[..r.value]
    ensures r.None? ==> '\n' !in s
  {
    if s == [] then None
    else if s[0] == '\n' then Some(0)
    else
      var r := FindLineEnd(s[1..]);
      if r.None? then None
      else
        assert s[..r.value + 1] == [s[0]] + s[1..][..r.value];
        Some(r.value + 1)
  }

  /** The newline-terminated lines of `s`, as written. */
  function RawLines(s: Text): seq<Text>
    decreases |s|
  {
    var n := FindLineEnd(s);
    if n.None? then [] else [s[..n.value]] + RawLines(s[n.value + 1..])
  }

  /** What follows the last line end of `s`. */
  function Rest(s: Text): Text
    decreases |s|
  {
    var n := FindLineEnd(s);
    if n.None? then s else Rest(s[n.value + 1..])
  }

  /** One trailing carriage return is dropped. */
  function Trim(line: Text): Text {
    if |line| > 0 && line[|line| - 1] == '\r' then line[..|line| - 1] else line
  }

  /** What is dropped is one '\r' at the end, exactly when there is one. */
  lemma TrimSays(line: Text)
    ensures line == Trim(line) || line == Trim(line) + ['\r']
    ensures line == Trim(line) <==> (line == [] || line[|line| - 1] != '\r')
    ensures Trim(line + ['\r']) == line
  {
  }

  function TrimAll(lines: seq<Text>): (r: seq<Text>)
    ensures |r| == |lines| && forall i :: 0 <= i < |r| ==> r[i] == Trim(lines[i])
  {
    if lines == [] then [] else [Trim(lines[0])] + TrimAll(lines[1..])
  }

  function Lines(s: Text): seq<Text> {
    TrimAll(RawLines(s))
  }

  /** Each line followed by its end. */
  function Terminated(lines: seq<Text>): Text {
    if lines == [] then [] else lines[0] + ['\n'] + Terminated(lines[1..])
  }

  // ------------------------------------------------------------------
  // Splitting is the inverse of writing lines.

  ghost predicate Plain(lines: seq<Text>) {
    forall i :: 0 <= i < |lines| ==> '\n' !in lines[i]
  }

  lemma TerminatedOfCons(line: Text, lines: seq<Text>, rest: Text)
    ensures Terminated([line] + lines) + rest == line + ['\n'] + (Terminated(lines) + rest)
  {
    assert ([line] + lines)[1..] == lines;
  }

  lemma AroundLineEnd(s: Text, n: nat)
    requires n < |s| && s[n] == '\n'
    ensures s == s[..n] + ['\n'] + s[n + 1..]
  {
  }

  lemma FirstLine(s: Text, n: nat)
    requires FindLineEnd(s) == Some(n)
    ensures RawLines(s) == [s[..n]] + RawLines(s[n + 1..])
  {
  }

  lemma RestAfterFirst(s: Text, n: nat)
    requires FindLineEnd(s) == Some(n)
    ensures Rest(s) == Rest(s[n + 1..])
  {
  }

  lemma {:induction false} SplitIsInverse(s: Text)
    ensures Terminated(RawLines(s)) + Rest(s) == s
    ensures '\n' !in Rest(s) && Plain(RawLines(s))
    decreases |s|
  {
    var n := FindLineEnd(s);
    if n.Some? {
      var line, tail := s[..n.value], s[n.value + 1..];
      SplitIsInverse(tail);
      FirstLine(s, n.value);
      RestAfterFirst(s, n.value);
      AroundLineEnd(s, n.value);
      TerminatedOfCons(line, RawLines(tail), Rest(tail));
    }
  }

  lemma {:induction false} FirstLineEnd(line: Text, tail: Text)
    requires '\n' !in line
    ensures FindLineEnd(line + ['\n'] + tail) == Some(|line|)
  {
    if line != [] {
      assert (line + ['\n'] + tail)[1..] == line[1..] + ['\n'] + tail;
      FirstLineEnd(line[1..], tail);
    }
  }

  lemma SplitFirst(line: Text, tail: Text)
    requires '\n' !in line
    ensures RawLines(line + ['\n'] + tail) == [line] + RawLines(tail)
    ensures Rest(line + ['\n'] + tail) == Rest(tail)
  {
    var s := line + ['\n'] + tail;
    FirstLineEnd(line, tail);
    assert s[..|line|] == line && s[|line| + 1..] == tail;
  }

  /** No other lines and rest give the same stream. */
  lemma {:induction false} SplitIsUnique(s: Text, lines: seq<Text>, rest: Text)
    requires '\n' !in rest && Plain(lines) && s == Terminated(lines) + rest
    ensures RawLines(s) == lines && Rest(s) == rest
    decreases |lines|
  {
    if lines == [] {
      assert s == rest;
    } else {
      var tail := Terminated(lines[1..]) + rest;
      assert s == lines[0] + ['\n'] + tail;
      SplitFirst(lines[0], tail);
      SplitIsUnique(tail, lines[1..], rest);
    }
  }

  lemma {:induction false} TrimAllOfAppend(a: seq<Text>, b: seq<Text>)
    ensures TrimAll(a + b) == TrimAll(a) + TrimAll(b)
  {
  }

  lemma {:induction false} TerminatedOfAppend(a: seq<Text>, b: seq<Text>)
    ensures Terminated(a + b) == Terminated(a) + Terminated(b)
  {
    if a == [] {
      assert a + b == b;
    } else {
      assert (a + b)[1..] == a[1..] + b;
      TerminatedOfAppend(a[1..], b);
    }
  }

  lemma JoinSplits(s: Text, a: seq<Text>, r: Text, t: Text, b: seq<Text>, q: Text)
    requires s == Terminated(a) + r && r + t == Terminated(b) + q
    ensures s + t == Terminated(a + b) + q
  {
    TerminatedOfAppend(a, b);
    calc {
      s + t;
      Terminated(a) + (r + t);
      Terminated(a) + (Terminated(b) + q);
      Terminated(a + b) + q;
    }
  }

  /** Splitting a stream in two steps: the second step starts from the rest of the first. */
  lemma SplitInSteps(s: Text, t: Text)
    ensures Lines(s + t) == Lines(s) + Lines(Rest(s) + t)
    ensures Rest(s + t) == Rest(Rest(s) + t)
  {
    var u := Rest(s) + t;
    var a, b := RawLines(s), RawLines(u);
    SplitIsInverse(s);
    SplitIsInverse(u);
    JoinSplits(s, a, Rest(s), t, b, Rest(u));
    SplitIsUnique(s + t, a + b, Rest(u));
    TrimAllOfAppend(a, b);
  }

  lemma FirstOfLines(s: Text)
    requires FindLineEnd(s).Some?
    ensures
      var n := FindLineEnd(s).value;
      Lines(s) == [Trim(s[..n])] + Lines(s[n + 1..]) && Rest(s) == Rest(s[n + 1..])
  {
  }

  lemma MoveFirst(a: seq<Text>, line: Text, b: seq<Text>)
    ensures a + ([line] + b) == (a + [line]) + b
  {
  }

  lemma NoLineEnd(s: Text)
    requires FindLineEnd(s).None?
    ensures Lines(s) == [] && Rest(s) == s
  {
  }

  lemma FlushCatchesUp(w: Text, k: nat)
    requires k <= |w|
    ensures Lines(w[..k]) + Lines(Rest(w[..k]) + w[k..]) == Lines(w)
    ensures Rest(Rest(w[..k]) + w[k..]) == Rest(w)
  {
    var a, b := w[..k], w[k..];
    assert w == a + b;
    SplitInSteps(a, b);
  }

  // ------------------------------------------------------------------

  const BUF_SIZE := 1024

  class BasicLoggerBuf {
    const buf: array<char>
    /** How much of `buf` is in use. */
    var pptr: nat
    var overflowBuf: Text
    /** The lines written to the log. */
    var lines: seq<Text>

    /** Everything put into the stream, and how much of it the last flush saw. */
    ghost var written: Text
    ghost var flushed: nat

    ghost predicate Valid()
      reads this, buf
    {
      && buf.Length == BUF_SIZE && pptr <= BUF_SIZE && flushed <= |written|
      && lines == Lines(written[..flushed])
      && overflowBuf + buf[..pptr] == Rest(written[..flushed]) + written[flushed..]
    }

    constructor ()
      ensures Valid() && fresh(buf) && written == [] && lines == [] && flushed == 0
    {
      buf := new char[BUF_SIZE];
      pptr, overflowBuf, lines := 0, [], [];
      written, flushed := [], 0;
    }

    /** std::basic_streambuf::sputc. */
    method Sputc(c: char)
      requires Valid()
      modifies this, buf
      ensures Valid() && written == old(written) + [c]
      ensures lines == old(lines) && flushed == old(flushed)
    {
      if pptr < BUF_SIZE {
        Store(c);
      } else {
        Overflow(Some(c));
      }
    }

    method Store(c: char)
      requires Valid() && pptr < BUF_SIZE
      modifies this, buf
      ensures Valid() && written == old(written) + [c] && pptr == old(pptr) + 1
      ensures lines == old(lines) && flushed == old(flushed) && overflowBuf == old(overflowBuf)
    {
      ghost var kept := overflowBuf + buf[..pptr];
      buf[pptr] := c;
      pptr := pptr + 1;
      written := written + [c];
      assert overflowBuf + buf[..pptr] == kept + [c];
      assert written[..flushed] == old(written)[..flushed];
      assert written[flushed..] == old(written)[flushed..] + [c];
    }

    /** BasicLoggerBuf::overflow; `None` stands for end of file. */
    method Overflow(c: Option<char>)
      requires Valid()
      modifies this, buf
      ensures Valid()
      ensures written == old(written) + (if c.Some? then [c.value] else [])
      ensures lines == old(lines) && flushed == old(flushed)
    {
      overflowBuf := overflowBuf + buf[..pptr];
      pptr := 0;
      if c.Some? {
        Store(c.value);
      }
    }

    /** The loop of BasicLoggerBuf::sync. */
    method EmitLines()
      modifies this`lines, this`overflowBuf
      ensures lines == old(lines) + Lines(old(overflowBuf))
      ensures overflowBuf == Rest(old(overflowBuf))
    {
      ghost var total, rest := lines + Lines(overflowBuf), Rest(overflowBuf);
      var n := FindLineEnd(overflowBuf);
      while n.Some?
        invariant n == FindLineEnd(overflowBuf)
        invariant lines + Lines(overflowBuf) == total
        invariant Rest(overflowBuf) == rest
        decreases |overflowBuf|
      {
        var message := overflowBuf[..n.value];
        if |message| > 0 && message[|message| - 1] == '\r' {
          message := message[..|message| - 1];
        }
        FirstOfLines(overflowBuf);
        MoveFirst(lines, message, Lines(overflowBuf[n.value + 1..]));
        lines := lines + [message];
        overflowBuf := overflowBuf[n.value + 1..];
        n := FindLineEnd(overflowBuf);
      }
      NoLineEnd(overflowBuf);
    }

    /** BasicLoggerBuf::sync. */
    method Sync()
      requires Valid()
      modifies this
      ensures Valid() && written == old(written) && flushed == |written|
      ensures lines == Lines(written)
      ensures overflowBuf == Rest(written) && pptr == 0
    {
      overflowBuf := overflowBuf + buf[..pptr];
      EmitLines();
      pptr := 0;
      FlushCatchesUp(written, flushed);
      flushed := |written|;
      assert written[..flushed] == written && written[flushed..] == [];
      assert overflowBuf + buf[..0] == overflowBuf;
    }
  }
}
