/**
 * Where `daemon logs` starts printing: the reverse scan of the log file for its last lines, in
 * chunks of a fixed buffer (server/cmd/algoplan/cmd_daemon_windows.go).
 */
module TailLog {

  newtype byte = x: int | 0 <= x < 256

  const NEWLINE: byte := 10

  function Newlines(s: seq<byte>): nat {
    if s == [] then 0 else Newlines(s[1..]) + if s[0] == NEWLINE then 1 else 0
  }

  lemma {:induction false} NewlinesConcat(a: seq<byte>, b: seq<byte>)
    ensures Newlines(a + b) == Newlines(a) + Newlines(b)
  {
    if a == [] {
      assert a + b == b;
    } else {
      assert (a + b)[0] == a[0] && (a + b)[1..] == a[1..] + b;
      NewlinesConcat(a[1..], b);
    }
  }

  /**
   * The start of the tail: either right behind a newline with exactly `lines` newlines after it, or
   * the beginning of a file that has no more than `lines`. A negative count asks for none.
   */
  ghost predicate IsTailStart(file: seq<byte>, lines: int, start: int) {
    var wanted := if lines < 0 then 0 else lines;
    && 0 <= start <= |file|
    && (if start == 0 then Newlines(file) <= wanted
        else file[start - 1] == NEWLINE && Newlines(file[start..]) == wanted)
  }

  /** There is exactly one such position, so chunking cannot influence it. */
  lemma TailStartUnique(file: seq<byte>, lines: int, a: int, b: int)
    requires IsTailStart(file, lines, a) && IsTailStart(file, lines, b)
    ensures a == b
  {
    if a < b {
      TailStartNotBefore(file, lines, a, b);
    } else if b < a {
      TailStartNotBefore(file, lines, b, a);
    }
  }

  lemma TailStartNotBefore(file: seq<byte>, lines: int, a: int, b: int)
    requires IsTailStart(file, lines, a) && 0 <= a < b <= |file| && file[b - 1] == NEWLINE
    ensures Newlines(file[b..]) < if lines < 0 then 0 else lines
  {
    assert file[a..] == file[a..b - 1] + file[b - 1..];
    NewlinesConcat(file[a..b - 1], file[b - 1..]);
    assert file[b - 1..][1..] == file[b..];
    assert file[0..] == file;
  }

  /** The one-line specification: step back from the end over `wanted` newlines, to behind the next one. */
  function TailSpec(file: seq<byte>, wanted: nat): nat {
    if file == [] then 0
    else if file[|file| - 1] == NEWLINE && wanted == 0 then |file|
    else TailSpec(file[..|file| - 1], if file[|file| - 1] == NEWLINE then wanted - 1 else wanted)
  }

  /** The recursive reading of "skip `lines` newlines from the end" is the same position. */
  lemma {:induction false} TailSpecIsTailStart(file: seq<byte>, wanted: nat)
    ensures IsTailStart(file, wanted, TailSpec(file, wanted))
  {
    if file != [] {
      var n := |file| - 1;
      var init, last := file[..n], file[n];
      assert file == init + [last];
      if last == NEWLINE && wanted == 0 {
        assert file[|file|..] == [];
      } else {
        var rest := if last == NEWLINE then wanted - 1 else wanted;
        TailSpecIsTailStart(init, rest);
        var t := TailSpec(init, rest);
        NewlinesConcat(init, [last]);
        NewlinesConcat(init[t..], [last]);
        assert file[t..] == init[t..] + [last];
      }
    }
  }

  lemma TailStartIsSpec(file: seq<byte>, lines: int, start: int)
    requires IsTailStart(file, lines, start)
    ensures start == TailSpec(file, if lines < 0 then 0 else lines)
  {
    var wanted := if lines < 0 then 0 else lines;
    TailSpecIsTailStart(file, wanted);
    TailStartUnique(file, lines, start, TailSpec(file, wanted));
  }

  /** `f.ReadAt(scanBuf[:chunk], pos)` on a file that does not change meanwhile. */
  method ReadAt(file: seq<byte>, buf: array<byte>, chunk: int, pos: int)
    requires 0 <= chunk <= buf.Length && 0 <= pos && pos + chunk <= |file|
    modifies buf
    ensures buf[..chunk] == file[pos..pos + chunk]
    ensures buf[chunk..] == old(buf[chunk..])
  {
    forall k | 0 <= k < chunk {
      buf[k] := file[pos + k];
    }
  }

  /** The scan as the program runs it, for any buffer size. */
  method FindTailStart(file: seq<byte>, lines: int, bufSize: nat) returns (tailStart: int)
    requires bufSize > 0
    ensures IsTailStart(file, lines, tailStart)
    ensures tailStart == TailSpec(file, if lines < 0 then 0 else lines)
  {
    tailStart := 0;
    var nlCount := 0;
    assert file[|file|..] == [];
    if |file| > 0 {
      var scanBuf := new byte[bufSize](_ => 0);
      var pos := |file|;
      while pos > 0
        invariant 0 <= pos <= |file|
        invariant nlCount == Newlines(file[pos..]) && (nlCount == 0 || nlCount <= lines)
      {
        var chunk := scanBuf.Length;
        if chunk > pos {
          chunk := pos;
        }
        pos := pos - chunk;
        ReadAt(file, scanBuf, chunk, pos);
        var i := chunk - 1;
        while i >= 0
          invariant -1 <= i < chunk
          invariant scanBuf[..chunk] == file[pos..pos + chunk]
          invariant nlCount == Newlines(file[pos + i + 1..]) && (nlCount == 0 || nlCount <= lines)
        {
          assert scanBuf[..chunk][i] == file[pos + i];
          assert file[pos + i..][1..] == file[pos + i + 1..];
          if scanBuf[i] == NEWLINE {
            nlCount := nlCount + 1;
            if nlCount > lines {
              tailStart := pos + i + 1;
              TailStartIsSpec(file, lines, tailStart);
              return;
            }
          }
          i := i - 1;
        }
      }
      assert file[0..] == file;
    }
    TailStartIsSpec(file, lines, tailStart);
  }

  /** The last line of a file of three, and of one whose last line has no line break, in bytes. */
  lemma LastLines()
    ensures TailSpec([97, 10, 98, 10, 99, 10], 1) == 4
    ensures TailSpec([97, 10, 98], 0) == 2 && TailSpec([97, 10, 98], 1) == 0
  {
    IsTailOf([97, 10, 98, 10], [99, 10], 1);
    IsTailOf([97, 10], [98], 0);
    var file: seq<byte> := [97, 10, 98];
    assert Newlines([98]) == 0 && file[1..] == [10, 98] && file[1..][1..] == [98];
    assert Newlines(file[1..]) == 1 && Newlines(file) == 1;
    TailStartIsSpec(file, 1, 0);
    assert [97, 10, 98, 10] + [99, 10] == [97, 10, 98, 10, 99, 10];
    assert [97, 10] + [98] == file;
    assert [99, 10][1..] == [10] && Newlines([10]) == 1 && Newlines([99, 10]) == 1;
  }

  /** `tail` behind a line break, with `lines` of them in it, is where the scan stops. */
  lemma IsTailOf(head: seq<byte>, tail: seq<byte>, lines: nat)
    requires head != [] && head[|head| - 1] == 10
    ensures Newlines(tail) == lines ==> TailSpec(head + tail, lines) == |head|
  {
    var file := head + tail;
    assert file[|head|..] == tail && file[|head| - 1] == head[|head| - 1];
    if Newlines(tail) == lines { TailStartIsSpec(file, lines, |head|); }
  }
}
