/** The string functions the text algorithms use: `split('\n')`, `trim`, `startsWith`. */
module Text {

  /** White space and line terminators as `String.prototype.trim` removes them. */
  predicate IsSpace(c: char) {
    '\t' <= c <= '\r' || c == ' ' || c == '\U{00A0}' || c == '\U{1680}' || '\U{2000}' <= c <= '\U{200A}'
    || c == '\U{2028}' || c == '\U{2029}' || c == '\U{202F}' || c == '\U{205F}' || c == '\U{3000}' || c == '\U{FEFF}'
  }

  function TrimStart(s: string): string {
    if s != "" && IsSpace(s[0]) then TrimStart(s[1..]) else s
  }

  function TrimEnd(s: string): string {
    if s != "" && IsSpace(s[|s| - 1]) then TrimEnd(s[..|s| - 1]) else s
  }

  function Trim(s: string): string {
    TrimEnd(TrimStart(s))
  }

  lemma Regroup(a: string, b: string, c: string)
    ensures a + (b + c) == a + b + c
    ensures a + b + "" == a + b
  {
  }

  /** The characters of `s` that are not white space, in order. */
  function Ink(s: string): string {
    if s == "" then "" else (if IsSpace(s[0]) then "" else [s[0]]) + Ink(s[1..])
  }

  lemma {:induction false} InkConcat(a: string, b: string)
    ensures Ink(a + b) == Ink(a) + Ink(b)
  {
    if a == "" {
      assert a + b == b;
    } else {
      assert (a + b)[0] == a[0] && (a + b)[1..] == a[1..] + b;
      InkConcat(a[1..], b);
    }
  }

  lemma {:induction false} InkTrimStart(s: string)
    ensures Ink(TrimStart(s)) == Ink(s)
  {
    if s != "" && IsSpace(s[0]) { InkTrimStart(s[1..]); }
  }

  lemma {:induction false} InkTrimEnd(s: string)
    ensures Ink(TrimEnd(s)) == Ink(s)
  {
    if s != "" && IsSpace(s[|s| - 1]) {
      var n := |s| - 1;
      assert s == s[..n] + [s[n]];
      InkConcat(s[..n], [s[n]]);
      assert Ink([s[n]]) == "";
      InkTrimEnd(s[..n]);
    }
  }

  /** Trimming removes no ink, and leaves nothing exactly when there is none. */
  lemma InkTrim(s: string)
    ensures Ink(Trim(s)) == Ink(s)
    ensures Trim(s) == "" <==> Ink(s) == ""
  {
    InkTrimStart(s);
    InkTrimEnd(TrimStart(s));
    var t := Trim(s);
    if t != "" {
      TrimEndLast(TrimStart(s));
      var n := |t| - 1;
      assert t == t[..n] + [t[n]];
      InkConcat(t[..n], [t[n]]);
      assert Ink([t[n]]) == [t[n]];
    }
  }

  lemma TrimSettled(s: string)
    requires s != "" && !IsSpace(s[0]) && !IsSpace(s[|s| - 1])
    ensures Trim(s) == s
  {
  }

  lemma {:induction false} TrimEndLast(s: string)
    ensures TrimEnd(s) != "" ==> !IsSpace(TrimEnd(s)[|TrimEnd(s)| - 1])
  {
    if s != "" && IsSpace(s[|s| - 1]) { TrimEndLast(s[..|s| - 1]); }
  }

  /**
   * `s.trim()`, exactly: one stretch of `s` with all its ink, and no white space at either end.
   */
  lemma TrimExact(s: string) returns (a: nat, b: nat)
    ensures a <= b <= |s| && Trim(s) == s[a..b] && Ink(Trim(s)) == Ink(s) && Trim(Trim(s)) == Trim(s)
    ensures Trim(s) != "" ==> !IsSpace(Trim(s)[0]) && !IsSpace(Trim(s)[|Trim(s)| - 1])
  {
    a := TrimStartExact(s);
    var t := TrimStart(s);
    var n := TrimEndExact(t);
    b := a + n;
    assert s[a..b] == t[..n];
    InkTrim(s);
    TrimEndLast(t);
    if Trim(s) != "" {
      assert Trim(s)[0] == t[0];
      TrimSettled(Trim(s));
    }
  }

  lemma {:induction false} TrimStartExact(s: string) returns (a: nat)
    ensures a <= |s| && TrimStart(s) == s[a..] && (TrimStart(s) != "" ==> !IsSpace(TrimStart(s)[0]))
  {
    a := 0;
    if s != "" && IsSpace(s[0]) {
      var n := TrimStartExact(s[1..]);
      a := n + 1;
    }
  }

  lemma {:induction false} TrimEndExact(s: string) returns (n: nat)
    ensures n <= |s| && TrimEnd(s) == s[..n]
  {
    n := |s|;
    if s != "" && IsSpace(s[|s| - 1]) { n := TrimEndExact(s[..|s| - 1]); }
  }

  /** `s.split('\n')` */
  function Lines(s: string): (r: seq<string>)
    ensures |r| > 0
  {
    if s == "" then [""]
    else
      var rest := Lines(s[1..]);
      if s[0] == '\n' then [""] + rest else [[s[0]] + rest[0]] + rest[1..]
  }

  /** `y` continued on the last line of `x`. */
  function Joined(x: seq<string>, y: seq<string>): (r: seq<string>)
    requires |x| > 0 && |y| > 0
    ensures |r| > 0
  {
    x[..|x| - 1] + [x[|x| - 1] + y[0]] + y[1..]
  }

  lemma JoinedBreak(x: seq<string>, y: seq<string>)
    requires |x| > 0 && |y| > 0
    ensures Joined([""] + x, y) == [""] + Joined(x, y)
  {
  }

  lemma JoinedChar(c: char, x: seq<string>, y: seq<string>)
    requires |x| > 0 && |y| > 0
    ensures Joined([[c] + x[0]] + x[1..], y) == [[c] + Joined(x, y)[0]] + Joined(x, y)[1..]
  {
    if |x| == 1 {
      assert ([c] + x[0]) + y[0] == [c] + (x[0] + y[0]);
    }
  }

  /** Appending text extends the last line and adds the text's further lines. */
  lemma {:induction false} LinesConcat(a: string, b: string)
    ensures Lines(a + b) == Joined(Lines(a), Lines(b))
  {
    var y := Lines(b);
    if a == "" {
      assert a + b == b;
      assert "" + y[0] == y[0];
    } else {
      assert (a + b)[0] == a[0] && (a + b)[1..] == a[1..] + b;
      LinesConcat(a[1..], b);
      if a[0] == '\n' { JoinedBreak(Lines(a[1..]), y); } else { JoinedChar(a[0], Lines(a[1..]), y); }
    }
  }

  lemma {:induction false} FirstLine(line: string, rest: string)
    requires '\n' !in line
    ensures Lines(line) == [line] && Lines(line + "\n" + rest) == [line] + Lines(rest)
  {
    var all := line + "\n" + rest;
    if line == "" {
      assert all[1..] == rest;
    } else {
      assert all[0] == line[0] && all[1..] == line[1..] + "\n" + rest && [line[0]] + line[1..] == line;
      FirstLine(line[1..], rest);
    }
  }

  lemma {:induction false} LineHasNoBreak(s: string, k: nat)
    requires k < |Lines(s)|
    ensures '\n' !in Lines(s)[k] && Lines(Lines(s)[k]) == [Lines(s)[k]]
    decreases |s|
  {
    if s != "" {
      var rest := Lines(s[1..]);
      if s[0] == '\n' {
        if k > 0 { LineHasNoBreak(s[1..], k - 1); }
      } else {
        LineHasNoBreak(s[1..], k);
        if k == 0 {
          var l := [s[0]] + rest[0];
          assert l[1..] == rest[0];
        }
      }
    }
  }

  function InkOfLines(lines: seq<string>): string {
    if lines == [] then "" else Ink(lines[0]) + InkOfLines(lines[1..])
  }

  lemma {:induction false} InkOfLinesBack(lines: seq<string>, l: string)
    ensures InkOfLines(lines + [l]) == InkOfLines(lines) + Ink(l)
  {
    var all := lines + [l];
    if lines == [] {
      assert all[1..] == [];
    } else {
      assert all[0] == lines[0] && all[1..] == lines[1..] + [l];
      InkOfLinesBack(lines[1..], l);
    }
  }

  lemma {:induction false} InkOfSplit(s: string)
    ensures InkOfLines(Lines(s)) == Ink(s)
  {
    if s != "" {
      var rest := Lines(s[1..]);
      InkOfSplit(s[1..]);
      if s[0] == '\n' {
        assert ([""] + rest)[1..] == rest;
      } else {
        InkConcat([s[0]], rest[0]);
        assert Lines(s)[1..] == rest[1..];
      }
    }
  }
}
