/**
 * What the splitter of StreamingMarkdown.tsx is for, said block by block instead of line by line: a
 * fence opens code up to the next fence, a `$$` line opens math up to the next one, and the lines between
 * two boundaries are one paragraph.
 */
module MarkdownStructure {
  import opened Text
  import opened StreamingMarkdown

  /** `begun`, `ended`: whether the block has its first, its last delimiter line. */
  datatype Piece =
    | Paragraph(content: string)
    | Code(content: string, ended: bool)
    | Math(content: string, begun: bool, ended: bool)
    | CutMath(content: string)       // interrupted by a fence, and trimmed

  function BlockOf(p: Piece): Block {
    Block(p.content, p.Code?)
  }

  function BlocksOf(ps: seq<Piece>): (r: seq<Block>)
    ensures |r| == |ps| && forall k :: 0 <= k < |ps| ==> r[k] == BlockOf(ps[k])
  {
    seq(|ps|, k requires 0 <= k < |ps| => BlockOf(ps[k]))
  }

  /** `lines.join('\n')` */
  function Join(lines: seq<string>): string {
    if lines == [] then "" else if |lines| == 1 then lines[0] else lines[0] + "\n" + Join(lines[1..])
  }

  datatype Inside = TextLines | CodeLines | MathLines

  /** The lines that a block goes on with. */
  predicate GoesOn(k: Inside, line: string) {
    match k
    case TextLines => !Fence(line) && !MathFence(line) && line != ""
    case CodeLines => !Fence(line)
    case MathLines => !Fence(line) && !MathFence(line)
  }

  /** How many of the first lines it goes on with. */
  function Span(lines: seq<string>, k: Inside): (n: nat)
    ensures n <= |lines| && (forall i :: 0 <= i < n ==> GoesOn(k, lines[i])) && (n < |lines| ==> !GoesOn(k, lines[n]))
  {
    if lines == [] || !GoesOn(k, lines[0]) then 0
    else
      assert forall i :: 1 <= i < |lines| ==> lines[i] == lines[1..][i - 1];
      1 + Span(lines[1..], k)
  }

  /** Where the code block that starts with the first line has its closing fence. */
  function CodeEnd(lines: seq<string>): (n: nat)
    requires lines != []
    ensures 0 < n <= |lines| && (forall i :: 1 <= i < n ==> !Fence(lines[i])) && (n < |lines| ==> Fence(lines[n]))
  {
    assert forall i :: 1 <= i < |lines| ==> lines[i] == lines[1..][i - 1];
    1 + Span(lines[1..], CodeLines)
  }

  /** Where the math that starts with the first line, or goes on there, ends or is interrupted. */
  function MathEnd(lines: seq<string>, inMath: bool): (n: nat)
    requires lines != []
    ensures (if inMath then 0 else 1) <= n <= |lines|
    ensures forall i :: (if inMath then 0 else 1) <= i < n ==> GoesOn(MathLines, lines[i])
    ensures n < |lines| ==> Fence(lines[n]) || MathFence(lines[n])
  {
    if inMath then Span(lines, MathLines)
    else
      assert forall i :: 1 <= i < |lines| ==> lines[i] == lines[1..][i - 1];
      1 + Span(lines[1..], MathLines)
  }

  /**
   * The blocks of `lines`. `inMath`: math was interrupted by code and goes on. `blank`: white space is
   * left over from lines before, which shows only if nothing follows.
   */
  function Parse(lines: seq<string>, inMath: bool, blank: bool): seq<Piece>
    decreases |lines|, 1
  {
    if lines == [] then if blank then [Paragraph("")] else []
    else if Fence(lines[0]) then FromCode(lines, inMath)
    else if inMath || MathFence(lines[0]) then FromMath(lines, inMath)
    else if lines[0] == "" then Parse(lines[1..], false, blank)
    else FromText(lines)
  }

  function FromCode(lines: seq<string>, inMath: bool): seq<Piece>
    requires lines != []
    decreases |lines|, 0
  {
    var n := CodeEnd(lines);
    if n == |lines| then [Code(Join(lines) + "\n", false)]
    else [Code(Join(lines[..n + 1]), true)] + Parse(lines[n + 1..], inMath, false)
  }

  function FromMath(lines: seq<string>, inMath: bool): seq<Piece>
    requires lines != [] && !Fence(lines[0])
    decreases |lines|, 0
  {
    var n := MathEnd(lines, inMath);
    if n == |lines| then [Math(Join(lines) + "\n", !inMath, false)]
    else if Fence(lines[n]) then Cut(Join(lines[..n])) + Parse(lines[n..], true, false)
    else [Math(Join(lines[..n + 1]), !inMath, true)] + Parse(lines[n + 1..], false, false)
  }

  /** Math in front of a fence; white space alone is dropped. */
  function Cut(math: string): seq<Piece> {
    if Trim(math) == "" then [] else [CutMath(Trim(math))]
  }

  function FromText(lines: seq<string>): seq<Piece>
    requires lines != [] && GoesOn(TextLines, lines[0])
    decreases |lines|, 0
  {
    var n := Span(lines, TextLines);
    var text := Trim(Join(lines[..n]));
    if text == "" then Parse(lines[n..], false, true) else [Paragraph(text)] + Parse(lines[n..], false, false)
  }

  // ----- the machine computes it -----

  /** The machine from `st` on. */
  function Resume(st: State, lines: seq<string>): State
    decreases |lines|
  {
    if lines == [] then st else Resume(Next(st, lines[0]), lines[1..])
  }

  lemma {:induction false} ResumeBack(st: State, lines: seq<string>, line: string)
    ensures Resume(st, lines + [line]) == Next(Resume(st, lines), line)
    decreases |lines|
  {
    var all := lines + [line];
    if lines == [] {
      assert all[1..] == [];
    } else {
      assert all[0] == lines[0] && all[1..] == lines[1..] + [line];
      ResumeBack(Next(st, lines[0]), lines[1..], line);
    }
  }

  lemma {:induction false} FoldIsResume(lines: seq<string>)
    ensures Fold(lines) == Resume(INITIAL, lines)
  {
    if lines != [] {
      var n := |lines| - 1;
      FoldIsResume(lines[..n]);
      ResumeBack(INITIAL, lines[..n], lines[n]);
      assert lines[..n] + [lines[n]] == lines;
    }
  }

  lemma {:induction false} ResumeSplit(st: State, lines: seq<string>, n: nat)
    requires n <= |lines|
    ensures Resume(st, lines) == Resume(Resume(st, lines[..n]), lines[n..])
    decreases n
  {
    if n == 0 {
      assert lines[..0] == [] && lines[0..] == lines;
    } else {
      ResumeSplit(Next(st, lines[0]), lines[1..], n - 1);
      assert lines[..n][0] == lines[0] && lines[..n][1..] == lines[1..][..n - 1] && lines[n..] == lines[1..][n - 1..];
    }
  }

  /** Each line followed by a line break. */
  function Glue(lines: seq<string>): string {
    if lines == [] then "" else lines[0] + "\n" + Glue(lines[1..])
  }

  lemma {:induction false} GlueJoin(lines: seq<string>, last: string)
    ensures Glue(lines) + last == Join(lines + [last])
    ensures lines != [] ==> Glue(lines) == Join(lines) + "\n"
  {
    var all := lines + [last];
    if lines != [] {
      GlueJoin(lines[1..], last);
      assert all[0] == lines[0] && all[1..] == lines[1..] + [last];
      assert lines[0] + "\n" + Glue(lines[1..]) + last == lines[0] + "\n" + (Glue(lines[1..]) + last);
      if |lines| > 1 {
        assert lines[0] + "\n" + (Join(lines[1..]) + "\n") == lines[0] + "\n" + Join(lines[1..]) + "\n";
      }
    }
  }

  /** Inside code or math the machine only collects. */
  lemma {:induction false} Collects(st: State, lines: seq<string>)
    requires if st.inCode then forall i :: 0 <= i < |lines| ==> GoesOn(CodeLines, lines[i])
             else st.inMath && forall i :: 0 <= i < |lines| ==> GoesOn(MathLines, lines[i])
    ensures Resume(st, lines) == st.(current := st.current + Glue(lines))
    decreases |lines|
  {
    if lines == [] {
      assert st.current + "" == st.current;
    } else {
      Collects(Next(st, lines[0]), lines[1..]);
      assert st.current + lines[0] + "\n" + Glue(lines[1..]) == st.current + (lines[0] + "\n" + Glue(lines[1..]));
    }
  }

  lemma NextText(st: State, line: string)
    requires !st.inCode && !st.inMath && GoesOn(TextLines, line)
    ensures Next(st, line) == st.(current := if st.current == "" then line else st.current + "\n" + line)
  {
  }

  /** Outside it joins the lines of a paragraph. */
  lemma {:induction false} CollectsText(st: State, lines: seq<string>)
    requires !st.inCode && !st.inMath && lines != [] && forall i :: 0 <= i < |lines| ==> GoesOn(TextLines, lines[i])
    ensures Resume(st, lines) == st.(current := if st.current == "" then Join(lines) else st.current + "\n" + Join(lines))
    ensures Join(lines) != ""
    decreases |lines|
  {
    NextText(st, lines[0]);
    var st1 := Next(st, lines[0]);
    if |lines| == 1 {
      assert Resume(st, lines) == Resume(st1, lines[1..]) && lines[1..] == [];
    } else {
      var rest := Join(lines[1..]);
      CollectsText(st1, lines[1..]);
      assert Join(lines) == lines[0] + "\n" + rest;
      assert Resume(st, lines) == st1.(current := st1.current + "\n" + rest);
      if st.current != "" { LongerText(st.current, lines[0], rest); }
    }
  }

  lemma LongerText(current: string, line: string, rest: string)
    ensures current + "\n" + line + "\n" + rest == current + "\n" + (line + "\n" + rest)
  {
  }

  /** White space in front makes no difference to a trimmed text. */
  lemma {:induction false} TrimSkips(a: string, b: string)
    requires Trim(a) == ""
    ensures Trim(a + b) == Trim(b)
  {
    InkTrim(a);
    SkipStart(a, b);
  }

  lemma {:induction false} SkipStart(a: string, b: string)
    requires Ink(a) == ""
    ensures TrimStart(a + b) == TrimStart(b)
  {
    if a == "" {
      assert a + b == b;
    } else {
      assert (a + b)[0] == a[0] && (a + b)[1..] == a[1..] + b;
      SkipStart(a[1..], b);
    }
  }

  lemma TrimBreak(a: string)
    ensures Trim(a + "\n") == Trim(a)
  {
    var t := TrimStart(a);
    if Ink(a) == "" {
      SkipStart(a, "\n");
      InkTrimStart(a);
      SkipStart(a, "");
      assert a + "" == a;
    } else {
      StartThenBreak(a);
      assert (t + "\n")[..|t|] == t;
    }
  }

  lemma {:induction false} StartThenBreak(a: string)
    requires Ink(a) != ""
    ensures TrimStart(a + "\n") == TrimStart(a) + "\n"
  {
    assert (a + "\n")[0] == a[0] && (a + "\n")[1..] == a[1..] + "\n";
    if IsSpace(a[0]) { StartThenBreak(a[1..]); }
  }

  /** Between two blocks: outside code, with nothing collected but white space. */
  predicate Between(st: State) {
    !st.inCode && Trim(st.current) == "" && (st.inMath ==> st.current == "")
  }

  lemma BlocksPush(bs: seq<Block>, p: Piece, rest: seq<Piece>)
    ensures bs + [BlockOf(p)] + BlocksOf(rest) == bs + BlocksOf([p] + rest)
  {
    assert BlocksOf([p] + rest) == [BlockOf(p)] + BlocksOf(rest);
  }

  /** From between two blocks the machine produces exactly the blocks that follow. */
  lemma {:induction false} ParseExact(st: State, lines: seq<string>)
    requires Between(st)
    ensures Finish(Resume(st, lines)) == st.blocks + BlocksOf(Parse(lines, st.inMath, st.current != ""))
    decreases |lines|, 1
  {
    if lines == [] {
    } else if Fence(lines[0]) {
      ParseCode(st, lines);
    } else if st.inMath || MathFence(lines[0]) {
      ParseMath(st, lines);
    } else if lines[0] == "" {
      ParseExact(st, lines[1..]);
    } else {
      ParseText(st, lines);
    }
  }

  lemma ParseCode(st: State, lines: seq<string>)
    requires Between(st) && lines != [] && Fence(lines[0])
    ensures Finish(Resume(st, lines)) == st.blocks + BlocksOf(FromCode(lines, st.inMath))
    decreases |lines|, 0
  {
    var n := CodeEnd(lines);
    var st1 := Next(st, lines[0]);
    var body := lines[1..][..n - 1];
    assert forall i :: 0 <= i < |body| ==> body[i] == lines[i + 1];
    ResumeSplit(st1, lines[1..], n - 1);
    Collects(st1, body);
    GlueJoin([lines[0]] + body, "");
    assert Glue([lines[0]] + body) == lines[0] + "\n" + Glue(body);
    if n == |lines| {
      assert [lines[0]] + body == lines && lines[1..][n - 1..] == [];
    } else {
      var last := lines[n];
      assert lines[1..][n - 1..][0] == last && lines[1..][n - 1..][1..] == lines[n + 1..];
      GlueJoin([lines[0]] + body, last);
      assert [lines[0]] + body + [last] == lines[..n + 1];
      var st2 := Next(Resume(st1, body), last);
      assert st2 == State(st.blocks + [Block(Join(lines[..n + 1]), true)], "", false, st.inMath);
      ParseExact(st2, lines[n + 1..]);
      BlocksPush(st.blocks, Code(Join(lines[..n + 1]), true), Parse(lines[n + 1..], st.inMath, false));
    }
  }

  /** The state after the first `n` lines of math. */
  lemma MathBody(st: State, lines: seq<string>, n: nat)
    requires Between(st) && n <= |lines| && lines != [] && !Fence(lines[0]) && (st.inMath || MathFence(lines[0]))
    requires (if st.inMath then 0 else 1) <= n
    requires forall i :: (if st.inMath then 0 else 1) <= i < n ==> GoesOn(MathLines, lines[i])
    ensures Resume(st, lines) == Resume(State(st.blocks, Glue(lines[..n]), false, true), lines[n..])
  {
    ResumeSplit(st, lines, n);
    if st.inMath {
      Collects(st, lines[..n]);
      assert "" + Glue(lines[..n]) == Glue(lines[..n]);
    } else {
      var body := lines[..n][1..];
      Collects(Next(st, lines[0]), body);
      assert lines[..n][0] == lines[0];
    }
  }

  lemma ParseMath(st: State, lines: seq<string>)
    requires Between(st) && lines != [] && !Fence(lines[0]) && (st.inMath || MathFence(lines[0]))
    ensures Finish(Resume(st, lines)) == st.blocks + BlocksOf(FromMath(lines, st.inMath))
    decreases |lines|, 0, 2
  {
    var n := MathEnd(lines, st.inMath);
    MathBody(st, lines, n);
    MathEnds(st, lines, n);
  }

  /** What follows the first `n` lines of math. */
  lemma MathEnds(st: State, lines: seq<string>, n: nat)
    requires lines != [] && !Fence(lines[0]) && n == MathEnd(lines, st.inMath)
    ensures Finish(Resume(State(st.blocks, Glue(lines[..n]), false, true), lines[n..]))
            == st.blocks + BlocksOf(FromMath(lines, st.inMath))
    decreases |lines|, 0, 1
  {
    var body, rest := lines[..n], lines[n..];
    if n == |lines| {
      assert body == lines && rest == [];
      MathUnended(st.blocks, lines, !st.inMath);
      assert FromMath(lines, st.inMath) == [Math(Join(lines) + "\n", !st.inMath, false)];
    } else if Fence(lines[n]) {
      MathCut(st, lines, n);
      assert FromMath(lines, st.inMath) == Cut(Join(body)) + Parse(rest, true, false);
    } else {
      MathCloses(st.blocks, lines, n, !st.inMath);
    }
  }

  /** The text ends inside math. */
  lemma MathUnended(blocks: seq<Block>, lines: seq<string>, begun: bool)
    requires lines != []
    ensures Finish(Resume(State(blocks, Glue(lines), false, true), []))
            == blocks + BlocksOf([Math(Join(lines) + "\n", begun, false)])
  {
    GlueJoin(lines, "");
    assert BlocksOf([Math(Join(lines) + "\n", begun, false)]) == [Block(Join(lines) + "\n", false)];
  }

  /** A `$$` line ends math. */
  lemma MathCloses(blocks: seq<Block>, lines: seq<string>, n: nat, begun: bool)
    requires n < |lines| && !Fence(lines[n]) && MathFence(lines[n])
    ensures Finish(Resume(State(blocks, Glue(lines[..n]), false, true), lines[n..]))
            == blocks + BlocksOf([Math(Join(lines[..n + 1]), begun, true)] + Parse(lines[n + 1..], false, false))
    decreases |lines|, 0, 0
  {
    GlueJoin(lines[..n], lines[n]);
    assert lines[..n] + [lines[n]] == lines[..n + 1];
    assert lines[n..][0] == lines[n] && lines[n..][1..] == lines[n + 1..];
    var st2 := State(blocks + [Block(Join(lines[..n + 1]), false)], "", false, false);
    assert Next(State(blocks, Glue(lines[..n]), false, true), lines[n]) == st2;
    ParseExact(st2, lines[n + 1..]);
    BlocksPush(blocks, Math(Join(lines[..n + 1]), begun, true), Parse(lines[n + 1..], false, false));
  }

  /** A fence interrupts math. */
  lemma MathCut(st: State, lines: seq<string>, n: nat)
    requires 0 < n < |lines| && Fence(lines[n])
    ensures Finish(Resume(State(st.blocks, Glue(lines[..n]), false, true), lines[n..]))
            == st.blocks + BlocksOf(Cut(Join(lines[..n])) + Parse(lines[n..], true, false))
    decreases |lines|, 0, 0
  {
    var cut, rest := Trim(Join(lines[..n])), Parse(lines[n..], true, false);
    GlueJoin(lines[..n], "");
    TrimBreak(Join(lines[..n]));
    var st3 := State(if cut == "" then st.blocks else st.blocks + [Block(cut, false)], "", false, true);
    assert Next(State(st.blocks, Glue(lines[..n]), false, true), lines[n]) == Next(st3, lines[n]);
    assert lines[n..][0] == lines[n];
    ParseExact(st3, lines[n..]);
    if cut == "" {
      assert [] + rest == rest;
    } else {
      BlocksPush(st.blocks, CutMath(cut), rest);
    }
  }

  lemma TrimBehindBlank(blank: string, para: string)
    requires Trim(blank) == ""
    ensures Trim(if blank == "" then para else blank + "\n" + para) == Trim(para)
  {
    if blank != "" {
      TrimSkips(blank, "\n" + para);
      TrimSkips("\n", para);
      assert blank + "\n" + para == blank + ("\n" + para);
    }
  }

  lemma ParseText(st: State, lines: seq<string>)
    requires Between(st) && lines != [] && !st.inMath && GoesOn(TextLines, lines[0])
    ensures Finish(Resume(st, lines)) == st.blocks + BlocksOf(FromText(lines))
    decreases |lines|, 0
  {
    var n := Span(lines, TextLines);
    var para, rest := Join(lines[..n]), lines[n..];
    ResumeSplit(st, lines, n);
    CollectsText(st, lines[..n]);
    var st1 := Resume(st, lines[..n]);
    TrimBehindBlank(st.current, para);
    if Trim(para) == "" {
      ParseExact(st1, rest);
    } else {
      ParagraphEnds(st1, rest);
      BlocksPush(st.blocks, Paragraph(Trim(para)), Parse(rest, false, false));
    }
  }

  /** A boundary, or the end, finishes the paragraph collected. */
  lemma ParagraphEnds(st: State, rest: seq<string>)
    requires !st.inCode && !st.inMath && Trim(st.current) != "" && (rest == [] || !GoesOn(TextLines, rest[0]))
    ensures Finish(Resume(st, rest)) == st.blocks + [Block(Trim(st.current), false)] + BlocksOf(Parse(rest, false, false))
    decreases |rest|, 2
  {
    var done := State(st.blocks + [Block(Trim(st.current), false)], "", false, false);
    if rest != [] {
      assert Next(st, rest[0]) == Next(done, rest[0]);
      ParseExact(done, rest);
    }
  }

  /** The splitter, for all content: its blocks are those of the description. */
  lemma SplitIsParse(content: string)
    ensures Split(content) == BlocksOf(Parse(Lines(content), false, false))
  {
    FoldIsResume(Lines(content));
    ParseExact(INITIAL, Lines(content));
    assert [] + BlocksOf(Parse(Lines(content), false, false)) == BlocksOf(Parse(Lines(content), false, false));
  }

  // ----- what the blocks look like -----

  /** An empty line inside. */
  predicate HasEmptyLine(s: string) {
    exists k :: 0 <= k < |s| - 1 && s[k] == '\n' && s[k + 1] == '\n'
  }

  /** `first` and `last`: the lines of `c` that are delimiters and not content. */
  ghost predicate MathShape(c: string, begun: bool, ended: bool) {
    var ls := Lines(c);
    && (begun ==> MathFence(ls[0])) && (ended ==> MathFence(ls[|ls| - 1])) && (begun && ended ==> |ls| >= 2)
    && forall i :: (if begun then 1 else 0) <= i < (if ended then |ls| - 1 else |ls|) ==> GoesOn(MathLines, ls[i])
  }

  ghost predicate Well(p: Piece) {
    match p
    case Paragraph(c) => Trim(c) == c && !HasEmptyLine(c)
    case Code(c, ended) => if ended then FencedBlock(c) else OpenFence(c)
    case Math(c, begun, ended) => MathShape(c, begun, ended)
    case CutMath(c) => Trim(c) == c && c != ""
  }

  predicate Line(s: string) {
    '\n' !in s
  }

  lemma {:induction false} LinesOfJoin(lines: seq<string>)
    requires lines != [] && forall i :: 0 <= i < |lines| ==> Line(lines[i])
    ensures Lines(Join(lines)) == lines
  {
    if |lines| == 1 {
      FirstLine(lines[0], "");
    } else {
      LinesOfJoin(lines[1..]);
      FirstLine(lines[0], Join(lines[1..]));
    }
  }

  lemma LinesOfGlued(lines: seq<string>)
    requires lines != [] && forall i :: 0 <= i < |lines| ==> Line(lines[i])
    ensures Lines(Join(lines) + "\n") == lines + [""]
  {
    LinesOfJoin(lines);
    LinesAppendBreak(Join(lines));
  }

  lemma {:induction false} JoinHasNoEmptyLine(lines: seq<string>)
    requires lines != [] && forall i :: 0 <= i < |lines| ==> Line(lines[i]) && lines[i] != ""
    ensures !HasEmptyLine(Join(lines)) && Join(lines) != "" && Join(lines)[0] != '\n'
  {
    var l := lines[0];
    assert l[0] in l && l[|l| - 1] in l;
    if |lines| == 1 {
      forall k | 0 <= k < |l| - 1 ensures l[k] != '\n' { assert l[k] in l; }
    } else {
      var rest := Join(lines[1..]);
      JoinHasNoEmptyLine(lines[1..]);
      var s := l + "\n" + rest;
      forall k | 0 <= k < |s| - 1 ensures !(s[k] == '\n' && s[k + 1] == '\n') {
        if k < |l| { assert s[k] == l[k] && l[k] in l; }
        else if k > |l| { assert s[k] == rest[k - |l| - 1] && s[k + 1] == rest[k - |l|]; }
        else { assert s[k + 1] == rest[0]; }
      }
    }
  }

  lemma ParagraphWell(lines: seq<string>)
    requires lines != [] && forall i :: 0 <= i < |lines| ==> Line(lines[i]) && lines[i] != ""
    ensures Well(Paragraph(Trim(Join(lines))))
  {
    var s := Join(lines);
    JoinHasNoEmptyLine(lines);
    var a, b := TrimExact(s);
    forall k | 0 <= k < |s[a..b]| - 1 ensures !(s[a..b][k] == '\n' && s[a..b][k + 1] == '\n') {
      assert !(s[a + k] == '\n' && s[a + k + 1] == '\n');
    }
  }

  lemma CodeWell(lines: seq<string>, n: nat)
    requires 0 < n <= |lines| && Fence(lines[0]) && forall i :: 0 <= i < |lines| ==> Line(lines[i])
    requires forall i :: 1 <= i < n ==> !Fence(lines[i])
    ensures n == |lines| ==> Well(Code(Join(lines) + "\n", false))
    ensures n < |lines| && Fence(lines[n]) ==> Well(Code(Join(lines[..n + 1]), true))
  {
    if n == |lines| { LinesOfGlued(lines); } else { LinesOfJoin(lines[..n + 1]); }
  }

  lemma MathWell(lines: seq<string>, n: nat, begun: bool)
    requires lines != [] && n <= |lines| && forall i :: 0 <= i < |lines| ==> Line(lines[i])
    requires begun ==> n > 0 && MathFence(lines[0])
    requires forall i :: (if begun then 1 else 0) <= i < n ==> GoesOn(MathLines, lines[i])
    ensures n == |lines| ==> Well(Math(Join(lines) + "\n", begun, false))
    ensures n < |lines| && MathFence(lines[n]) ==> Well(Math(Join(lines[..n + 1]), begun, true))
  {
    if n == |lines| {
      LinesOfGlued(lines);
      MathLinesShape(lines + [""], n + 1, begun, false);
    } else if MathFence(lines[n]) {
      LinesOfJoin(lines[..n + 1]);
      MathLinesShape(lines[..n + 1], n, begun, true);
    }
  }

  /** `n`: how many of the lines are in front of the closing one. */
  lemma MathLinesShape(ls: seq<string>, n: nat, begun: bool, ended: bool)
    requires ls != [] && n == (if ended then |ls| - 1 else |ls|) && (begun ==> n > 0 && MathFence(ls[0]))
    requires ended ==> MathFence(ls[n])
    requires forall i :: (if begun then 1 else 0) <= i < n ==> GoesOn(MathLines, ls[i]) || ls[i] == ""
    ensures forall c :: Lines(c) == ls ==> MathShape(c, begun, ended)
  {
    assert GoesOn(MathLines, "");
  }

  ghost predicate AllWell(ps: seq<Piece>) {
    forall k :: 0 <= k < |ps| ==> Well(ps[k])
  }

  lemma AllWellPush(p: Piece, rest: seq<Piece>)
    requires Well(p) && AllWell(rest)
    ensures AllWell([p] + rest)
  {
  }

  /** Every block has the shape of its kind. */
  lemma {:induction false} ParseWell(lines: seq<string>, inMath: bool, blank: bool)
    requires forall i :: 0 <= i < |lines| ==> Line(lines[i])
    ensures AllWell(Parse(lines, inMath, blank))
    decreases |lines|, 1
  {
    if lines == [] {
    } else if Fence(lines[0]) {
      CodePartWell(lines, inMath);
    } else if inMath || MathFence(lines[0]) {
      MathPartWell(lines, inMath);
    } else if lines[0] == "" {
      ParseWell(lines[1..], false, blank);
    } else {
      TextPartWell(lines);
    }
  }

  lemma CodePartWell(lines: seq<string>, inMath: bool)
    requires lines != [] && Fence(lines[0]) && forall i :: 0 <= i < |lines| ==> Line(lines[i])
    ensures AllWell(FromCode(lines, inMath))
    decreases |lines|, 0
  {
    var n := CodeEnd(lines);
    CodeWell(lines, n);
    if n < |lines| {
      ParseWell(lines[n + 1..], inMath, false);
      AllWellPush(Code(Join(lines[..n + 1]), true), Parse(lines[n + 1..], inMath, false));
    }
  }

  lemma MathPartWell(lines: seq<string>, inMath: bool)
    requires lines != [] && !Fence(lines[0]) && (inMath || MathFence(lines[0]))
    requires forall i :: 0 <= i < |lines| ==> Line(lines[i])
    ensures AllWell(FromMath(lines, inMath))
    decreases |lines|, 0
  {
    var n := MathEnd(lines, inMath);
    MathWell(lines, n, !inMath);
    if n < |lines| && Fence(lines[n]) {
      var a, b := TrimExact(Join(lines[..n]));
      ParseWell(lines[n..], true, false);
    } else if n < |lines| {
      ParseWell(lines[n + 1..], false, false);
      AllWellPush(Math(Join(lines[..n + 1]), !inMath, true), Parse(lines[n + 1..], false, false));
    }
  }

  lemma TextPartWell(lines: seq<string>)
    requires lines != [] && GoesOn(TextLines, lines[0]) && forall i :: 0 <= i < |lines| ==> Line(lines[i])
    ensures AllWell(FromText(lines))
    decreases |lines|, 0
  {
    var n := Span(lines, TextLines);
    forall i | 0 <= i < n ensures lines[i] != "" { assert GoesOn(TextLines, lines[i]); }
    ParagraphWell(lines[..n]);
    ParseWell(lines[n..], false, Trim(Join(lines[..n])) == "");
  }

  /**
   * The shape of all blocks: a paragraph is trimmed and has no empty line inside; a code block starts and
   * ends with a fence and has none between, a math block the same with `$$` lines, except that a block may
   * be open at the end, and math that code interrupts is cut.
   */
  lemma BlocksShaped(content: string, k: nat)
    requires k < |Split(content)|
    ensures exists p :: Split(content)[k] == BlockOf(p) && Well(p)
  {
    SplitIsParse(content);
    forall i | 0 <= i < |Lines(content)| ensures Line(Lines(content)[i]) { LineHasNoBreak(content, i); }
    ParseWell(Lines(content), false, false);
    assert Well(Parse(Lines(content), false, false)[k]);
  }

  // ----- paragraphs -----

  ghost predicate TextOnly(lines: seq<string>) {
    lines != [] && (forall i :: 0 <= i < |lines| ==> Line(lines[i]) && GoesOn(TextLines, lines[i])) && Trim(Join(lines)) != ""
  }

  lemma {:induction false} SpanOf(lines: seq<string>, rest: seq<string>)
    requires forall i :: 0 <= i < |lines| ==> GoesOn(TextLines, lines[i])
    requires rest == [] || !GoesOn(TextLines, rest[0])
    ensures Span(lines + rest, TextLines) == |lines|
  {
    var all := lines + rest;
    if lines == [] {
      assert all == rest;
    } else {
      assert all[0] == lines[0] && all[1..] == lines[1..] + rest;
      SpanOf(lines[1..], rest);
    }
  }

  lemma ParagraphThen(lines: seq<string>, rest: seq<string>)
    requires TextOnly(lines) && (rest == [] || !GoesOn(TextLines, rest[0]))
    ensures Parse(lines + rest, false, false) == [Paragraph(Trim(Join(lines)))] + Parse(rest, false, false)
  {
    SpanOf(lines, rest);
    var all := lines + rest;
    assert all[0] == lines[0] && all[..|lines|] == lines && all[|lines|..] == rest;
    assert GoesOn(TextLines, lines[0]);
  }

  /** Lines of text without a boundary between them lie in one block. */
  lemma OneParagraph(lines: seq<string>)
    requires TextOnly(lines)
    ensures Split(Join(lines)) == [Block(Trim(Join(lines)), false)]
  {
    SplitOfLines(lines);
    ParagraphThen(lines, []);
    assert lines + [] == lines;
  }

  /** An empty line between them makes two. */
  lemma TwoParagraphs(above: seq<string>, below: seq<string>)
    requires TextOnly(above) && TextOnly(below)
    ensures Split(Join(above + [""] + below)) == [Block(Trim(Join(above)), false), Block(Trim(Join(below)), false)]
  {
    var all := above + [""] + below;
    assert all == above + ([""] + below);
    assert forall i :: 0 <= i < |all| ==> Line(all[i]) by { TwoTextsAreLines(above, below); }
    SplitOfLines(all);
    TwoParsed(above, below);
  }

  lemma TwoTextsAreLines(above: seq<string>, below: seq<string>)
    requires TextOnly(above) && TextOnly(below)
    ensures forall i :: 0 <= i < |above + [""] + below| ==> Line((above + [""] + below)[i])
  {
  }

  lemma SplitOfLines(lines: seq<string>)
    requires lines != [] && forall i :: 0 <= i < |lines| ==> Line(lines[i])
    ensures Split(Join(lines)) == BlocksOf(Parse(lines, false, false))
  {
    SplitIsParse(Join(lines));
    LinesOfJoin(lines);
  }

  lemma TwoParsed(above: seq<string>, below: seq<string>)
    requires TextOnly(above) && TextOnly(below)
    ensures Parse(above + ([""] + below), false, false) == [Paragraph(Trim(Join(above))), Paragraph(Trim(Join(below)))]
  {
    var rest := [""] + below;
    EmptyIsBoundary();
    ParagraphThen(above, rest);
    assert rest[0] == "" && rest[1..] == below;
    ParagraphThen(below, []);
    assert below + [] == below;
  }

  lemma EmptyIsBoundary()
    ensures !GoesOn(TextLines, "") && !Fence("") && !MathFence("")
  {
  }

  /** The same on literals. */
  lemma ParagraphExamples()
    ensures Split("a\n\nb") == [Block("a", false), Block("b", false)]
    ensures Split("a\nb") == [Block("a\nb", false)]
  {
    TrimSettled("a");
    TrimSettled("b");
    TrimSettled("a\nb");
    assert Join(["a"]) == "a" && Join(["b"]) == "b";
    assert Join(["a", "b"]) == "a" + "\n" + Join(["b"]) == "a\nb";
    assert Join(["", "b"]) == "" + "\n" + Join(["b"]) == "\nb";
    assert ["a"] + [""] + ["b"] == ["a", "", "b"];
    assert Join(["a", "", "b"]) == "a" + "\n" + Join(["", "b"]) == "a\n\nb";
    TwoParagraphs(["a"], ["b"]);
    OneParagraph(["a", "b"]);
  }

  /** Code and math on literals. */
  lemma FenceExamples()
    ensures Parse(["```", "x", "```", "y"], false, false) == [Code("```\nx\n```", true), Paragraph("y")]
    ensures Parse(["$$", "x", "$$", "y"], false, false) == [Math("$$\nx\n$$", true, true), Paragraph("y")]
  {
    TrimSettled("y");
    TrimSettled("x");
    TrimSettled("$$");
    OneLine("y");
    var code, math := ["```", "x", "```", "y"], ["$$", "x", "$$", "y"];
    assert CodeEnd(code) == 2 && MathEnd(math, false) == 2;
    assert code[3..] == ["y"] == math[3..];
    assert code[..3] == ["```", "x", "```"] && math[..3] == ["$$", "x", "$$"];
    JoinThree("```", "x", "```");
    JoinThree("$$", "x", "$$");
    assert "```" + "\n" + "x" + "\n" + "```" == "```\nx\n```" && "$$" + "\n" + "x" + "\n" + "$$" == "$$\nx\n$$";
  }

  lemma OneLine(line: string)
    requires Trim(line) == line && GoesOn(TextLines, line)
    ensures Parse([line], false, false) == [Paragraph(line)]
  {
    assert Span([line][1..], TextLines) == 0;
    assert Span([line], TextLines) == 1 && [line][..1] == [line] && [line][1..] == [];
    assert Join([line]) == line && Parse([], false, false) == [];
    assert FromText([line]) == [Paragraph(line)] + [];
  }

  lemma JoinThree(a: string, b: string, c: string)
    ensures Join([a, b, c]) == a + "\n" + b + "\n" + c
  {
    assert [a, b, c][1..] == [b, c] && [b, c][1..] == [c];
    assert Join([c]) == c && Join([b, c]) == b + "\n" + Join([c]);
    assert Join([a, b, c]) == a + "\n" + Join([b, c]);
    assert a + "\n" + (b + "\n" + c) == a + "\n" + b + "\n" + c;
  }
}
