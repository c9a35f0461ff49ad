/**
 * Splitting streamed markdown into blocks (packages/ui/markdown/StreamingMarkdown.tsx): a machine
 * driven by lines with two flags. A code fence is tested before the math state, so both flags can
 * be set at once.
 */
module StreamingMarkdown {
  import opened Text

  datatype Block = Block(content: string, isCodeBlock: bool)

  datatype State = State(blocks: seq<Block>, current: string, inCode: bool, inMath: bool)

  const INITIAL: State := State([], "", false, false)

  predicate Fence(line: string) {
    |line| >= 3 && line[..3] == "```"
  }

  predicate MathFence(line: string) {
    Trim(line) == "$$"
  }

  /** Push the paragraph collected so far, unless it is blank. */
  function FlushParagraph(st: State): State {
    if Trim(st.current) == "" then st
    else st.(blocks := st.blocks + [Block(Trim(st.current), false)], current := "")
  }

  /** The loop body. */
  function Next(st: State, line: string): State {
    if Fence(line) then
      if !st.inCode then FlushParagraph(st).(inCode := true, current := line + "\n")
      else st.(blocks := st.blocks + [Block(st.current + line, true)], current := "", inCode := false)
    else if st.inCode then st.(current := st.current + line + "\n")
    else if MathFence(line) then
      if !st.inMath then FlushParagraph(st).(inMath := true, current := line + "\n")
      else st.(blocks := st.blocks + [Block(st.current + line, false)], current := "", inMath := false)
    else if st.inMath then st.(current := st.current + line + "\n")
    else if line == "" then FlushParagraph(st)
    else st.(current := if st.current != "" then st.current + "\n" + line else line)
  }

  function Fold(lines: seq<string>): State {
    if lines == [] then INITIAL else Next(Fold(lines[..|lines| - 1]), lines[|lines| - 1])
  }

  /** The blocks once the input ends in state `st`. */
  function Finish(st: State): seq<Block> {
    if st.current == "" then st.blocks
    else st.blocks + [Block(if st.inCode || st.inMath then st.current else Trim(st.current), st.inCode)]
  }

  function Split(content: string): seq<Block> {
    Finish(Fold(Lines(content)))
  }

  method SplitIntoBlocks(content: string) returns (blocks: seq<Block>)
    ensures blocks == Split(content)
  {
    blocks := [];
    var lines := Lines(content);
    var currentBlock := "";
    var inCodeBlock, inMathBlock := false, false;
    for i := 0 to |lines|
      invariant State(blocks, currentBlock, inCodeBlock, inMathBlock) == Fold(lines[..i])
    {
      var line := lines[i];
      assert lines[..i + 1][..i] == lines[..i];
      if Fence(line) {
        if !inCodeBlock {
          if Trim(currentBlock) != "" {
            blocks := blocks + [Block(Trim(currentBlock), false)];
            currentBlock := "";
          }
          inCodeBlock := true;
          currentBlock := line + "\n";
        } else {
          currentBlock := currentBlock + line;
          blocks := blocks + [Block(currentBlock, true)];
          currentBlock := "";
          inCodeBlock := false;
        }
      } else if inCodeBlock {
        currentBlock := currentBlock + line + "\n";
      } else if MathFence(line) {
        if !inMathBlock {
          if Trim(currentBlock) != "" {
            blocks := blocks + [Block(Trim(currentBlock), false)];
            currentBlock := "";
          }
          inMathBlock := true;
          currentBlock := line + "\n";
        } else {
          currentBlock := currentBlock + line;
          blocks := blocks + [Block(currentBlock, false)];
          currentBlock := "";
          inMathBlock := false;
        }
      } else if inMathBlock {
        currentBlock := currentBlock + line + "\n";
      } else if line == "" {
        if Trim(currentBlock) != "" {
          blocks := blocks + [Block(Trim(currentBlock), false)];
          currentBlock := "";
        }
      } else if currentBlock != "" {
        currentBlock := currentBlock + "\n" + line;
      } else {
        currentBlock := line;
      }
    }
    assert lines[..|lines|] == lines;
    if currentBlock != "" {
      blocks := blocks + [Block(if inCodeBlock || inMathBlock then currentBlock else Trim(currentBlock), inCodeBlock)];
    }
  }

  // ----- conservation -----

  function InkOfBlocks(blocks: seq<Block>): string {
    if blocks == [] then "" else InkOfBlocks(blocks[..|blocks| - 1]) + Ink(blocks[|blocks| - 1].content)
  }

  lemma InkOfPush(blocks: seq<Block>, b: Block)
    ensures InkOfBlocks(blocks + [b]) == InkOfBlocks(blocks) + Ink(b.content)
  {
    assert (blocks + [b])[..|blocks|] == blocks;
  }

  function InkOf(st: State): string {
    InkOfBlocks(st.blocks) + Ink(st.current)
  }

  lemma FlushKeepsInk(st: State)
    ensures InkOfBlocks(FlushParagraph(st).blocks) == InkOf(st)
    ensures InkOf(FlushParagraph(st)) == InkOf(st)
  {
    InkTrim(st.current);
    InkOfPush(st.blocks, Block(Trim(st.current), false));
  }

  lemma InkOfLine(l: string)
    ensures Ink(l + "\n") == Ink(l)
  {
    InkConcat(l, "\n");
    assert Ink("\n") == "";
  }

  lemma InkOfBreak(a: string, l: string)
    ensures Ink(a + "\n" + l) == Ink(a) + Ink(l)
  {
    InkConcat(a + "\n", l);
    InkOfLine(a);
  }

  lemma InkOfOpening(st: State, line: string)
    ensures InkOfBlocks(FlushParagraph(st).blocks) + Ink(line + "\n") == InkOf(st) + Ink(line)
  {
    FlushKeepsInk(st);
    InkOfLine(line);
  }

  lemma InkOfClosing(st: State, line: string, code: bool)
    ensures InkOfBlocks(st.blocks + [Block(st.current + line, code)]) == InkOf(st) + Ink(line)
  {
    InkOfPush(st.blocks, Block(st.current + line, code));
    InkConcat(st.current, line);
    Regroup(InkOfBlocks(st.blocks), Ink(st.current), Ink(line));
  }

  lemma InkOfExtending(st: State, line: string)
    ensures InkOfBlocks(st.blocks) + Ink(st.current + line + "\n") == InkOf(st) + Ink(line)
    ensures InkOfBlocks(st.blocks) + Ink(st.current + "\n" + line) == InkOf(st) + Ink(line)
  {
    InkOfLine(st.current + line);
    InkConcat(st.current, line);
    InkOfBreak(st.current, line);
    Regroup(InkOfBlocks(st.blocks), Ink(st.current), Ink(line));
  }

  lemma NextKeepsInk(st: State, line: string)
    ensures InkOf(Next(st, line)) == InkOf(st) + Ink(line)
  {
    if Fence(line) {
      if st.inCode {
        InkOfClosing(st, line, true);
        Regroup(InkOf(st), Ink(line), "");
      } else {
        InkOfOpening(st, line);
      }
    } else if !st.inCode && MathFence(line) {
      if st.inMath {
        InkOfClosing(st, line, false);
        Regroup(InkOf(st), Ink(line), "");
      } else {
        InkOfOpening(st, line);
      }
    } else if line == "" && !st.inCode && !st.inMath {
      FlushKeepsInk(st);
      Regroup(InkOfBlocks(st.blocks), Ink(st.current), "");
    } else {
      InkOfExtending(st, line);
    }
  }

  lemma {:induction false} FoldKeepsInk(lines: seq<string>)
    ensures InkOf(Fold(lines)) == InkOfLines(lines)
  {
    if lines != [] {
      var init, last := lines[..|lines| - 1], lines[|lines| - 1];
      FoldKeepsInk(init);
      NextKeepsInk(Fold(init), last);
      assert lines == init + [last];
      InkOfLinesBack(init, last);
    }
  }

  /** The blocks hold exactly the input's non-space characters, in order: nothing lost, doubled or moved. */
  lemma SplitConserves(content: string)
    ensures InkOfBlocks(Split(content)) == Ink(content)
  {
    var st := Fold(Lines(content));
    FoldKeepsInk(Lines(content));
    InkOfSplit(content);
    InkTrim(st.current);
    if st.current != "" {
      InkOfPush(st.blocks, Split(content)[|st.blocks|]);
    }
  }

  // ----- stability while text streams in -----

  function AllBut(blocks: seq<Block>, n: nat): seq<Block> {
    if |blocks| <= n then [] else blocks[..|blocks| - n]
  }

  /** The blocks the state stands for: the finished ones and the one being collected. */
  function Count(st: State): nat {
    |st.blocks| + if st.current != "" then 1 else 0
  }

  function LastLine(content: string): string {
    var lines := Lines(content);
    lines[|lines| - 1]
  }

  /** The machine just before the last, still growing, line of `content`. */
  function Before(content: string): State {
    var lines := Lines(content);
    Fold(lines[..|lines| - 1])
  }

  /** The last line opens display math right after a paragraph. */
  predicate OpensMathAfterParagraph(content: string) {
    var st := Before(content);
    && !st.inCode && !st.inMath && Trim(st.current) != ""
    && !Fence(LastLine(content)) && MathFence(LastLine(content))
  }

  /** Further text turns that line into something else: only then is a finished block taken back. */
  predicate RetractsBlock(content: string, more: string) {
    OpensMathAfterParagraph(content) && !MathFence(LastLine(content) + Lines(more)[0])
  }

  lemma NextGrows(st: State, line: string)
    ensures st.blocks <= Next(st, line).blocks && Count(st) <= Count(Next(st, line))
  {
  }

  lemma {:induction false} FoldGrows(lines: seq<string>, k: nat)
    requires k <= |lines|
    ensures Fold(lines[..k]).blocks <= Fold(lines).blocks && Count(Fold(lines[..k])) <= Count(Fold(lines))
    decreases |lines|
  {
    if k == |lines| {
      assert lines[..k] == lines;
    } else {
      var init := lines[..|lines| - 1];
      assert init[..k] == lines[..k];
      FoldGrows(init, k);
      NextGrows(Fold(init), lines[|lines| - 1]);
    }
  }

  /** Splitting `content + more` passes through the state before the last line of `content`. */
  lemma SplitOfExtension(content: string, more: string)
    ensures Split(content) == Finish(Next(Before(content), LastLine(content)))
    ensures var mid := Next(Before(content), LastLine(content) + Lines(more)[0]); var end := Fold(Lines(content + more));
      mid.blocks <= end.blocks && Count(mid) <= Count(end)
  {
    var x, y := Lines(content), Lines(more);
    LinesConcat(content, more);
    var all := Joined(x, y);
    assert all[..|x|][..|x| - 1] == x[..|x| - 1] && all[..|x|][|x| - 1] == x[|x| - 1] + y[0];
    FoldGrows(all, |x|);
  }

  /** What one growing line can do to the blocks finished so far. */
  lemma GrowingLine(st: State, line: string, more: string)
    ensures var now := Finish(Next(st, line)); var then' := Next(st, line + more);
      var retracted := !st.inCode && !st.inMath && Trim(st.current) != "" && !Fence(line) && MathFence(line)
                       && !MathFence(line + more);
      && (!retracted ==> AllBut(now, 1) <= then'.blocks && |now| <= Count(then'))
      && (retracted ==> now == FlushParagraph(st).blocks + [Block(line + "\n", false)])
  {
    if Fence(line) {
      assert (line + more)[..3] == line[..3];
    }
  }

  /** A line that opens math is neither empty nor a code fence, however it goes on. */
  lemma {:induction false} MathLineStart(line: string)
    requires MathFence(line)
    ensures line != "" && line[0] != '`' && Ink(line) == "$$"
  {
    InkTrim(line);
    assert Ink("$$") == "$" + Ink("$") && Ink("$") == "$" + Ink("");
    assert line != "" && !IsSpace(line[0]) ==> Ink(line)[0] == line[0];
  }

  /** Block `n`, finished or still being collected, starts with the ink `w`. */
  ghost predicate Carries(st: State, n: nat, w: string) {
    (|st.blocks| == n && w <= Ink(st.current)) || (|st.blocks| > n && w <= Ink(st.blocks[n].content))
  }

  lemma NextCarries(st: State, line: string, n: nat, w: string)
    requires Carries(st, n, w) && w != ""
    ensures Carries(Next(st, line), n, w)
  {
    if |st.blocks| == n {
      InkTrim(st.current);
      InkConcat(st.current, line);
      InkOfLine(st.current + line);
      InkOfBreak(st.current, line);
    }
  }

  lemma {:induction false} FoldCarries(lines: seq<string>, k: nat, n: nat, w: string)
    requires k <= |lines| && Carries(Fold(lines[..k]), n, w) && w != ""
    ensures Carries(Fold(lines), n, w)
    decreases |lines|
  {
    if k == |lines| {
      assert lines[..k] == lines;
    } else {
      var init := lines[..|lines| - 1];
      assert init[..k] == lines[..k];
      FoldCarries(init, k, n, w);
      NextCarries(Fold(init), lines[|lines| - 1], n, w);
    }
  }

  /** After a retraction the paragraph's place is taken by a block with more text in it. */
  lemma RetractedParagraph(content: string, more: string)
    requires RetractsBlock(content, more)
    ensures var st := Before(content); var after := Split(content + more);
      |st.blocks| < |after| && after[|st.blocks|] != Block(Trim(st.current), false)
  {
    var x, y := Lines(content), Lines(more);
    var st, line := Before(content), LastLine(content) + y[0];
    var n := |st.blocks|;
    MathLineStart(LastLine(content));
    var mid := Next(st, line);
    assert !Fence(line) by { assert line[0] == LastLine(content)[0]; }
    InkTrim(st.current);
    InkOfBreak(st.current, line);
    InkConcat(LastLine(content), y[0]);
    var w := Ink(st.current + "\n" + line);
    assert Ink("") == "" != Ink(st.current);
    assert mid.blocks == st.blocks && mid.current == st.current + "\n" + line;
    LinesConcat(content, more);
    var all := Joined(x, y);
    assert all[..|x|][..|x| - 1] == x[..|x| - 1] && all[..|x|][|x| - 1] == line;
    FoldCarries(all, |x|, n, w);
    var end := Fold(all);
    InkTrim(end.current);
    assert |w| > |Ink(Trim(st.current))|;
  }

  /**
   * Streaming stability, exactly: every block but the last survives any continuation of the text,
   * if and only if the continuation does not retract a math opening that follows a paragraph.
   */
  lemma StabilityExact(content: string, more: string)
    ensures AllBut(Split(content), 1) <= Split(content + more) <==> !RetractsBlock(content, more)
  {
    var st := Before(content);
    SplitOfExtension(content, more);
    GrowingLine(st, LastLine(content), Lines(more)[0]);
    if RetractsBlock(content, more) {
      RetractedParagraph(content, more);
      assert AllBut(Split(content), 1) == st.blocks + [Block(Trim(st.current), false)];
    }
  }

  /** In every case all blocks but the last two survive. */
  lemma StabilityAlways(content: string, more: string)
    ensures AllBut(Split(content), 2) <= Split(content + more)
  {
    var st := Before(content);
    SplitOfExtension(content, more);
    GrowingLine(st, LastLine(content), Lines(more)[0]);
    NextGrows(st, LastLine(content) + Lines(more)[0]);
    if RetractsBlock(content, more) {
      assert AllBut(Split(content), 2) == st.blocks;
    }
  }

  /** The finished paragraph is taken back when the line that seemed to open math grows on. */
  lemma RetractionExample()
    ensures Split("a\n$$") == [Block("a", false), Block("$$\n", false)]
    ensures Split("a\n$$x") == [Block("a\n$$x", false)]
    ensures RetractsBlock("a\n$$", "x")
  {
    var a := "a";
    TrimSettled(a);
    MathThenText(a, "x");
    assert a + "\n" + "$$" == "a\n$$" && a + "\n" + ("$$" + "x") == "a\n$$x";
  }

  /** Any one-line paragraph, followed by `$$` that turns out to be text. */
  lemma MathThenText(a: string, x: string)
    requires '\n' !in a && '\n' !in x && a != "" && Trim(a) == a && !IsSpace(a[0]) && !Fence(a) && !MathFence(a)
    requires x != "" && !IsSpace(x[|x| - 1])
    ensures Split(a + "\n" + "$$") == [Block(a, false), Block("$$\n", false)]
    ensures Split(a + "\n" + ("$$" + x)) == [Block(a + "\n" + ("$$" + x), false)]
    ensures RetractsBlock(a + "\n" + "$$", x)
  {
    var line := "$$" + x;
    TrimSettled(line);
    TwoLines(a, line);
    FirstLine(x, "");
    OpensMath(a);
    var grown := Next(State([], a, false, false), line);
    assert grown == State([], a + "\n" + line, false, false);
    TrimSettled(a + "\n" + line);
  }

  lemma OpensMath(a: string)
    requires '\n' !in a && a != "" && Trim(a) == a && !Fence(a) && !MathFence(a)
    ensures Split(a + "\n" + "$$") == [Block(a, false), Block("$$\n", false)]
    ensures Lines(a + "\n" + "$$") == [a, "$$"] && Before(a + "\n" + "$$") == State([], a, false, false)
    ensures OpensMathAfterParagraph(a + "\n" + "$$")
  {
    TrimSettled("$$");
    TwoLines(a, "$$");
    var math := Next(State([], a, false, false), "$$");
    assert math.blocks == [Block(a, false)] && math.current == "$$" + "\n" == "$$\n";
  }

  /** Two plain lines, the machine run on them by hand. */
  lemma TwoLines(a: string, b: string)
    requires '\n' !in a && '\n' !in b && a != "" && Trim(a) == a && !Fence(a) && !MathFence(a)
    ensures Lines(a + "\n" + b) == [a, b]
    ensures Split(a + "\n" + b) == Finish(Next(State([], a, false, false), b))
    ensures Before(a + "\n" + b) == State([], a, false, false)
  {
    FirstLine(a, b);
    FirstLine(b, "");
    assert [a, b][..1] == [a] && [a][..0] == [];
    assert Fold([]) == INITIAL && Fold([a]) == Next(INITIAL, a);
    assert Fold([a, b]) == Next(Fold([a]), b);
  }

  // ----- the React keys -----

  datatype Key = Active(index: nat) | Completed(index: nat, hash: int)

  /** The key rule, for any content hash. */
  function KeyOf(blocks: seq<Block>, i: nat, hash: string -> int): Key
    requires i < |blocks|
  {
    if i == |blocks| - 1 then Active(i) else Completed(i, hash(blocks[i].content))
  }

  /**
   * What a key tells apart: the last block, which is always redrawn, from the finished ones, and finished
   * blocks by their place and by the hash of their content.
   */
  lemma KeysDistinguish(now: seq<Block>, after: seq<Block>, i: nat, j: nat, hash: string -> int)
    requires i < |now| && j < |after|
    ensures KeyOf(now, i, hash) == KeyOf(after, j, hash) <==>
      i == j && (if i == |now| - 1 then j == |after| - 1
                 else j < |after| - 1 && hash(now[i].content) == hash(after[j].content))
  {
  }

  /** Without a retraction every memoised block keeps its key and its content, and stays completed. */
  lemma KeysStable(content: string, more: string, i: nat, hash: string -> int)
    requires !RetractsBlock(content, more) && i + 1 < |Split(content)|
    ensures var now, after := Split(content), Split(content + more);
      i + 1 < |after| && after[i] == now[i] && KeyOf(after, i, hash) == KeyOf(now, i, hash)
  {
    StabilityExact(content, more);
    SplitOfExtension(content, more);
    GrowingLine(Before(content), LastLine(content), Lines(more)[0]);
    assert AllBut(Split(content), 1)[i] == Split(content)[i];
  }

  // ----- the shape of code blocks -----

  /** A complete fenced block: first and last line are fences, no line between them is one. */
  ghost predicate FencedBlock(content: string) {
    var ls := Lines(content);
    |ls| >= 2 && Fence(ls[0]) && Fence(ls[|ls| - 1]) && forall k :: 0 < k < |ls| - 1 ==> !Fence(ls[k])
  }

  /** A fenced block still open: it ends in a line break and has no fence after the first line. */
  ghost predicate OpenFence(content: string) {
    var ls := Lines(content);
    |ls| >= 2 && Fence(ls[0]) && ls[|ls| - 1] == "" && forall k :: 0 < k < |ls| - 1 ==> !Fence(ls[k])
  }

  ghost predicate Shaped(st: State) {
    && (forall k :: 0 <= k < |st.blocks| && st.blocks[k].isCodeBlock ==> FencedBlock(st.blocks[k].content))
    && (st.inCode ==> OpenFence(st.current))
  }

  lemma LinesOfLine(line: string)
    requires Lines(line) == [line]
    ensures Lines(line + "\n") == [line, ""]
  {
    assert Lines("\n") == ["", ""];
    LinesConcat(line, "\n");
    assert line + "" == line;
  }

  /** Appending a whole line to a text that ends in a line break. */
  lemma LinesAppendLine(a: string, line: string)
    requires Lines(line) == [line] && Lines(a)[|Lines(a)| - 1] == ""
    ensures Lines(a + line) == Lines(a)[..|Lines(a)| - 1] + [line]
  {
    LinesConcat(a, line);
    assert "" + line == line;
  }

  lemma LinesAppendBreak(a: string)
    ensures Lines(a + "\n") == Lines(a) + [""]
  {
    assert Lines("\n") == ["", ""];
    LinesConcat(a, "\n");
    var x := Lines(a);
    assert x[|x| - 1] + "" == x[|x| - 1];
    assert x == x[..|x| - 1] + [x[|x| - 1]];
  }

  lemma ExtendOpenFence(a: string, line: string)
    requires OpenFence(a) && Lines(line) == [line]
    ensures Fence(line) ==> FencedBlock(a + line)
    ensures !Fence(line) ==> OpenFence(a + line + "\n")
  {
    var ls := Lines(a);
    LinesAppendLine(a, line);
    LinesAppendBreak(a + line);
    var joined := Lines(a + line);
    assert forall k :: 0 <= k < |ls| - 1 ==> joined[k] == ls[k];
    assert joined[|joined| - 1] == line;
  }

  lemma NextShaped(st: State, line: string)
    requires Shaped(st) && Lines(line) == [line]
    ensures Shaped(Next(st, line))
  {
    if st.inCode {
      ExtendOpenFence(st.current, line);
    } else if Fence(line) {
      LinesOfLine(line);
    }
  }

  lemma {:induction false} FoldShaped(lines: seq<string>)
    requires forall k :: 0 <= k < |lines| ==> Lines(lines[k]) == [lines[k]]
    ensures Shaped(Fold(lines))
  {
    if lines != [] {
      FoldShaped(lines[..|lines| - 1]);
      NextShaped(Fold(lines[..|lines| - 1]), lines[|lines| - 1]);
    }
  }

  /** Every code block is a complete fenced block, except that the last block may still be open. */
  lemma CodeBlocksFenced(content: string, k: nat)
    requires k < |Split(content)| && Split(content)[k].isCodeBlock
    ensures FencedBlock(Split(content)[k].content)
            || (k == |Split(content)| - 1 && OpenFence(Split(content)[k].content))
  {
    var lines := Lines(content);
    forall i | 0 <= i < |lines| ensures Lines(lines[i]) == [lines[i]] { LineHasNoBreak(content, i); }
    FoldShaped(lines);
  }
}
