/**
 * Turning raw URLs and file paths into markdown links (packages/ui/markdown/linkify.ts). The detectors
 * are foreign: their matches are inputs, given in order, disjoint, and with the matched slice as text.
 */
module Linkify {
  import opened Prelude
  import opened Sorting

  datatype LinkType = UrlLink | EmailLink | FileLink

  datatype Link = Link(kind: LinkType, text: string, url: string, start: int, end: int)

  datatype Range = Range(start: int, end: int)

  /** One match of the URL detector: `mailto` says whether its schema is "mailto:". */
  datatype UrlMatch = UrlMatch(mailto: bool, text: string, url: string, index: int, lastIndex: int)

  /** One match of the path expression: position and text of its capture group. */
  datatype PathMatch = PathMatch(path: string, start: int)

  // ----- the small predicates -----

  predicate IsInsideCode(pos: int, ranges: seq<Range>) {
    exists r :: r in ranges && r.start <= pos < r.end
  }

  predicate RangesOverlap(aStart: int, aEnd: int, bStart: int, bEnd: int) {
    aStart < bEnd && bStart < aEnd
  }

  /** `](`, `][` directly before the match, or `[`...`]` around it. */
  predicate IsAlreadyLinked(text: string, start: int, end: int)
    requires 0 <= start <= end <= |text|
  {
    var before := text[Max(0, start - 2)..start];
    || before == "]("
    || before == "]["
    || (start > 0 && text[start - 1] == '[' && end < |text| && text[end] == ']')
  }

  // ----- well-formed matches -----

  predicate Covers(text: string, l: Link) {
    0 <= l.start < l.end <= |text| && l.text == text[l.start..l.end]
  }

  ghost predicate Ordered(links: seq<Link>) {
    forall i, j :: 0 <= i < j < |links| ==> links[i].end <= links[j].start
  }

  ghost predicate AllCover(text: string, links: seq<Link>) {
    forall l :: l in links ==> Covers(text, l)
  }

  function LinkOfUrl(m: UrlMatch): Link {
    Link(if m.mailto then EmailLink else UrlLink, m.text, m.url, m.index, m.lastIndex)
  }

  function LinkOfPath(m: PathMatch): Link {
    Link(FileLink, m.path, m.path, m.start, m.start + |m.path|)
  }

  function LinksOfUrls(ms: seq<UrlMatch>): (r: seq<Link>)
    ensures |r| == |ms| && forall k :: 0 <= k < |ms| ==> r[k] == LinkOfUrl(ms[k])
  {
    seq(|ms|, k requires 0 <= k < |ms| => LinkOfUrl(ms[k]))
  }

  function LinksOfPaths(ms: seq<PathMatch>): (r: seq<Link>)
    ensures |r| == |ms| && forall k :: 0 <= k < |ms| ==> r[k] == LinkOfPath(ms[k])
  {
    seq(|ms|, k requires 0 <= k < |ms| => LinkOfPath(ms[k]))
  }

  predicate Overlapping(a: Link, b: Link) {
    RangesOverlap(a.start, a.end, b.start, b.end)
  }

  ghost predicate Disjoint(links: seq<Link>) {
    forall i, j :: 0 <= i < j < |links| ==> !Overlapping(links[i], links[j])
  }

  function ByStart(): Link -> int {
    (l: Link) => l.start
  }

  // ----- detection -----

  method DetectLinks(ghost text: string, urlMatches: seq<UrlMatch>, pathMatches: seq<PathMatch>) returns (r: seq<Link>)
    requires Ordered(LinksOfUrls(urlMatches)) && AllCover(text, LinksOfUrls(urlMatches))
    requires Ordered(LinksOfPaths(pathMatches)) && AllCover(text, LinksOfPaths(pathMatches))
    ensures Ahead(r, 0) && AllCover(text, r)
    ensures forall l :: l in r <==>
      l in LinksOfUrls(urlMatches)
      || (l in LinksOfPaths(pathMatches) && Free(l, LinksOfUrls(urlMatches)))
  {
    ghost var urls, paths := LinksOfUrls(urlMatches), LinksOfPaths(pathMatches);
    var links: seq<Link> := [];
    for k := 0 to |urlMatches|
      invariant links == urls[..k]
    {
      links := links + [LinkOfUrl(urlMatches[k])];
    }
    for k := 0 to |pathMatches|
      invariant Disjoint(links) && AllCover(text, links)
      invariant forall l :: l in links <==> l in urls || (l in paths[..k] && Free(l, urls))
    {
      var link := LinkOfPath(pathMatches[k]);
      assert paths[k] == link && paths[..k + 1] == paths[..k] + [link];
      forall l | l in paths[..k] ensures !Overlapping(link, l) {
        var j :| 0 <= j < k && paths[j] == l;
      }
      if !(exists l :: l in links && Overlapping(link, l)) {
        DisjointPush(links, link);
        links := links + [link];
      } else {
        var l :| l in links && Overlapping(link, l);
      }
    }
    assert paths[..|paths|] == paths;
    r := SortBy(links, ByStart());
    SortedLinks(text, links);
  }

  ghost predicate Free(l: Link, urls: seq<Link>) {
    forall u :: u in urls ==> !Overlapping(l, u)
  }

  lemma DisjointPush(links: seq<Link>, l: Link)
    requires Disjoint(links) && forall m :: m in links ==> !Overlapping(l, m)
    ensures Disjoint(links + [l])
  {
    var r := links + [l];
    forall i, j | 0 <= i < j < |r| ensures !Overlapping(r[i], r[j]) {
      if j == |links| {
        assert r[i] in links && !Overlapping(l, r[i]);
      } else {
        assert !Overlapping(links[i], links[j]);
      }
    }
  }

  /** Sorting disjoint non-empty ranges by start puts each behind the end of the one before. */
  lemma SortedLinks(text: string, links: seq<Link>)
    requires Disjoint(links) && AllCover(text, links)
    ensures var r := SortBy(links, ByStart());
      Ordered(r) && AllCover(text, r) && forall l :: l in r <==> l in links
  {
    var r := SortBy(links, ByStart());
    SortSorts(links, ByStart());
    SortPermutes(links, ByStart());
    forall i, j | 0 <= i < j < |links| ensures ByStart()(links[i]) != ByStart()(links[j]) {
      assert links[i] in links && links[j] in links && !Overlapping(links[i], links[j]);
    }
    DistinctByPermuted(links, r, ByStart());
    forall i, j | 0 <= i < j < |r| ensures r[i].end <= r[j].start {
      assert ByStart()(r[i]) <= ByStart()(r[j]) && ByStart()(r[i]) != ByStart()(r[j]);
      assert r[i] in links && r[j] in links;
      MemberDisjoint(links, r[i], r[j]);
    }
  }

  lemma MemberDisjoint(links: seq<Link>, a: Link, b: Link)
    requires Disjoint(links) && a in links && b in links && a != b
    ensures !Overlapping(a, b)
  {
    var i :| 0 <= i < |links| && links[i] == a;
    var j :| 0 <= j < |links| && links[j] == b;
    assert i < j || j < i;
  }

  // ----- rewriting -----

  /** The links that are rewritten: not starting inside code, not already part of a markdown link. */
  predicate Rewritten(text: string, codeRanges: seq<Range>, l: Link)
    requires Covers(text, l)
  {
    !IsInsideCode(l.start, codeRanges) && !IsAlreadyLinked(text, l.start, l.end)
  }

  /** The links among `links` that are rewritten, in order. */
  function Kept(text: string, codeRanges: seq<Range>, links: seq<Link>): (r: seq<Link>)
    requires AllCover(text, links)
    ensures forall l :: l in r <==> l in links && Rewritten(text, codeRanges, l)
  {
    if links == [] then []
    else
      assert links == [links[0]] + links[1..];
      (if Rewritten(text, codeRanges, links[0]) then [links[0]] else []) + Kept(text, codeRanges, links[1..])
  }

  /** Every link lies behind `cursor`, and each behind the one before. */
  ghost predicate Ahead(links: seq<Link>, cursor: int) {
    Ordered(links) && forall l :: l in links ==> cursor <= l.start
  }

  lemma AheadTail(text: string, links: seq<Link>, cursor: int)
    requires links != [] && Ahead(links, cursor) && AllCover(text, links)
    ensures cursor <= links[0].start && Covers(text, links[0])
    ensures Ahead(links[1..], links[0].end) && AllCover(text, links[1..]) && Ahead(links[1..], cursor)
  {
    assert links[0] in links;
    var t := links[1..];
    assert forall l :: l in t ==> l in links;
    forall l | l in t ensures links[0].end <= l.start {
      var j :| 0 <= j < |t| && t[j] == l;
      assert links[j + 1] == l;
    }
    forall i, j | 0 <= i < j < |t| ensures t[i].end <= t[j].start {
      assert t[i] == links[i + 1] && t[j] == links[j + 1];
    }
  }

  lemma {:induction false} KeptAhead(text: string, codeRanges: seq<Range>, links: seq<Link>, cursor: int)
    requires AllCover(text, links) && Ahead(links, cursor)
    ensures Ahead(Kept(text, codeRanges, links), cursor) && AllCover(text, Kept(text, codeRanges, links))
  {
    if links != [] {
      AheadTail(text, links, cursor);
      KeptAhead(text, codeRanges, links[1..], links[0].end);
    }
  }

  function Markdown(l: Link): string {
    "[" + l.text + "](" + l.url + ")"
  }

  /** `text` from `cursor` on, with the given links rewritten. */
  function Splice(text: string, links: seq<Link>, cursor: int): string
    requires AllCover(text, links) && Ahead(links, cursor) && 0 <= cursor <= |text|
  {
    if links == [] then text[cursor..]
    else
      AheadTail(text, links, cursor);
      text[cursor..links[0].start] + Markdown(links[0]) + Splice(text, links[1..], links[0].end)
  }

  /** What `preprocessLinks` returns once it has found links to look at. */
  function Preprocessed(text: string, codeRanges: seq<Range>, links: seq<Link>, cursor: int): string
    requires AllCover(text, links) && Ahead(links, cursor) && 0 <= cursor <= |text|
  {
    KeptAhead(text, codeRanges, links, cursor);
    Splice(text, Kept(text, codeRanges, links), cursor)
  }

  /** One link more or less in front of the rest: the two branches of the loop body. */
  lemma PreprocessedStep(text: string, codeRanges: seq<Range>, links: seq<Link>, cursor: int)
    requires links != [] && AllCover(text, links) && Ahead(links, cursor) && 0 <= cursor <= |text|
    ensures var l, rest := links[0], links[1..];
      && Covers(text, l) && cursor <= l.start && AllCover(text, rest) && Ahead(rest, cursor) && Ahead(rest, l.end)
      && Preprocessed(text, codeRanges, links, cursor)
         == if Rewritten(text, codeRanges, l)
            then text[cursor..l.start] + Markdown(l) + Preprocessed(text, codeRanges, rest, l.end)
            else Preprocessed(text, codeRanges, rest, cursor)
  {
    AheadTail(text, links, cursor);
    KeptAhead(text, codeRanges, links, cursor);
    var rest := Kept(text, codeRanges, links[1..]);
    assert ([links[0]] + rest)[1..] == rest;
    assert [] + rest == rest;
  }

  method PreprocessLinks(text: string, mayHaveLinks: bool, codeRanges: seq<Range>, links: seq<Link>) returns (result: string)
    requires Ahead(links, 0) && AllCover(text, links)
    ensures result == if mayHaveLinks then Preprocessed(text, codeRanges, links, 0) else text
  {
    if !mayHaveLinks { return text; }
    if links == [] { return text; }
    result := "";
    var lastIndex := 0;
    assert links[0..] == links;
    for k := 0 to |links|
      invariant 0 <= lastIndex <= |text| && AllCover(text, links[k..]) && Ahead(links[k..], lastIndex)
      invariant result + Preprocessed(text, codeRanges, links[k..], lastIndex) == Preprocessed(text, codeRanges, links, 0)
    {
      var link := links[k];
      PreprocessedStep(text, codeRanges, links[k..], lastIndex);
      assert links[k..][1..] == links[k + 1..];
      if IsInsideCode(link.start, codeRanges) { continue; }
      if IsAlreadyLinked(text, link.start, link.end) { continue; }
      ghost var before := result;
      result := result + text[lastIndex..link.start];
      result := result + Markdown(link);
      PiecesInOrder(before, text[lastIndex..link.start], Markdown(link),
                    Preprocessed(text, codeRanges, links[k + 1..], link.end));
      lastIndex := link.end;
    }
    assert links[|links|..] == [];
    result := result + text[lastIndex..];
  }

  lemma PiecesInOrder(a: string, b: string, c: string, d: string)
    ensures a + b + c + d == a + (b + c + d)
  {
  }

  // ----- nothing but markup is added -----

  /** Takes the inserted markup out again: `[` before each link's text, `](url)` behind it. */
  function Unsplice(result: string, links: seq<Link>, cursor: int): string {
    if links == [] then result
    else
      var gap := links[0].start - cursor;
      var size := links[0].end - links[0].start;
      var rest := gap + 1 + size + 2 + |links[0].url| + 1;
      if gap < 0 || size < 0 || rest > |result| then result
      else result[..gap] + result[gap + 1..gap + 1 + size] + Unsplice(result[rest..], links[1..], links[0].end)
  }

  lemma SpliceHead(gap: string, l: Link, tail: string)
    ensures var r := gap + Markdown(l) + tail; var g := |gap|; var n := |l.text|;
      && |Markdown(l)| == 1 + n + 2 + |l.url| + 1
      && r[..g] == gap && r[g + 1..g + 1 + n] == l.text && r[g + |Markdown(l)|..] == tail
  {
    assert Markdown(l) == ("[" + l.text) + ("](" + l.url + ")");
    assert Markdown(l)[1..1 + |l.text|] == l.text;
    var r := gap + Markdown(l) + tail;
    assert r[|gap|..|gap| + |Markdown(l)|] == Markdown(l);
    assert r[|gap| + 1..|gap| + 1 + |l.text|] == Markdown(l)[1..1 + |l.text|];
  }

  lemma UnspliceHead(gap: string, links: seq<Link>, tail: string, cursor: int)
    requires links != [] && |gap| == links[0].start - cursor && |links[0].text| == links[0].end - links[0].start
    ensures Unsplice(gap + Markdown(links[0]) + tail, links, cursor)
            == gap + links[0].text + Unsplice(tail, links[1..], links[0].end)
  {
    SpliceHead(gap, links[0], tail);
  }

  /** Removing the markup gives back the text: rewriting moves, loses and doubles nothing. */
  lemma {:induction false} UnspliceSplice(text: string, links: seq<Link>, cursor: int)
    requires AllCover(text, links) && Ahead(links, cursor) && 0 <= cursor <= |text|
    ensures Unsplice(Splice(text, links, cursor), links, cursor) == text[cursor..]
  {
    if links != [] {
      AheadTail(text, links, cursor);
      var l := links[0];
      UnspliceSplice(text, links[1..], l.end);
      UnspliceHead(text[cursor..l.start], links, Splice(text, links[1..], l.end), cursor);
      Halves(text, cursor, l.start, l.end);
    }
  }

  lemma Halves(text: string, a: int, b: int, c: int)
    requires 0 <= a <= b <= c <= |text|
    ensures text[a..b] + text[b..c] + text[c..] == text[a..]
  {
  }

  /**
   * The whole rewriting: undoing the markup of the rewritten links restores the text, and the rewritten
   * links are exactly the given ones that start outside code and are not linked already.
   */
  lemma PreprocessConserves(text: string, codeRanges: seq<Range>, links: seq<Link>, l: Link)
    requires Ahead(links, 0) && AllCover(text, links)
    ensures Unsplice(Preprocessed(text, codeRanges, links, 0), Kept(text, codeRanges, links), 0) == text
    ensures l in Kept(text, codeRanges, links) ==> !IsInsideCode(l.start, codeRanges)
    ensures l in links && l !in Kept(text, codeRanges, links) ==>
              IsInsideCode(l.start, codeRanges) || IsAlreadyLinked(text, l.start, l.end)
  {
    KeptAhead(text, codeRanges, links, 0);
    UnspliceSplice(text, Kept(text, codeRanges, links), 0);
  }

  // ----- what is written -----

  /** Directly behind `](` or `][`, or between square brackets. */
  lemma AlreadyLinkedExact(text: string, start: int, end: int)
    requires 0 <= start <= end <= |text|
    ensures IsAlreadyLinked(text, start, end) <==>
      || (start >= 2 && text[start - 2] == ']' && (text[start - 1] == '(' || text[start - 1] == '['))
      || (start >= 1 && end < |text| && text[start - 1] == '[' && text[end] == ']')
  {
    if start >= 2 {
      var before := text[start - 2..start];
      assert before[0] == text[start - 2] && before[1] == text[start - 1];
      assert before == "](" <==> before[0] == ']' && before[1] == '(';
      assert before == "][" <==> before[0] == ']' && before[1] == '[';
    }
  }

  /**
   * The text around one link, character by character: outside code and not linked yet, the matched slice is
   * put between square brackets and the link's address behind it between parentheses; otherwise it stays.
   */
  lemma OneLinkWritten(text: string, codeRanges: seq<Range>, l: Link)
    requires Covers(text, l)
    ensures AllCover(text, [l]) && Ahead([l], 0)
    ensures Preprocessed(text, codeRanges, [l], 0)
            == if (forall r :: r in codeRanges ==> !(r.start <= l.start < r.end)) && !IsAlreadyLinked(text, l.start, l.end)
               then text[..l.start] + "[" + text[l.start..l.end] + "](" + l.url + ")" + text[l.end..]
               else text
  {
    assert AllCover(text, [l]) && Ahead([l], 0);
    PreprocessedStep(text, codeRanges, [l], 0);
    assert [l][1..] == [];
    var a, b := text[..l.start], text[l.start..l.end];
    assert text[0..l.start] == a && text[0..] == text;
    assert a + ("[" + b + "](" + l.url + ")") == a + "[" + b + "](" + l.url + ")";
  }

  /** A link goes where its match says: an e-mail or web address to its URL, a path to itself. */
  lemma AddressesKept(m: UrlMatch, p: PathMatch)
    ensures LinkOfUrl(m).text == m.text && LinkOfUrl(m).url == m.url
    ensures LinkOfUrl(m).start == m.index && LinkOfUrl(m).end == m.lastIndex
    ensures LinkOfUrl(m).kind.EmailLink? <==> m.mailto
    ensures LinkOfUrl(m).kind.UrlLink? <==> !m.mailto
    ensures LinkOfPath(p).kind.FileLink? && LinkOfPath(p).text == LinkOfPath(p).url == p.path
    ensures LinkOfPath(p).start == p.start && LinkOfPath(p).end - LinkOfPath(p).start == |p.path|
  {
  }

  predicate At(l: Link, k: int) {
    l.start <= k < l.end
  }

  /** Two matches overlap exactly if they share a character. */
  lemma OverlapExact(a: Link, b: Link)
    requires a.start < a.end && b.start < b.end
    ensures Overlapping(a, b) <==> exists k :: At(a, k) && At(b, k)
  {
    if Overlapping(a, b) {
      var k := Max(a.start, b.start);
      assert At(a, k) && At(b, k);
    }
  }
}
