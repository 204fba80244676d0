/**
 Whole messages: cut into fenced code blocks and inline segments, each parsed under one shared token counter.
 Unicode sanitizing and the rewriting of headings are functions the parser is given.
 */
module Markdown {
  import opened Bytes
  import opened MarkdownTree
  import opened MarkdownInline
  import opened MarkdownSafety
  import opened MarkdownScan

  datatype Segment = Inline(value: string) | Fenced(value: string)

  const FENCE := "```"

  predicate OpensFence(line: string) { FENCE <= line }

  predicate ClosesFence(line: string) { TrimEnd(line) == FENCE }

  // ---- sequences --------------------------------------------------------------------------------------------

  lemma Shift<T>(a: seq<T>, b: seq<T>)
    requires b != []
    ensures a + [b[0]] + b[1..] == a + b
  {}

  lemma Assoc<T>(a: seq<T>, b: seq<T>, c: seq<T>)
    ensures a + b + c == a + (b + c)
  {}

  lemma Slices<T>(s: seq<T>, i: nat, a: nat, b: nat)
    requires a <= b && i + b <= |s|
    ensures s[i..][a..b] == s[i + a..i + b]
    ensures s[i..][b..] == s[i + b..]
  {}

  lemma Prefix<T>(s: seq<T>, k: nat)
    requires 1 <= k < |s|
    ensures s[..k + 1][1..k] == s[1..k]
  {}

  lemma Regroup<T>(a: seq<T>, b: seq<T>, c: seq<T>, d: seq<T>)
    ensures a + (b + c + d) == a + b + c + d
  {
    Assoc(a, b + c, d);
    Assoc(a, b, c);
  }

  // ---- lines ------------------------------------------------------------------------------------------------

  /** `split('\n')`. */
  function Lines(s: string): (lines: seq<string>)
    ensures lines != []
  {
    if s == "" then [""]
    else
      var rest := Lines(s[..|s| - 1]);
      if s[|s| - 1] == '\n' then rest + [""] else rest[..|rest| - 1] + [rest[|rest| - 1] + [s[|s| - 1]]]
  }

  /** `join('\n')`. */
  function Join(lines: seq<string>): string {
    if lines == [] then ""
    else if |lines| == 1 then lines[0]
    else Join(lines[..|lines| - 1]) + "\n" + lines[|lines| - 1]
  }

  lemma JoinPush(lines: seq<string>, line: string)
    requires lines != []
    ensures Join(lines + [line]) == Join(lines) + "\n" + line
  {
    assert (lines + [line])[..|lines|] == lines;
  }

  lemma JoinGrow(init: seq<string>, line: string, c: char)
    ensures Join(init + [line + [c]]) == Join(init + [line]) + [c]
  {
    if init != [] {
      JoinPush(init, line);
      JoinPush(init, line + [c]);
      hide Join;
      assert Join(init) + "\n" + (line + [c]) == Join(init) + "\n" + line + [c];
    }
  }

  lemma {:induction false} LinesHaveNoNewline(s: string, i: nat)
    requires i < |Lines(s)|
    ensures '\n' !in Lines(s)[i]
  {
    if s != "" {
      var rest := Lines(s[..|s| - 1]);
      LinesHaveNoNewline(s[..|s| - 1], if i < |rest| then i else 0);
    }
  }

  lemma {:induction false} JoinLines(s: string)
    ensures Join(Lines(s)) == s
  {
    if s != "" {
      var init, last := s[..|s| - 1], s[|s| - 1];
      JoinLines(init);
      var rest := Lines(init);
      hide Join;
      assert s == init + [last];
      if last == '\n' {
        JoinPush(rest, "");
        assert init + "\n" + "" == s;
      } else {
        var k := |rest| - 1;
        JoinGrow(rest[..k], rest[k], last);
        assert rest[..k] + [rest[k]] == rest;
      }
    }
  }

  /** Splitting cuts at every newline and nowhere else: no line holds one, and joining gives the text back. */
  lemma SplitIsExact(s: string)
    ensures Join(Lines(s)) == s
    ensures forall i :: 0 <= i < |Lines(s)| ==> '\n' !in Lines(s)[i]
  {
    JoinLines(s);
    hide Join, Lines;
    forall i | 0 <= i < |Lines(s)|
      ensures '\n' !in Lines(s)[i]
    {
      LinesHaveNoNewline(s, i);
    }
  }

  // ---- blocks -----------------------------------------------------------------------------------------------

  /** The first line at or after `from` that closes a fence, or the number of lines. */
  function FenceClose(lines: seq<string>, from: nat): (r: nat)
    requires from <= |lines|
    ensures from <= r <= |lines|
    ensures r < |lines| ==> ClosesFence(lines[r])
    ensures forall k | from <= k < r :: !ClosesFence(lines[k])
    decreases |lines| - from
  {
    if from == |lines| || ClosesFence(lines[from]) then from else FenceClose(lines, from + 1)
  }

  method FindFenceClose(lines: seq<string>, from: nat) returns (r: int)
    requires from <= |lines|
    ensures r == if FenceClose(lines, from) == |lines| then -1 else FenceClose(lines, from)
  {
    var i := from;
    while i < |lines|
      invariant from <= i <= |lines|
      invariant FenceClose(lines, from) == FenceClose(lines, i)
    {
      if ClosesFence(lines[i]) {
        return i;
      }
      i := i + 1;
    }
    return -1;
  }

  /** The lines cut into groups: a closed fence with its two fence lines, or the lines between such fences. */
  function Groups(lines: seq<string>, buffer: seq<string>): (gs: seq<seq<string>>)
    decreases |lines|
  {
    if lines == [] then FlushedGroup(buffer)
    else if OpensFence(lines[0]) && FenceClose(lines, 1) < |lines| then
      var close := FenceClose(lines, 1);
      FlushedGroup(buffer) + [lines[..close + 1]] + Groups(lines[close + 1..], [])
    else Groups(lines[1..], buffer + [lines[0]])
  }

  function FlushedGroup(buffer: seq<string>): seq<seq<string>> {
    if buffer == [] then [] else [buffer]
  }

  /** A group that is a closed fence: its first line opens, its last is the first that closes. */
  predicate IsFence(g: seq<string>) {
    |g| >= 2 && OpensFence(g[0]) && FenceClose(g, 1) == |g| - 1
  }

  function SegmentOf(g: seq<string>): Segment {
    if IsFence(g) then Fenced(Join(g[1..|g| - 1])) else Inline(Join(g))
  }

  /** The cutting itself, as the parser does it. */
  function Segments(lines: seq<string>, buffer: seq<string>): seq<Segment>
    decreases |lines|
  {
    if lines == [] then FlushedInline(buffer)
    else if OpensFence(lines[0]) && FenceClose(lines, 1) < |lines| then
      var close := FenceClose(lines, 1);
      FlushedInline(buffer) + [Fenced(Join(lines[1..close]))] + Segments(lines[close + 1..], [])
    else Segments(lines[1..], buffer + [lines[0]])
  }

  function FlushedInline(buffer: seq<string>): seq<Segment> {
    if buffer == [] then [] else [Inline(Join(buffer))]
  }

  function Concat(gs: seq<seq<string>>): seq<string> {
    if gs == [] then [] else gs[0] + Concat(gs[1..])
  }

  lemma {:induction false} ConcatAppend(a: seq<seq<string>>, b: seq<seq<string>>)
    ensures Concat(a + b) == Concat(a) + Concat(b)
  {
    if a == [] {
      assert a + b == b;
    } else {
      ConcatAppend(a[1..], b);
      assert (a + b)[1..] == a[1..] + b;
    }
  }

  lemma ConcatFlushed(buffer: seq<string>)
    ensures Concat(FlushedGroup(buffer)) == buffer
  {
    if buffer != [] {
      assert [buffer][1..] == [];
    }
  }

  lemma ConcatFence(buffer: seq<string>, fence: seq<string>, rest: seq<seq<string>>)
    ensures Concat(FlushedGroup(buffer) + [fence] + rest) == buffer + fence + Concat(rest)
  {
    ConcatFlushed(buffer);
    ConcatFlushed(fence);
    assert Concat([fence]) == fence by { assert [fence][1..] == []; }
    ConcatAppend(FlushedGroup(buffer), [fence]);
    ConcatAppend(FlushedGroup(buffer) + [fence], rest);
  }

  /** Cutting loses no line and reorders none. */
  lemma {:induction false} GroupsCoverTheLines(lines: seq<string>, buffer: seq<string>)
    ensures Concat(Groups(lines, buffer)) == buffer + lines
    decreases |lines|
  {
    hide Concat, FlushedGroup, OpensFence, ClosesFence;
    if lines == [] {
      ConcatFlushed(buffer);
    } else if OpensFence(lines[0]) && FenceClose(lines, 1) < |lines| {
      var close := FenceClose(lines, 1);
      GroupsCoverTheLines(lines[close + 1..], []);
      ConcatFence(buffer, lines[..close + 1], Groups(lines[close + 1..], []));
      assert buffer + lines == buffer + lines[..close + 1] + ([] + lines[close + 1..]);
    } else {
      GroupsCoverTheLines(lines[1..], buffer + [lines[0]]);
      Shift(buffer, lines);
    }
  }

  /** A fence that a buffered line opens is closed nowhere below it. */
  ghost predicate Quiet(buffer: seq<string>, lines: seq<string>) {
    forall i, k | 0 <= i < |buffer| && i < k < |buffer + lines| ::
      OpensFence(buffer[i]) ==> !ClosesFence((buffer + lines)[k])
  }

  lemma QuietIsNoFence(buffer: seq<string>, lines: seq<string>)
    requires Quiet(buffer, lines)
    ensures !IsFence(buffer)
  {
    if |buffer| >= 2 && OpensFence(buffer[0]) {
      var last := |buffer| - 1;
      assert (buffer + lines)[last] == buffer[last];
      assert !ClosesFence(buffer[last]);
    }
  }

  lemma FenceIsFence(lines: seq<string>, close: nat)
    requires lines != [] && OpensFence(lines[0]) && close == FenceClose(lines, 1) < |lines|
    ensures IsFence(lines[..close + 1])
  {
    var g := lines[..close + 1];
    var c := FenceClose(g, 1);
    assert ClosesFence(g[close]);
    assert c <= close;
    assert g[c] == lines[c];
  }

  ghost predicate Match(segments: seq<Segment>, groups: seq<seq<string>>) {
    && |segments| == |groups|
    && forall i | 0 <= i < |segments| :: segments[i] == SegmentOf(groups[i])
  }

  lemma MatchAppend(a: seq<Segment>, ga: seq<seq<string>>, b: seq<Segment>, gb: seq<seq<string>>)
    requires Match(a, ga) && Match(b, gb)
    ensures Match(a + b, ga + gb)
  {}

  /**
   The segments are the groups: a closed fence becomes a code block of the lines between its fence lines, everything
   else becomes inline text.
   */
  lemma {:induction false} SegmentsAreGroups(lines: seq<string>, buffer: seq<string>)
    requires Quiet(buffer, lines)
    ensures Match(Segments(lines, buffer), Groups(lines, buffer))
    decreases |lines|
  {
    QuietIsNoFence(buffer, lines);
    assert Match(FlushedInline(buffer), FlushedGroup(buffer));
    hide Match, SegmentOf, FlushedInline, FlushedGroup, Quiet, OpensFence, ClosesFence;
    if lines == [] {
    } else if OpensFence(lines[0]) && FenceClose(lines, 1) < |lines| {
      var close := FenceClose(lines, 1);
      FenceMatches(lines, close);
      QuietEmpty(lines[close + 1..]);
      SegmentsAreGroups(lines[close + 1..], []);
      MatchAppend(FlushedInline(buffer), FlushedGroup(buffer), [Fenced(Join(lines[1..close]))], [lines[..close + 1]]);
      MatchAppend(FlushedInline(buffer) + [Fenced(Join(lines[1..close]))], FlushedGroup(buffer) + [lines[..close + 1]],
                  Segments(lines[close + 1..], []), Groups(lines[close + 1..], []));
    } else {
      QuietAfter(lines, buffer);
      SegmentsAreGroups(lines[1..], buffer + [lines[0]]);
    }
  }

  lemma QuietEmpty(lines: seq<string>)
    ensures Quiet([], lines)
  {}

  lemma FenceMatches(lines: seq<string>, close: nat)
    requires lines != [] && OpensFence(lines[0]) && close == FenceClose(lines, 1) < |lines|
    ensures Match([Fenced(Join(lines[1..close]))], [lines[..close + 1]])
  {
    FenceIsFence(lines, close);
    hide Join, OpensFence, ClosesFence, IsFence, FenceClose;
    Prefix(lines, close);
    assert SegmentOf(lines[..close + 1]) == Fenced(Join(lines[1..close]));
  }

  lemma QuietAfter(lines: seq<string>, buffer: seq<string>)
    requires lines != [] && Quiet(buffer, lines)
    requires OpensFence(lines[0]) ==> FenceClose(lines, 1) == |lines|
    ensures Quiet(buffer + [lines[0]], lines[1..])
  {
    hide OpensFence, ClosesFence;
    var all, n := buffer + lines, |buffer|;
    Shift(buffer, lines);
    forall i, k | 0 <= i < n + 1 && i < k < |all|
      ensures OpensFence((buffer + [lines[0]])[i]) ==> !ClosesFence(all[k])
    {
      if i == n {
        assert all[k] == lines[k - n];
      }
    }
  }

  /** A line that starts no closed fence is buffered. */
  lemma SegmentsBuffer(lines: seq<string>, i: nat, buffer: seq<string>)
    requires i < |lines| && (OpensFence(lines[i]) ==> FenceClose(lines, i + 1) == |lines|)
    ensures Segments(lines[i..], buffer) == Segments(lines[i + 1..], buffer + [lines[i]])
  {
    FenceCloseShift(lines, i, 1);
    assert lines[i..][1..] == lines[i + 1..];
  }

  lemma SegmentsUnfold(lines: seq<string>, buffer: seq<string>, code: seq<string>, rest: seq<string>)
    requires lines != [] && OpensFence(lines[0]) && FenceClose(lines, 1) < |lines|
    requires code == lines[1..FenceClose(lines, 1)] && rest == lines[FenceClose(lines, 1) + 1..]
    ensures Segments(lines, buffer) == FlushedInline(buffer) + [Fenced(Join(code))] + Segments(rest, [])
  {}

  /** A closed fence flushes the buffer and becomes a code block. */
  lemma SegmentsFence(lines: seq<string>, i: nat, buffer: seq<string>, done: seq<Segment>)
    requires i < |lines| && OpensFence(lines[i]) && FenceClose(lines, i + 1) < |lines|
    ensures var close := FenceClose(lines, i + 1);
      done + Segments(lines[i..], buffer) ==
        done + FlushedInline(buffer) + [Fenced(Join(lines[i + 1..close]))] + Segments(lines[close + 1..], [])
  {
    hide OpensFence, ClosesFence, FenceClose, Join, FlushedInline, Segments;
    FenceCloseShift(lines, i, 1);
    var close := FenceClose(lines, i + 1);
    Slices(lines, i, 1, close - i);
    Slices(lines, i, 1, close - i + 1);
    SegmentsUnfold(lines[i..], buffer, lines[i + 1..close], lines[close + 1..]);
    Regroup(done, FlushedInline(buffer), [Fenced(Join(lines[i + 1..close]))], Segments(lines[close + 1..], []));
  }

  lemma SegmentsEnd(lines: seq<string>, buffer: seq<string>)
    ensures lines[0..] == lines
    ensures Segments(lines[|lines|..], buffer) == FlushedInline(buffer)
  {}

  /** The block splitter's loop. */
  method SplitBlocks(source: string) returns (segments: seq<Segment>)
    ensures segments == Segments(Lines(source), [])
  {
    hide Lines, Join, OpensFence, ClosesFence, FenceClose, Segments, FlushedInline;
    segments := [];
    var lines := Lines(source);
    var buffer: seq<string> := [];
    var i := 0;
    SegmentsEnd(lines, buffer);
    while i < |lines|
      invariant 0 <= i <= |lines|
      invariant segments + Segments(lines[i..], buffer) == Segments(lines, [])
    {
      var line := lines[i];
      if OpensFence(line) {
        var closeIdx := FindFenceClose(lines, i + 1);
        if closeIdx != -1 {
          SegmentsFence(lines, i, buffer, segments);
          segments := segments + FlushedInline(buffer);
          buffer := [];
          segments := segments + [Fenced(Join(lines[i + 1..closeIdx]))];
          i := closeIdx + 1;
          continue;
        }
      }
      SegmentsBuffer(lines, i, buffer);
      buffer := buffer + [line];
      i := i + 1;
    }
    SegmentsEnd(lines, buffer);
    segments := segments + FlushedInline(buffer);
  }

  lemma {:induction false} FenceCloseShift(lines: seq<string>, i: nat, from: nat)
    requires i + from <= |lines|
    ensures FenceClose(lines, i + from) == i + FenceClose(lines[i..], from)
    decreases |lines| - from
  {
    if i + from < |lines| {
      FenceCloseShift(lines, i, from + 1);
    }
  }

  // ---- whole messages -----------------------------------------------------------------------------------------

  datatype Ast = Ast(nodes: seq<Node>, bombFallback: bool, source: string)

  /** The text the segments hold, headings rewritten. */
  function SegmentText(segments: seq<Segment>, rewrite: string -> string): string {
    if segments == [] then ""
    else
      var last := segments[|segments| - 1];
      SegmentText(segments[..|segments| - 1], rewrite) + if last.Inline? then rewrite(last.value) else last.value
  }

  lemma {:induction false} SegmentTextGrows(segments: seq<Segment>, n: nat, rewrite: string -> string)
    requires n <= |segments|
    ensures exists rest :: SegmentText(segments, rewrite) == SegmentText(segments[..n], rewrite) + rest
  {
    if n < |segments| {
      var k := |segments| - 1;
      SegmentTextGrows(segments[..k], n, rewrite);
      assert segments[..k][..n] == segments[..n];
      var rest :| SegmentText(segments[..k], rewrite) == SegmentText(segments[..n], rewrite) + rest;
      var more := if segments[k].Inline? then rewrite(segments[k].value) else segments[k].value;
      assert SegmentText(segments, rewrite) == SegmentText(segments[..n], rewrite) + (rest + more);
    } else {
      assert segments[..n] == segments;
      assert SegmentText(segments, rewrite) == SegmentText(segments, rewrite) + "";
    }
  }

  /** The parse of the remaining segments, with the nodes, the counter and the flag so far. */
  function ParseFrom(segments: seq<Segment>, rewrite: string -> string, nodes: seq<Node>, tokens: nat, overflow: bool)
    : (r: (seq<Node>, bool))
  {
    if segments == [] then (nodes, overflow)
    else if tokens >= MAX_TOKENS then (nodes, true)
    else if segments[0].Fenced? then
      ParseFrom(segments[1..], rewrite, nodes + [CodeBlock(segments[0].value)], tokens + 1, overflow)
    else
      var p := InlineFrom(rewrite(segments[0].value), 0, tokens, 0, overflow, [], "");
      ParseFrom(segments[1..], rewrite, nodes + p.nodes, p.tokens, p.overflow)
  }

  /** The whole parse of a sanitized source. */
  function Parsed(source: string, rewrite: string -> string): Ast {
    var r := ParseFrom(Segments(Lines(source), []), rewrite, [], 0, false);
    Ast(r.0, r.1, source)
  }

  method ParseMarkdownString(raw: string, sanitize: string -> string, rewrite: string -> string) returns (ast: Ast)
    ensures ast == Parsed(sanitize(raw), rewrite)
  {
    var source := sanitize(raw);
    var segments := SplitBlocks(source);
    hide Segments, Lines, InlineFrom;
    var nodes: seq<Node> := [];
    var tokens: nat, overflow := 0, false;
    var i := 0;
    assert segments[0..] == segments;
    while i < |segments|
      invariant 0 <= i <= |segments|
      invariant ParseFrom(segments, rewrite, [], 0, false) == ParseFrom(segments[i..], rewrite, nodes, tokens, overflow)
    {
      assert segments[i..][1..] == segments[i + 1..];
      if tokens >= MAX_TOKENS {
        overflow := true;
        return Ast(nodes, overflow, source);
      }
      if segments[i].Fenced? {
        nodes := nodes + [CodeBlock(segments[i].value)];
        tokens := tokens + 1;
        i := i + 1;
        continue;
      }
      var cursor := new Cursor(rewrite(segments[i].value), 0, tokens, 0, overflow);
      var inlineNodes := cursor.ParseInline();
      nodes := nodes + inlineNodes;
      tokens := cursor.tokens;
      overflow := cursor.overflow;
      i := i + 1;
    }
    return Ast(nodes, overflow, source);
  }

  /** The bound every message's tree obeys: 500 tokens, one text node more, and two per level of nesting. */
  const MAX_NODES := 507

  lemma {:induction false} ParseFromSound(segments: seq<Segment>, n: nat, rewrite: string -> string, nodes: seq<Node>,
                                          overflow: bool)
    requires n <= |segments|
    requires Sizes(nodes) <= MAX_NODES && Heights(nodes) <= MAX_EMPHASIS_DEPTH
    requires Subsequence(ShownAll(nodes), SegmentText(segments[..n], rewrite))
    ensures var r := ParseFrom(segments[n..], rewrite, nodes, Sizes(nodes), overflow);
      && Sizes(r.0) <= MAX_NODES && Heights(r.0) <= MAX_EMPHASIS_DEPTH
      && Subsequence(ShownAll(r.0), SegmentText(segments, rewrite))
    decreases |segments| - n
  {
    hide Sizes, Heights, ShownAll, Subsequence, InlineFrom, SegmentText;
    if n == |segments| || Sizes(nodes) >= MAX_TOKENS {
      RestUnseen(segments, n, rewrite, ShownAll(nodes));
    } else {
      assert segments[n..][1..] == segments[n + 1..];
      SegmentTextStep(segments, n, rewrite);
      var text := SegmentText(segments[..n], rewrite);
      if segments[n].Fenced? {
        var v := segments[n].value;
        PushNode(nodes, CodeBlock(v));
        SubsequenceSelf(v);
        SubsequenceAppend(ShownAll(nodes), text, v, v);
        ParseFromSound(segments, n + 1, rewrite, nodes + [CodeBlock(v)], overflow);
      } else {
        var s := rewrite(segments[n].value);
        var p := InlineFrom(s, 0, Sizes(nodes), 0, overflow, [], "");
        WholeInlineSound(s, Sizes(nodes), overflow);
        PushAll(nodes, p.nodes);
        SubsequenceAppend(ShownAll(nodes), text, ShownAll(p.nodes), s);
        ParseFromSound(segments, n + 1, rewrite, nodes + p.nodes, p.overflow);
      }
    }
  }

  lemma WholeInlineSound(s: string, tokens: nat, overflow: bool)
    requires tokens < MAX_TOKENS
    ensures var p := InlineFrom(s, 0, tokens, 0, overflow, [], "");
      && p.pos <= |s| && p.tokens == tokens + Sizes(p.nodes) && p.tokens <= MAX_NODES
      && Heights(p.nodes) <= MAX_EMPHASIS_DEPTH
      && Subsequence(ShownAll(p.nodes), s)
      && (p.pos < |s| || overflow ==> p.overflow)
  {
    hide InlineFrom, Sizes, Heights, ShownAll, Subsequence;
    EmptyNodes();
    assert s[0..0] == "";
    InlineSound(s, 0, 0, tokens, 0, overflow, [], "");
    var p := InlineFrom(s, 0, tokens, 0, overflow, [], "");
    SubsequenceWiden(ShownAll(p.nodes), s, 0, p.pos, 0, |s|);
    assert s[0..|s|] == s;
  }

  lemma SegmentTextStep(segments: seq<Segment>, n: nat, rewrite: string -> string)
    requires n < |segments|
    ensures SegmentText(segments[..n + 1], rewrite) == SegmentText(segments[..n], rewrite) +
      if segments[n].Inline? then rewrite(segments[n].value) else segments[n].value
  {
    assert segments[..n + 1][..n] == segments[..n];
  }

  lemma RestUnseen(segments: seq<Segment>, n: nat, rewrite: string -> string, shown: string)
    requires n <= |segments| && Subsequence(shown, SegmentText(segments[..n], rewrite))
    ensures Subsequence(shown, SegmentText(segments, rewrite))
  {
    SegmentTextGrows(segments, n, rewrite);
    hide SegmentText;
    var rest :| SegmentText(segments, rewrite) == SegmentText(segments[..n], rewrite) + rest;
    EmptyInside(rest);
    SubsequenceAppend(shown, SegmentText(segments[..n], rewrite), "", rest);
    assert shown + "" == shown;
  }

  /**
   Every message's tree has at most 507 nodes and nests at most 3 deep, and what it shows is the segments' text with
   characters left out, in order.
   */
  lemma EveryMessageIsBounded(source: string, rewrite: string -> string)
    ensures var ast := Parsed(source, rewrite);
      && ast.source == source
      && Sizes(ast.nodes) <= MAX_NODES
      && Heights(ast.nodes) <= MAX_EMPHASIS_DEPTH
      && Subsequence(ShownAll(ast.nodes), SegmentText(Segments(Lines(source), []), rewrite))
  {
    hide Segments, Lines, InlineFrom, Sizes, Heights, ShownAll, Subsequence;
    var segments := Segments(Lines(source), []);
    EmptyNodes();
    EmptyInside(SegmentText(segments[..0], rewrite));
    assert segments[0..] == segments;
    ParseFromSound(segments, 0, rewrite, [], false);
  }

  /** Without the fallback flag no segment was cut short: every one is parsed to its end. */
  ghost predicate AllRead(segments: seq<Segment>, rewrite: string -> string, tokens: nat, overflow: bool) {
    segments != [] ==>
      && tokens < MAX_TOKENS
      && if segments[0].Fenced? then AllRead(segments[1..], rewrite, tokens + 1, overflow)
         else
           var s := rewrite(segments[0].value);
           var p := InlineFrom(s, 0, tokens, 0, overflow, [], "");
           p.pos == |s| && AllRead(segments[1..], rewrite, p.tokens, p.overflow)
  }

  lemma {:induction false} NoFallbackReadsAll(segments: seq<Segment>, rewrite: string -> string, nodes: seq<Node>,
                                              tokens: nat, overflow: bool)
    requires !ParseFrom(segments, rewrite, nodes, tokens, overflow).1
    ensures !overflow && AllRead(segments, rewrite, tokens, overflow)
  {
    hide InlineFrom;
    if segments != [] && tokens < MAX_TOKENS {
      if segments[0].Fenced? {
        NoFallbackReadsAll(segments[1..], rewrite, nodes + [CodeBlock(segments[0].value)], tokens + 1, overflow);
      } else {
        var s := rewrite(segments[0].value);
        var p := InlineFrom(s, 0, tokens, 0, overflow, [], "");
        WholeInlineSound(s, tokens, overflow);
        NoFallbackReadsAll(segments[1..], rewrite, nodes + p.nodes, p.tokens, p.overflow);
      }
    }
  }

  lemma EmptyInside(s: string)
    ensures Subsequence("", s)
  {}
}
