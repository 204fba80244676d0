/**
 What every parse keeps: a token read moves the cursor on and stands between its markers in the source; the token
 counter is the number of nodes, nested ones included; nesting and counter are bounded; and nothing is shown that was
 not in the source.
 */
module MarkdownSafety {
  import opened Bytes
  import opened MarkdownTree
  import opened MarkdownScan

  /** The most tokens a parse at nesting level `depth` can leave, if it starts below the limit. */
  function TokenBound(depth: nat): int { MAX_TOKENS + 1 + 2 * (MAX_EMPHASIS_DEPTH - depth) }

  // ---- emitting ---------------------------------------------------------------------------------------------

  lemma MergeAdds(init: seq<Node>, a: string, b: string)
    ensures Sizes(init + [Text(a + b)]) == Sizes(init + [Text(a)])
    ensures Heights(init + [Text(a + b)]) == Heights(init + [Text(a)])
    ensures ShownAll(init + [Text(a + b)]) == ShownAll(init + [Text(a)]) + b
  {
    PushNode(init, Text(a));
    PushNode(init, Text(a + b));
    hide Sizes, Heights, ShownAll;
    assert ShownAll(init) + (a + b) == ShownAll(init) + a + b;
  }

  /** Emitting adds the node's nodes and text, except that a merged text is not a node of its own. */
  lemma EmitAdds(sink: seq<Node>, node: Node)
    ensures Sizes(Emitted(sink, node)) == Sizes(sink) + (if |Emitted(sink, node)| == |sink| then 0 else Size(node))
    ensures Heights(Emitted(sink, node)) == Max(Heights(sink), Height(node))
    ensures ShownAll(Emitted(sink, node)) == ShownAll(sink) + Shown(node)
    ensures |sink| <= |Emitted(sink, node)| <= |sink| + 1 && (!node.Text? ==> |Emitted(sink, node)| == |sink| + 1)
  {
    hide Sizes, Heights, ShownAll;
    if node.Text? && sink != [] && sink[|sink| - 1].Text? {
      var init, last := sink[..|sink| - 1], sink[|sink| - 1].value;
      MergeAdds(init, last, node.value);
      assert sink == init + [Text(last)];
    } else {
      hide Size, Height, Shown;
      PushNode(sink, node);
      assert |Emitted(sink, node)| == |sink| + 1;
    }
  }

  /** Flushing the text buffer pushes at most one node. */
  lemma FlushAdds(nodes: seq<Node>, buffer: string)
    ensures var r := Flushed(nodes, buffer);
      && |nodes| <= |r| <= |nodes| + 1 && (buffer == "" ==> r == nodes)
      && Sizes(r) - Sizes(nodes) == |r| - |nodes|
      && Heights(r) == Heights(nodes)
      && ShownAll(r) == ShownAll(nodes) + buffer
  {
    if buffer != "" {
      EmitAdds(nodes, Text(buffer));
    }
  }

  /** Flushing and pushing a token: its own node is counted, those nested in it have been. */
  lemma PushAdds(nodes: seq<Node>, buffer: string, node: Node)
    requires !node.Text?
    ensures var r := Emitted(Flushed(nodes, buffer), node);
      && |nodes| < |r| <= |nodes| + 2
      && Sizes(r) - Sizes(nodes) == |r| - |nodes| + Size(node) - 1
      && Heights(r) == Max(Heights(nodes), Height(node))
      && ShownAll(r) == ShownAll(nodes) + buffer + Shown(node)
  {
    hide Sizes, Heights, ShownAll, Flushed, Emitted;
    FlushAdds(nodes, buffer);
    EmitAdds(Flushed(nodes, buffer), node);
  }

  // ---- what stands in the source ------------------------------------------------------------------------------

  lemma ShownInside(before: string, shown: string, after: string)
    ensures Subsequence(shown, before + shown + after)
  {
    SubsequenceSelf(shown);
    SubsequenceAppend("", before, shown, shown);
    assert "" + shown == shown;
    SubsequenceAppend(shown, before + shown, "", after);
    assert shown + "" == shown;
  }

  /** Taking one character of the part of the source just read. */
  lemma TakeChar(a: string, s: string, i: nat, j: nat, at: nat, k: nat)
    requires i <= j <= at < k <= |s| && Subsequence(a, s[i..j])
    ensures Subsequence(a + [s[at]], s[i..k])
  {
    assert Subsequence([s[at]], s[at..at + 1]) by {
      assert s[at..at + 1] == [s[at]];
      SubsequenceSelf([s[at]]);
    }
    SubsequenceWiden([s[at]], s, at, at + 1, j, k);
    SubsequenceJoin(a, [s[at]], s, i, j, k);
  }

  /** `s` is `inner` between two runs of `k` markers. */
  predicate Marked(s: string, marker: char, k: nat, inner: string) {
    s == Repeat(marker, k) + inner + Repeat(marker, k)
  }

  lemma MarkedSource(s: string, marker: char, start: nat, k: nat, idx: nat)
    requires start + k <= idx && idx + k <= |s|
    requires s[start..start + k] == Repeat(marker, k) && s[idx..idx + k] == Repeat(marker, k)
    ensures Marked(s[start..idx + k], marker, k, s[start + k..idx])
  {
    assert s[start..idx + k] == s[start..start + k] + s[start + k..idx] + s[idx..idx + k];
  }

  lemma MatchSlice(s: string, c: char, k: nat, r: nat)
    requires MatchesAt(s, Repeat(c, k), r)
    ensures r + k <= |s| && s[r..r + k] == Repeat(c, k)
  {
    RepeatLength(c, k);
  }

  lemma FoundRun(s: string, from: nat, r: nat, k: nat)
    requires from <= r < |s| && ExactRun(s, r, k)
    ensures !NoRun(s, from, |s|, k)
  {}

  lemma OpeningRun(s: string, pos: nat)
    requires pos < |s| && s[pos] == '`'
    ensures RunAt(s, '`', pos) > 0 && AtEdge(s, pos + RunAt(s, '`', pos))
  {}

  /** A code span is read exactly when the opening run of backticks meets a run of the same length. */
  lemma CodeFoundExactly(s: string, pos: nat)
    requires pos < |s| && s[pos] == '`'
    ensures var k := RunAt(s, '`', pos);
      k > 0 && (CodeAt(s, pos).None? <==> NoRun(s, pos + k, |s|, k))
  {
    hide CodeClose, Repeat, NoRun, ExactRun, MatchesAt, RunAt, AtEdge;
    OpeningRun(s, pos);
    var k := RunAt(s, '`', pos);
    CodeCloseIsFirst(s, pos + k, k);
    var close := CodeClose(s, pos + k, k);
    if close != -1 {
      FoundRun(s, pos + k, close, k);
    }
  }

  /** It closes at the first such run, and what was read is the value between the two. */
  lemma CodeShape(s: string, pos: nat)
    requires pos < |s| && s[pos] == '`' && CodeAt(s, pos).Some?
    ensures var k := RunAt(s, '`', pos);
      var Read(node, end) := CodeAt(s, pos).value;
      && node.Code? && k <= end && Marked(s[pos..end], '`', k, node.value)
      && ExactRun(s, end - k, k) && NoRun(s, pos + k, end - k, k)
      && Subsequence(Shown(node), s[pos..end])
  {
    hide CodeClose, Repeat, NoRun, ExactRun, MatchesAt, Subsequence, RunAt, AtEdge, Marked;
    OpeningRun(s, pos);
    var k := RunAt(s, '`', pos);
    var close := CodeClose(s, pos + k, k);
    CodeCloseIsFirst(s, pos + k, k);
    RunIsRepeat(s, '`', pos, k);
    MatchSlice(s, '`', k, close);
    MarkedSource(s, '`', pos, k, close);
    ShownInside(Repeat('`', k), s[pos + k..close], Repeat('`', k));
  }

  /** The text ends at `t` and the address at `u`: each at the first closing character that is not escaped. */
  predicate LinkOf(s: string, pos: nat, t: nat, u: nat) {
    && Unescaped(s, pos + 1, ']') == t && t + 1 < |s| && s[t + 1] == '('
    && Unescaped(s, t + 2, ')') == u
    && s[pos + 1..t] != "" && Trim(s[t + 2..u]) != ""
  }

  /**
   A link is read exactly when an unescaped bracket closes its text, a parenthesis follows at once, an unescaped one
   closes the address, and neither is empty.
   */
  lemma LinkFoundExactly(s: string, pos: nat)
    requires pos < |s|
    ensures LinkAt(s, pos).Some? <==> exists t: nat, u: nat :: LinkOf(s, pos, t, u)
    ensures forall t: nat, u: nat | LinkOf(s, pos, t, u) ::
      LinkAt(s, pos) == Some(Read(Link(Trim(s[t + 2..u]), s[pos + 1..t]), u + 1))
  {
    hide Unescaped, Trim;
    if LinkAt(s, pos).Some? {
      var t: nat := Unescaped(s, pos + 1, ']');
      var u: nat := Unescaped(s, t + 2, ')');
      assert LinkOf(s, pos, t, u);
    }
  }

  /** What was read is the text in brackets and the address, perhaps padded, in parentheses. */
  lemma LinkShape(s: string, pos: nat, t: nat, u: nat)
    requires pos < |s| && s[pos] == '[' && LinkOf(s, pos, t, u)
    ensures s[pos..u + 1] == "[" + s[pos + 1..t] + ("](" + s[t + 2..u] + ")")
    ensures Subsequence(s[pos + 1..t], s[pos..u + 1])
  {
    hide Trim, Subsequence;
    ShownInside("[", s[pos + 1..t], "](" + s[t + 2..u] + ")");
    assert s[pos..u + 1] == "[" + s[pos + 1..t] + ("](" + s[t + 2..u] + ")");
  }

  /** What a bare link reads is what it links to and shows. */
  lemma AutolinkIsVerbatim(s: string, pos: nat)
    requires pos < |s| && AutolinkAt(s, pos).Some?
    ensures var Read(node, end) := AutolinkAt(s, pos).value;
      node == Link(s[pos..end], s[pos..end]) && Subsequence(Shown(node), s[pos..end])
  {
    var end := AutolinkAt(s, pos).value.end;
    SubsequenceSelf(s[pos..end]);
  }

  // ---- parses -----------------------------------------------------------------------------------------------

  /** What reading a token with `had` tokens on the counter promises. */
  ghost predicate Sound(s: string, pos: nat, had: nat, depth: nat, overflow: bool, r: Taken) {
    && (overflow ==> r.overflow)
    && (r.token.Some? ==>
          && pos < r.pos <= |s|
          && !r.token.value.Text?
          && r.tokens == had + Size(r.token.value) - 1
          && r.tokens <= TokenBound(depth) - 2
          && Height(r.token.value) <= MAX_EMPHASIS_DEPTH - depth
          && Subsequence(Shown(r.token.value), s[pos..r.pos]))
  }

  /** What a parse promises that started at `start` and has come to `pos` with `nodes` and `buffer`. */
  ghost predicate SoundParse(s: string, start: nat, tokens: nat, depth: nat, overflow: bool, nodes: seq<Node>, r: Parse) {
    && start <= r.pos <= |s|
    && (overflow || r.pos < |s| ==> r.overflow)
    && r.tokens == tokens + (Sizes(r.nodes) - Sizes(nodes))
    && r.tokens <= (if tokens < MAX_TOKENS then TokenBound(depth) else tokens)
    && Heights(r.nodes) <= MAX_EMPHASIS_DEPTH - depth
    && Subsequence(ShownAll(r.nodes), s[start..r.pos])
  }

  /** The inner part of an emphasis with `k` markers that closes at `close`. */
  function InnerOf(s: string, pos: nat, k: nat, close: nat, tokens: nat, depth: nat, overflow: bool): Parse
    requires pos + k <= close <= |s| && depth < MAX_EMPHASIS_DEPTH
  {
    InlineFrom(s[..close], pos + k, tokens, depth + 1, overflow, [], "")
  }

  lemma InnerSound(s: string, pos: nat, k: nat, close: nat, tokens: nat, depth: nat, overflow: bool)
    requires pos + k <= close <= |s| && depth < MAX_EMPHASIS_DEPTH && tokens < MAX_TOKENS
    ensures var r := InnerOf(s, pos, k, close, tokens, depth, overflow);
      && (overflow ==> r.overflow)
      && r.tokens == tokens + Sizes(r.nodes) && r.tokens <= TokenBound(depth + 1)
      && Heights(r.nodes) <= MAX_EMPHASIS_DEPTH - depth - 1
      && Subsequence(ShownAll(r.nodes), s[pos + k..close])
    decreases MAX_EMPHASIS_DEPTH - depth - 1, 4, 0
  {
    hide InlineFrom, Subsequence, Sizes, Heights, ShownAll;
    EmptyNodes();
    assert s[..close][pos + k..pos + k] == "";
    InlineSound(s[..close], pos + k, pos + k, tokens, depth + 1, overflow, [], "");
    var r := InnerOf(s, pos, k, close, tokens, depth, overflow);
    assert s[..close][pos + k..r.pos] == s[pos + k..r.pos];
    SubsequenceWiden(ShownAll(r.nodes), s, pos + k, r.pos, pos + k, close);
  }

  lemma ClosedAt(s: string, marker: char, k: nat, from: nat)
    requires k > 0 && from > 0 && EmphasisClose(s, marker, k, from) != -1
    ensures var close := EmphasisClose(s, marker, k, from);
      from <= close && close + k <= |s| && s[close..close + k] == Repeat(marker, k)
  {
    hide EmphasisClose;
    MatchSlice(s, marker, k, EmphasisClose(s, marker, k, from));
  }

  /** The number of markers an emphasis at `pos` opens with, and where it closes; -1 when none is read. */
  function MarkersAt(s: string, pos: nat, marker: char): nat
    requires pos <= |s|
  {
    if RunAt(s, marker, pos) >= 2 then 2 else 1
  }

  function ClosesAt(s: string, pos: nat, marker: char): int
    requires pos <= |s|
  {
    var k := MarkersAt(s, pos, marker);
    if pos + k >= |s| || s[pos + k] == ' ' then -1 else EmphasisClose(s, marker, k, pos + k)
  }

  /** The emphasis closes at `close`; what it holds is the parse of what is between the markers. */
  lemma EmphasisIs(s: string, pos: nat, marker: char, close: nat, tokens: nat, depth: nat, overflow: bool)
    requires pos < |s| && s[pos] == marker && depth < MAX_EMPHASIS_DEPTH && ClosesAt(s, pos, marker) == close
    ensures var k := MarkersAt(s, pos, marker);
      && pos + k <= close && close + k <= |s|
      && Marked(s[pos..close + k], marker, k, s[pos + k..close])
      && var inner := InnerOf(s, pos, k, close, tokens, depth, overflow);
         EmphasisAt(s, pos, marker, tokens, depth, overflow)
         == Taken(Some(if k == 2 then Strong(inner.nodes) else Emphasis(inner.nodes)), close + k, inner.tokens,
                  inner.overflow || overflow)
  {
    hide InlineFrom, EmphasisClose, Repeat, Marked, RunAt, MatchesAt;
    OpenMarker(s, pos, marker);
    var k := MarkersAt(s, pos, marker);
    ClosedAt(s, marker, k, pos + k);
    RunIsRepeat(s, marker, pos, k);
    MarkedSource(s, marker, pos, k, close);
  }

  lemma NoEmphasisIs(s: string, pos: nat, marker: char, tokens: nat, depth: nat, overflow: bool)
    requires pos < |s| && depth <= MAX_EMPHASIS_DEPTH
    requires depth < MAX_EMPHASIS_DEPTH ==> ClosesAt(s, pos, marker) == -1
    ensures EmphasisAt(s, pos, marker, tokens, depth, overflow)
            == Taken(None, pos, tokens, overflow || depth == MAX_EMPHASIS_DEPTH)
  {
    hide InlineFrom, EmphasisClose, Repeat, RunAt;
  }

  lemma CloseIsIndex(s: string, pos: nat, marker: char)
    requires pos <= |s|
    ensures ClosesAt(s, pos, marker) == -1 || ClosesAt(s, pos, marker) >= 0
  {
  }

  /** Strong or emphasis, when it is read, is parsed one level deeper and shows nothing but a part of its source. */
  lemma EmphasisSound(s: string, pos: nat, marker: char, tokens: nat, depth: nat, overflow: bool)
    requires pos < |s| && s[pos] == marker && depth <= MAX_EMPHASIS_DEPTH && tokens < MAX_TOKENS
    ensures Sound(s, pos, tokens, depth, overflow, EmphasisAt(s, pos, marker, tokens, depth, overflow))
    decreases MAX_EMPHASIS_DEPTH - depth, 0, 0
  {
    hide InlineFrom, Subsequence, Sizes, Heights, ShownAll, Marked, ClosesAt, MarkersAt, EmphasisAt;
    if depth == MAX_EMPHASIS_DEPTH || ClosesAt(s, pos, marker) == -1 {
      NoEmphasisIs(s, pos, marker, tokens, depth, overflow);
    } else {
      CloseIsIndex(s, pos, marker);
      var k, close: nat := MarkersAt(s, pos, marker), ClosesAt(s, pos, marker);
      EmphasisIs(s, pos, marker, close, tokens, depth, overflow);
      InnerSound(s, pos, k, close, tokens, depth, overflow);
      var r := InnerOf(s, pos, k, close, tokens, depth, overflow);
      SubsequenceWiden(ShownAll(r.nodes), s, pos + k, close, pos, close + k);
    }
  }

  /** It stands between two equal markers, and shows nothing but a part of what is between them. */
  lemma EmphasisIsMarked(s: string, pos: nat, marker: char, tokens: nat, depth: nat, overflow: bool)
    requires pos < |s| && s[pos] == marker && depth <= MAX_EMPHASIS_DEPTH && tokens < MAX_TOKENS
    ensures EmphasisStands(s, pos, marker, EmphasisAt(s, pos, marker, tokens, depth, overflow))
  {
    hide InlineFrom, Subsequence, Sizes, Heights, ShownAll, Marked, ClosesAt, EmphasisAt;
    if depth == MAX_EMPHASIS_DEPTH || ClosesAt(s, pos, marker) == -1 {
      NoEmphasisIs(s, pos, marker, tokens, depth, overflow);
    } else {
      CloseIsIndex(s, pos, marker);
      var k, close: nat := MarkersAt(s, pos, marker), ClosesAt(s, pos, marker);
      EmphasisIs(s, pos, marker, close, tokens, depth, overflow);
      InnerSound(s, pos, k, close, tokens, depth, overflow);
      var r := EmphasisAt(s, pos, marker, tokens, depth, overflow);
      assert MarkedAs(s[pos..r.pos], marker, r.token.value, s[pos + k..close]);
    }
  }

  /** The source of a strong is `inner` between two doubled markers, that of an emphasis between two single ones. */
  ghost predicate MarkedAs(source: string, marker: char, node: Node, inner: string) {
    && (node.Strong? || node.Emphasis?)
    && Marked(source, marker, if node.Strong? then 2 else 1, inner)
    && Subsequence(Shown(node), inner)
  }

  ghost predicate EmphasisStands(s: string, pos: nat, marker: char, r: Taken) {
    r.token.Some? ==>
      pos <= r.pos <= |s| && exists inner :: MarkedAs(s[pos..r.pos], marker, r.token.value, inner)
  }

  lemma OpenMarker(s: string, pos: nat, marker: char)
    requires pos < |s| && s[pos] == marker
    ensures RunAt(s, marker, pos) > 0
  {}

  lemma TokenSound(s: string, pos: nat, tokens: nat, depth: nat, overflow: bool)
    requires pos < |s| && depth <= MAX_EMPHASIS_DEPTH && tokens < MAX_TOKENS
    ensures Sound(s, pos, tokens, depth, overflow, TokenAt(s, pos, tokens, depth, overflow))
    decreases MAX_EMPHASIS_DEPTH - depth, 1, 0
  {
    hide CodeAt, LinkAt, AutolinkAt, EmphasisAt, Subsequence, Unescaped, Trim;
    if s[pos] == '`' {
      if CodeAt(s, pos).Some? {
        CodeShape(s, pos);
      }
    } else if s[pos] == '*' || s[pos] == '_' {
      EmphasisSound(s, pos, s[pos], tokens, depth, overflow);
    } else if s[pos] == '[' {
      LinkFoundExactly(s, pos);
      if LinkAt(s, pos).Some? {
        var t: nat, u: nat :| LinkOf(s, pos, t, u);
        LinkShape(s, pos, t, u);
      }
    } else if s[pos] == 'h' {
      if AutolinkAt(s, pos).Some? {
        AutolinkIsVerbatim(s, pos);
      }
    }
  }

  lemma EmptyNodes()
    ensures Sizes([]) == 0 && Heights([]) == 0 && ShownAll([]) == "" && Subsequence("", "") && Subsequence("" + "", "")
  {}

  /**
   The parse reads to the end unless it runs into the token limit; the counter is the number of nodes; nesting stays
   within what is left of the depth; and the nodes show a subsequence of what was read.
   */
  lemma {:induction false} InlineSound(s: string, start: nat, pos: nat, tokens: nat, depth: nat, overflow: bool,
                                       nodes: seq<Node>, buffer: string)
    requires start <= pos <= |s| && depth <= MAX_EMPHASIS_DEPTH
    requires tokens >= MAX_TOKENS ==> buffer == ""
    requires Heights(nodes) <= MAX_EMPHASIS_DEPTH - depth
    requires Subsequence(ShownAll(nodes) + buffer, s[start..pos])
    ensures SoundParse(s, start, tokens, depth, overflow, nodes, InlineFrom(s, pos, tokens, depth, overflow, nodes, buffer))
    decreases MAX_EMPHASIS_DEPTH - depth, 2, |s| - pos
  {
    hide Sizes, Heights, ShownAll, Subsequence, Emitted, Flushed, TokenAt;
    if pos == |s| || tokens >= MAX_TOKENS {
      FlushAdds(nodes, buffer);
    } else if s[pos] == '\\' && pos + 1 < |s| {
      TakeChar(ShownAll(nodes) + buffer, s, start, pos, pos + 1, pos + 2);
      assert ShownAll(nodes) + (buffer + [s[pos + 1]]) == ShownAll(nodes) + buffer + [s[pos + 1]];
      InlineSound(s, start, pos + 2, tokens, depth, overflow, nodes, buffer + [s[pos + 1]]);
    } else if s[pos] == '\n' {
      PushAdds(nodes, buffer, Break);
      TakeChar(ShownAll(nodes) + buffer, s, start, pos, pos, pos + 1);
      var nodes' := Emitted(Flushed(nodes, buffer), Break);
      assert ShownAll(nodes') + "" == ShownAll(nodes');
      InlineSound(s, start, pos + 1, Counted(tokens, nodes, nodes'), depth, overflow, nodes', "");
    } else {
      var t := TokenAt(s, pos, tokens, depth, overflow);
      TokenSound(s, pos, tokens, depth, overflow);
      if t.token.Some? {
        PushAdds(nodes, buffer, t.token.value);
        SubsequenceJoin(ShownAll(nodes) + buffer, Shown(t.token.value), s, start, pos, t.pos);
        var nodes' := Emitted(Flushed(nodes, buffer), t.token.value);
        assert ShownAll(nodes') + "" == ShownAll(nodes');
        InlineSound(s, start, t.pos, Counted(t.tokens, nodes, nodes'), depth, t.overflow, nodes', "");
      } else {
        TakeChar(ShownAll(nodes) + buffer, s, start, pos, pos, pos + 1);
        assert ShownAll(nodes) + (buffer + [s[pos]]) == ShownAll(nodes) + buffer + [s[pos]];
        InlineSound(s, start, pos + 1, tokens, depth, t.overflow, nodes, buffer + [s[pos]]);
      }
    }
  }
}
