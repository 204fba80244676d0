/**
 What the inline markdown parser reads at each position: the scans, the tokens they find, and the parse they add up
 to.  Each is determined by the source alone; the parser's methods are proved to compute them.
 */
module MarkdownScan {
  import opened Bytes
  import opened MarkdownTree

  const MAX_TOKENS := 500
  const MAX_EMPHASIS_DEPTH := 3

  // ---- scans ------------------------------------------------------------------------------------------------

  predicate MatchesAt(s: string, pattern: string, i: int) {
    0 <= i <= i + |pattern| <= |s| && s[i..i + |pattern|] == pattern
  }

  function Repeat(c: char, n: nat): string { seq(n, _ => c) }

  predicate IsSpace(c: char) {
    c in "\t\n\r \U{0b}\U{0c}\U{a0}\U{1680}\U{2028}\U{2029}\U{202f}\U{205f}\U{3000}\U{feff}" ||
    '\U{2000}' <= c <= '\U{200a}'
  }

  function TrimEnd(s: string): string {
    if s != "" && IsSpace(s[|s| - 1]) then TrimEnd(s[..|s| - 1]) else s
  }

  function TrimStart(s: string): string {
    if s != "" && IsSpace(s[0]) then TrimStart(s[1..]) else s
  }

  function Trim(s: string): string { TrimEnd(TrimStart(s)) }

  predicate AlphaNumeric(c: char) {
    'a' <= c <= 'z' || 'A' <= c <= 'Z' || '0' <= c <= '9'
  }

  /** `indexOf`: the first place at or after `from` where `pattern` occurs, or -1. */
  function FirstMatch(s: string, pattern: string, from: nat): (r: int)
    ensures r == -1 || (from <= r && MatchesAt(s, pattern, r))
    ensures forall k: nat | from <= k && (r == -1 || k < r) :: !MatchesAt(s, pattern, k)
    decreases |s| - from
  {
    if from + |pattern| > |s| then -1
    else if s[from..from + |pattern|] == pattern then from
    else FirstMatch(s, pattern, from + 1)
  }

  /** The length of the run of `c` that starts at `from`. */
  function RunAt(s: string, c: char, from: nat): (n: nat)
    requires from <= |s|
    ensures from + n <= |s|
    ensures forall k | from <= k < from + n :: s[k] == c
    ensures from + n < |s| ==> s[from + n] != c
    decreases |s| - from
  {
    if from < |s| && s[from] == c then 1 + RunAt(s, c, from + 1) else 0
  }

  lemma RepeatLength(c: char, n: nat)
    ensures |Repeat(c, n)| == n
  {}

  lemma RunIsRepeat(s: string, c: char, from: nat, n: nat)
    requires from <= |s| && n <= RunAt(s, c, from)
    ensures s[from..from + n] == Repeat(c, n)
  {}

  /** The first `target` at or after `i` that the scan, which skips whatever a backslash precedes, comes to; or -1. */
  function Unescaped(s: string, i: nat, target: char): (r: int)
    ensures r == -1 || (i <= r < |s| && s[r] == target)
    decreases |s| - i
  {
    if i >= |s| then -1
    else if s[i] == '\\' then Unescaped(s, i + 2, target)
    else if s[i] == target then i
    else Unescaped(s, i + 1, target)
  }

  /** The backslashes directly before `k`, not counting any before `start`. */
  function Slashes(s: string, start: nat, k: nat): nat
    requires start <= k <= |s|
    decreases k - start
  {
    if start < k && s[k - 1] == '\\' then 1 + Slashes(s, start, k - 1) else 0
  }

  /** A character is escaped by an odd number of backslashes before it. */
  predicate Escaped(s: string, start: nat, k: nat)
    requires start <= k <= |s|
  {
    Slashes(s, start, k) % 2 == 1
  }

  /** The scan finds the first `target` that is not escaped, and finds none only if there is none. */
  lemma {:induction false} UnescapedIsFirst(s: string, start: nat, i: nat, target: char)
    requires start <= i && target != '\\' && (i <= |s| ==> !Escaped(s, start, i))
    ensures var r := Unescaped(s, i, target);
      && (r != -1 ==> !Escaped(s, start, r))
      && forall k | i <= k < |s| && (r == -1 || k < r) && s[k] == target :: Escaped(s, start, k)
    decreases |s| - i
  {
    if i < |s| {
      if s[i] == '\\' {
        assert Slashes(s, start, i + 1) == 1 + Slashes(s, start, i);
        if i + 1 < |s| {
          assert Slashes(s, start, i + 2) == if s[i + 1] == '\\' then 1 + Slashes(s, start, i + 1) else 0;
        }
        UnescapedIsFirst(s, start, i + 2, target);
      } else if s[i] != target {
        assert Slashes(s, start, i + 1) == 0;
        UnescapedIsFirst(s, start, i + 1, target);
      }
    }
  }

  // ---- code spans -------------------------------------------------------------------------------------------

  /** Where a span opened by `ticks` backticks closes, looking from `from` on; or -1. */
  function CodeClose(s: string, from: nat, ticks: nat): (r: int)
    requires ticks > 0
    ensures r == -1 || (from <= r && MatchesAt(s, Repeat('`', ticks), r))
    decreases |s| - from
  {
    if from >= |s| then -1
    else
      var idx := FirstMatch(s, Repeat('`', ticks), from);
      if idx == -1 then -1
      else if RunAt(s, '`', idx) == ticks then idx
      else
        assert s[idx] == s[idx..idx + ticks][0];
        CodeClose(s, idx + RunAt(s, '`', idx), ticks)
  }

  /** A run of exactly `n` backticks, not part of a longer one, starts at `k`. */
  predicate ExactRun(s: string, k: nat, n: nat)
    requires k <= |s|
  {
    RunAt(s, '`', k) == n && (k == 0 || s[k - 1] != '`')
  }

  /** No run of exactly `n` backticks starts between `from` and `to`. */
  ghost predicate NoRun(s: string, from: nat, to: nat, n: nat)
  {
    forall k | from <= k < to && k < |s| :: !ExactRun(s, k, n)
  }

  /** `k` is not in the middle of a run of backticks. */
  predicate AtEdge(s: string, k: nat) {
    k == 0 || k >= |s| || s[k - 1] != '`' || s[k] != '`'
  }

  lemma {:induction false} LongRunMatches(s: string, k: nat, n: nat)
    requires k <= |s| && n <= RunAt(s, '`', k)
    ensures MatchesAt(s, Repeat('`', n), k)
  {
    RunIsRepeat(s, '`', k, n);
  }

  lemma {:induction false} MatchIsRun(s: string, k: nat, n: nat)
    requires MatchesAt(s, Repeat('`', n), k)
    ensures RunAt(s, '`', k) >= n
    decreases n
  {
    if n > 0 {
      assert s[k] == s[k..k + n][0];
      assert s[k + 1..k + n] == s[k..k + n][1..] == Repeat('`', n - 1);
      MatchIsRun(s, k + 1, n - 1);
    }
  }

  /** The first match of a run of backticks starts a run, and no such run starts before it. */
  lemma FirstMatchAtEdge(s: string, from: nat, ticks: nat)
    requires ticks > 0 && AtEdge(s, from) && from < |s|
    ensures var idx := FirstMatch(s, Repeat('`', ticks), from);
      && (idx != -1 ==> RunAt(s, '`', idx) >= ticks && (idx == 0 || s[idx - 1] != '`'))
      && NoRun(s, from, if idx == -1 then |s| else idx, ticks)
  {
    hide FirstMatch;
    var idx := FirstMatch(s, Repeat('`', ticks), from);
    forall k | from <= k < |s| && (idx == -1 || k < idx)
      ensures !ExactRun(s, k, ticks)
    {
      if RunAt(s, '`', k) == ticks {
        LongRunMatches(s, k, ticks);
      }
    }
    if idx != -1 {
      MatchIsRun(s, idx, ticks);
      if idx > from && s[idx - 1] == '`' {
        LongRunMatches(s, idx - 1, ticks);
      }
    }
  }

  /** Inside a run no other starts, and behind it is an edge. */
  lemma PastRun(s: string, idx: nat, n: nat, ticks: nat)
    requires idx < |s| && n == RunAt(s, '`', idx) > 0 && (idx == 0 || s[idx - 1] != '`')
    ensures n != ticks ==> NoRun(s, idx, idx + n, ticks)
    ensures n == ticks ==> ExactRun(s, idx, ticks)
    ensures AtEdge(s, idx + n)
  {}

  lemma NoRunJoin(s: string, a: nat, b: nat, c: nat, n: nat)
    requires NoRun(s, a, b, n) && NoRun(s, b, c, n)
    ensures NoRun(s, a, c, n)
  {}

  lemma CodeCloseUnfolds(s: string, from: nat, ticks: nat)
    requires ticks > 0
    ensures CodeClose(s, from, ticks) ==
      if from >= |s| then -1
      else
        var idx := FirstMatch(s, Repeat('`', ticks), from);
        if idx == -1 || RunAt(s, '`', idx) == ticks then idx else CodeClose(s, idx + RunAt(s, '`', idx), ticks)
  {
    hide FirstMatch, RunAt;
  }

  /** A code span closes at the first run of exactly as many backticks, and at none only if there is none. */
  lemma {:induction false} CodeCloseIsFirst(s: string, from: nat, ticks: nat)
    requires ticks > 0 && AtEdge(s, from)
    ensures var r := CodeClose(s, from, ticks);
      && (r != -1 ==> r < |s| && ExactRun(s, r, ticks))
      && NoRun(s, from, if r == -1 then |s| else r, ticks)
    decreases |s| - from
  {
    hide FirstMatch, Repeat, RunAt, NoRun, ExactRun, AtEdge, CodeClose;
    CodeCloseUnfolds(s, from, ticks);
    if from < |s| {
      FirstMatchAtEdge(s, from, ticks);
      var idx := FirstMatch(s, Repeat('`', ticks), from);
      if idx != -1 {
        var n := RunAt(s, '`', idx);
        PastRun(s, idx, n, ticks);
        if n != ticks {
          CodeCloseIsFirst(s, idx + n, ticks);
          var r := CodeClose(s, idx + n, ticks);
          NoRunJoin(s, from, idx, idx + n, ticks);
          NoRunJoin(s, from, idx + n, if r == -1 then |s| else r, ticks);
        }
      }
    } else {
      NothingPastTheEnd(s, from, ticks);
    }
  }

  lemma NothingPastTheEnd(s: string, from: nat, n: nat)
    requires from >= |s|
    ensures NoRun(s, from, |s|, n)
  {}

  // ---- tokens -----------------------------------------------------------------------------------------------

  /** A node and where reading it ended. */
  datatype Read = Read(node: Node, end: nat)

  function CodeAt(s: string, pos: nat): (r: Option<Read>)
    requires pos < |s| && s[pos] == '`'
    ensures r.Some? ==> pos < r.value.end <= |s|
  {
    var ticks := RunAt(s, '`', pos);
    var close := CodeClose(s, pos + ticks, ticks);
    if close == -1 then None else Some(Read(Code(s[pos + ticks..close]), close + ticks))
  }

  function LinkAt(s: string, pos: nat): (r: Option<Read>)
    requires pos < |s|
    ensures r.Some? ==> pos < r.value.end <= |s|
  {
    var textEnd := Unescaped(s, pos + 1, ']');
    if textEnd == -1 || textEnd + 1 >= |s| || s[textEnd + 1] != '(' then None
    else
      var urlEnd := Unescaped(s, textEnd + 2, ')');
      if urlEnd == -1 then None
      else
        var text, url := s[pos + 1..textEnd], Trim(s[textEnd + 2..urlEnd]);
        if text == "" || url == "" then None else Some(Read(Link(url, text), urlEnd + 1))
  }

  /** The first character at or after `from` that ends a bare link. */
  function AutolinkEnd(s: string, from: nat): (r: nat)
    requires from <= |s|
    ensures from <= r <= |s|
    decreases |s| - from
  {
    if from == |s| || s[from] in " \t\n<>" then from else AutolinkEnd(s, from + 1)
  }

  /** `end` without the punctuation before it. */
  function AutolinkTrim(s: string, floor: nat, end: nat): (r: nat)
    requires floor <= end <= |s|
    ensures floor <= r <= end
    decreases end
  {
    if end > floor && s[end - 1] in ".,;:!?)" then AutolinkTrim(s, floor, end - 1) else end
  }

  function AutolinkAt(s: string, pos: nat): (r: Option<Read>)
    requires pos < |s|
    ensures r.Some? ==> pos < r.value.end <= |s|
  {
    var prefix := if MatchesAt(s, "http://", pos) then 7 else if MatchesAt(s, "https://", pos) then 8 else 0;
    if prefix == 0 || (pos > 0 && AlphaNumeric(s[pos - 1])) then None
    else
      var end := AutolinkTrim(s, pos + prefix, AutolinkEnd(s, pos + prefix));
      if end <= pos + prefix then None else Some(Read(Link(s[pos..end], s[pos..end]), end))
  }

  /** Where emphasis with `k` markers closes: the first closer found that no space or line break precedes; or -1. */
  function EmphasisClose(s: string, marker: char, k: nat, from: nat): (r: int)
    requires k > 0 && from > 0
    ensures r == -1 || (from <= r && MatchesAt(s, Repeat(marker, k), r) && r + k <= |s|)
    decreases |s| - from
  {
    if from >= |s| then -1
    else
      var idx := FirstMatch(s, Repeat(marker, k), from);
      if idx == -1 then -1
      else if s[idx - 1] != ' ' && s[idx - 1] != '\n' then idx
      else EmphasisClose(s, marker, k, idx + k)
  }

  lemma EmphasisCloseUnfolds(s: string, marker: char, k: nat, from: nat)
    requires k > 0 && from > 0
    ensures EmphasisClose(s, marker, k, from) ==
      if from >= |s| then -1
      else
        var idx := FirstMatch(s, Repeat(marker, k), from);
        if idx == -1 || (s[idx - 1] != ' ' && s[idx - 1] != '\n') then idx else EmphasisClose(s, marker, k, idx + k)
  {
    hide FirstMatch;
  }

  // ---- parses -----------------------------------------------------------------------------------------------

  /** `emit`: a text node after a text node is merged into it; anything else is pushed. */
  function Emitted(sink: seq<Node>, node: Node): seq<Node> {
    if node.Text? && sink != [] && sink[|sink| - 1].Text?
    then sink[..|sink| - 1] + [Text(sink[|sink| - 1].value + node.value)]
    else sink + [node]
  }

  function Flushed(nodes: seq<Node>, buffer: string): seq<Node> {
    if buffer == "" then nodes else Emitted(nodes, Text(buffer))
  }

  /** The counter after `nodes` has become `nodes'` by emitting. */
  function Counted(tokens: nat, nodes: seq<Node>, nodes': seq<Node>): nat {
    if |nodes| <= |nodes'| then tokens + (|nodes'| - |nodes|) else tokens
  }

  /** A token, if one was read, and the cursor after it. */
  datatype Taken = Taken(token: Option<Node>, pos: nat, tokens: nat, overflow: bool)

  /** Nodes, and the cursor after them. */
  datatype Parse = Parse(nodes: seq<Node>, pos: nat, tokens: nat, overflow: bool)

  function Plain(r: Option<Read>, pos: nat, tokens: nat, overflow: bool): Taken {
    if r.None? then Taken(None, pos, tokens, overflow) else Taken(Some(r.value.node), r.value.end, tokens, overflow)
  }

  function EmphasisAt(s: string, pos: nat, marker: char, tokens: nat, depth: nat, overflow: bool): (r: Taken)
    requires pos < |s| && depth <= MAX_EMPHASIS_DEPTH
    ensures if r.token.Some? then pos < r.pos <= |s| else r.pos == pos && r.tokens == tokens
    decreases MAX_EMPHASIS_DEPTH - depth, 0, 0
  {
    if depth >= MAX_EMPHASIS_DEPTH then Taken(None, pos, tokens, true)
    else
      var k := if RunAt(s, marker, pos) >= 2 then 2 else 1;
      var close := if pos + k >= |s| || s[pos + k] == ' ' then -1 else EmphasisClose(s, marker, k, pos + k);
      if close == -1 then Taken(None, pos, tokens, overflow)
      else
        var inner := InlineFrom(s[..close], pos + k, tokens, depth + 1, overflow, [], "");
        Taken(Some(if k == 2 then Strong(inner.nodes) else Emphasis(inner.nodes)), close + k, inner.tokens,
              inner.overflow || overflow)
  }

  function TokenAt(s: string, pos: nat, tokens: nat, depth: nat, overflow: bool): (r: Taken)
    requires pos < |s| && depth <= MAX_EMPHASIS_DEPTH
    ensures if r.token.Some? then pos < r.pos <= |s| else r.pos == pos && r.tokens == tokens
    decreases MAX_EMPHASIS_DEPTH - depth, 1, 0
  {
    if s[pos] == '`' then Plain(CodeAt(s, pos), pos, tokens, overflow)
    else if s[pos] == '*' || s[pos] == '_' then EmphasisAt(s, pos, s[pos], tokens, depth, overflow)
    else if s[pos] == '[' then Plain(LinkAt(s, pos), pos, tokens, overflow)
    else if s[pos] == 'h' then Plain(AutolinkAt(s, pos), pos, tokens, overflow)
    else Taken(None, pos, tokens, overflow)
  }

  /** The parse that goes on from `pos` with the nodes and the buffered text so far. */
  function InlineFrom(s: string, pos: nat, tokens: nat, depth: nat, overflow: bool, nodes: seq<Node>, buffer: string)
    : (r: Parse)
    requires pos <= |s| && depth <= MAX_EMPHASIS_DEPTH
    decreases MAX_EMPHASIS_DEPTH - depth, 2, |s| - pos
  {
    if pos == |s| || tokens >= MAX_TOKENS then
      var flushed := Flushed(nodes, buffer);
      Parse(flushed, pos, Counted(tokens, nodes, flushed), overflow || pos < |s|)
    else if s[pos] == '\\' && pos + 1 < |s| then
      InlineFrom(s, pos + 2, tokens, depth, overflow, nodes, buffer + [s[pos + 1]])
    else if s[pos] == '\n' then
      var nodes' := Emitted(Flushed(nodes, buffer), Break);
      InlineFrom(s, pos + 1, Counted(tokens, nodes, nodes'), depth, overflow, nodes', "")
    else
      var t := TokenAt(s, pos, tokens, depth, overflow);
      if t.token.Some? then
        var nodes' := Emitted(Flushed(nodes, buffer), t.token.value);
        InlineFrom(s, t.pos, Counted(t.tokens, nodes, nodes'), depth, t.overflow, nodes', "")
      else InlineFrom(s, pos + 1, tokens, depth, t.overflow, nodes, buffer + [s[pos]])
  }
}
