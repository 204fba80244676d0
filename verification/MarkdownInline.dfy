/**
 The inline markdown parser as it runs: a cursor over a source string, and a recursive descent that pushes nodes.
 Every method ends and computes what `MarkdownScan` says is read at the cursor.
 */
module MarkdownInline {
  import opened Bytes
  import opened MarkdownTree
  import opened MarkdownScan

  /** The first place at or after `from` where `pattern` occurs, or -1. */
  method IndexOf(s: string, pattern: string, from: nat) returns (r: int)
    ensures r == FirstMatch(s, pattern, from)
  {
    var i := from;
    while i + |pattern| <= |s|
      invariant from <= i && FirstMatch(s, pattern, from) == FirstMatch(s, pattern, i)
    {
      if s[i..i + |pattern|] == pattern {
        return i;
      }
      i := i + 1;
    }
    return -1;
  }

  method RunLength(s: string, c: char, from: nat) returns (n: nat)
    requires from <= |s|
    ensures n == RunAt(s, c, from)
  {
    n := 0;
    while from + n < |s| && s[from + n] == c
      invariant from + n <= |s| && RunAt(s, c, from) == n + RunAt(s, c, from + n)
    {
      n := n + 1;
    }
  }

  /** The first unescaped `target` at or after `start`, or -1. */
  method FindUnescaped(s: string, start: nat, target: char) returns (r: int)
    ensures r == Unescaped(s, start, target)
  {
    var i := start;
    while i < |s|
      invariant start <= i && Unescaped(s, start, target) == Unescaped(s, i, target)
      decreases |s| - i
    {
      if s[i] == '\\' {
        i := i + 2;
        continue;
      }
      if s[i] == target {
        return i;
      }
      i := i + 1;
    }
    return -1;
  }

  method ScanAutolinkEnd(s: string, from: nat) returns (end: nat)
    requires from <= |s|
    ensures end == AutolinkEnd(s, from)
  {
    end := from;
    while end < |s| && s[end] !in " \t\n<>"
      invariant from <= end <= |s| && AutolinkEnd(s, from) == AutolinkEnd(s, end)
    {
      end := end + 1;
    }
  }

  method TrimAutolinkTail(s: string, floor: nat, end: nat) returns (r: nat)
    requires floor <= end <= |s|
    ensures r == AutolinkTrim(s, floor, end)
  {
    r := end;
    while r > floor && s[r - 1] in ".,;:!?)"
      invariant floor <= r <= end && AutolinkTrim(s, floor, end) == AutolinkTrim(s, floor, r)
    {
      r := r - 1;
    }
  }

  /** The search for the closer of an emphasis. */
  method FindCloser(s: string, marker: char, k: nat, from: nat) returns (r: int)
    requires k > 0 && from > 0
    ensures r == EmphasisClose(s, marker, k, from)
  {
    hide FirstMatch, Repeat;
    var search := from;
    while search < |s|
      invariant from <= search && EmphasisClose(s, marker, k, from) == EmphasisClose(s, marker, k, search)
      decreases |s| - search
    {
      hide EmphasisClose;
      EmphasisCloseUnfolds(s, marker, k, search);
      var idx := IndexOf(s, Repeat(marker, k), search);
      if idx == -1 {
        return -1;
      }
      RepeatLength(marker, k);
      if s[idx - 1] != ' ' && s[idx - 1] != '\n' {
        return idx;
      }
      search := idx + k;
    }
    return -1;
  }

  // ---- the cursor ---------------------------------------------------------------------------------------------

  class Cursor {
    const source: string
    var pos: nat
    var tokens: nat
    var depth: nat
    var overflow: bool

    ghost predicate Valid()
      reads this
    {
      pos <= |source| && depth <= MAX_EMPHASIS_DEPTH
    }

    constructor (source: string, pos: nat, tokens: nat, depth: nat, overflow: bool)
      ensures this.source == source && this.pos == pos && this.tokens == tokens
      ensures this.depth == depth && this.overflow == overflow
    {
      this.source := source;
      this.pos, this.tokens, this.depth, this.overflow := pos, tokens, depth, overflow;
    }

    method Emit(node: Node, sink: seq<Node>) returns (r: seq<Node>)
      modifies `tokens
      ensures r == Emitted(sink, node)
      ensures tokens == Counted(old(tokens), sink, r)
    {
      if node.Text? && |sink| > 0 && sink[|sink| - 1].Text? {
        r := sink[..|sink| - 1] + [Text(sink[|sink| - 1].value + node.value)];
        return r;
      }
      r := sink + [node];
      tokens := tokens + 1;
    }

    method FlushBuffer(buffer: string, sink: seq<Node>) returns (r: seq<Node>)
      modifies `tokens
      ensures r == Flushed(sink, buffer)
      ensures tokens == Counted(old(tokens), sink, r)
    {
      if buffer == "" {
        return sink;
      }
      r := Emit(Text(buffer), sink);
    }

    /** Flush the buffer, then push a token. */
    method PushToken(nodes: seq<Node>, buffer: string, node: Node) returns (r: seq<Node>)
      modifies `tokens
      ensures r == Emitted(Flushed(nodes, buffer), node)
      ensures tokens == Counted(old(tokens), nodes, r)
    {
      var flushed := FlushBuffer(buffer, nodes);
      r := Emit(node, flushed);
    }

    /** The token and the cursor are what was read, or nothing was. */
    ghost predicate Took(token: Option<Node>, r: Option<Read>, was: nat)
      reads this
    {
      match r
      case None => token == None && pos == was
      case Some(Read(node, end)) => token == Some(node) && pos == end
    }

    method TryConsumeCode() returns (token: Option<Node>)
      requires Valid() && pos < |source| && source[pos] == '`'
      modifies `pos
      ensures Took(token, CodeAt(source, old(pos)), old(pos))
    {
      hide FirstMatch, Repeat;
      var start := pos;
      var openTicks := RunLength(source, '`', start);
      var contentStart := start + openTicks;
      var searchFrom := contentStart;
      while searchFrom < |source|
        invariant contentStart <= searchFrom && pos == start
        invariant CodeClose(source, contentStart, openTicks) == CodeClose(source, searchFrom, openTicks)
        decreases |source| - searchFrom
      {
        hide CodeClose;
        CodeCloseUnfolds(source, searchFrom, openTicks);
        var closeIdx := IndexOf(source, Repeat('`', openTicks), searchFrom);
        if closeIdx == -1 {
          return None;
        }
        MatchIsRun(source, closeIdx, openTicks);
        var closeTicks := RunLength(source, '`', closeIdx);
        if closeTicks == openTicks {
          pos := closeIdx + openTicks;
          return Some(Code(source[contentStart..closeIdx]));
        }
        searchFrom := closeIdx + closeTicks;
      }
      return None;
    }

    method TryConsumeAutolink() returns (token: Option<Node>)
      requires Valid() && pos < |source|
      modifies `pos
      ensures Took(token, AutolinkAt(source, old(pos)), old(pos))
    {
      var prefix := 0;
      if MatchesAt(source, "http://", pos) {
        prefix := 7;
      } else if MatchesAt(source, "https://", pos) {
        prefix := 8;
      } else {
        return None;
      }
      if pos > 0 && AlphaNumeric(source[pos - 1]) {
        return None;
      }
      var startBody := pos + prefix;
      var end := ScanAutolinkEnd(source, startBody);
      end := TrimAutolinkTail(source, startBody, end);
      if end <= startBody {
        return None;
      }
      var url := source[pos..end];
      pos := end;
      return Some(Link(url, url));
    }

    method TryConsumeLink() returns (token: Option<Node>)
      requires Valid() && pos < |source| && source[pos] == '['
      modifies `pos
      ensures Took(token, LinkAt(source, old(pos)), old(pos))
    {
      hide Unescaped, Trim;
      var start := pos;
      var textEnd := FindUnescaped(source, start + 1, ']');
      if textEnd == -1 || textEnd + 1 >= |source| || source[textEnd + 1] != '(' {
        return None;
      }
      var urlEnd := FindUnescaped(source, textEnd + 2, ')');
      if urlEnd == -1 {
        return None;
      }
      var text := source[start + 1..textEnd];
      var url := Trim(source[textEnd + 2..urlEnd]);
      if text == "" || url == "" {
        return None;
      }
      pos := urlEnd + 1;
      return Some(Link(url, text));
    }

    method TryConsumeEmphasis(marker: char) returns (token: Option<Node>)
      requires Valid() && pos < |source| && source[pos] == marker
      modifies this
      ensures depth == old(depth)
      ensures Taken(token, pos, tokens, overflow) ==
        EmphasisAt(source, old(pos), marker, old(tokens), depth, old(overflow))
      decreases MAX_EMPHASIS_DEPTH - depth, 0
    {
      hide EmphasisClose, RunAt, InlineFrom;
      if depth >= MAX_EMPHASIS_DEPTH {
        overflow := true;
        return None;
      }
      var start := pos;
      var runLength := RunLength(source, marker, start);
      var openLength := if runLength >= 2 then 2 else 1;
      var innerStart := start + openLength;
      if innerStart >= |source| || source[innerStart] == ' ' {
        return None;
      }
      var idx := FindCloser(source, marker, openLength, innerStart);
      if idx == -1 {
        return None;
      }
      token := ConsumeInner(innerStart, idx, openLength);
    }

    /** The inner part, parsed one level deeper on its own cursor. */
    method ConsumeInner(innerStart: nat, idx: nat, openLength: nat) returns (token: Option<Node>)
      requires Valid() && depth < MAX_EMPHASIS_DEPTH && 1 <= openLength <= 2
      requires innerStart <= idx && idx + openLength <= |source|
      modifies this
      ensures depth == old(depth)
      ensures var p := InlineFrom(source[..idx], innerStart, old(tokens), depth + 1, old(overflow), [], "");
        Taken(token, pos, tokens, overflow) ==
          Taken(Some(if openLength == 2 then Strong(p.nodes) else Emphasis(p.nodes)), idx + openLength, p.tokens,
                p.overflow || old(overflow))
      decreases MAX_EMPHASIS_DEPTH - depth - 1, 4
    {
      hide InlineFrom;
      pos := innerStart;
      depth := depth + 1;
      var inner := new Cursor(source[..idx], innerStart, tokens, depth, overflow);
      var children := inner.ParseInline();
      tokens := inner.tokens;
      overflow := inner.overflow || overflow;
      depth := depth - 1;
      pos := idx + openLength;
      token := Some(if openLength == 2 then Strong(children) else Emphasis(children));
    }

    method TryConsumeToken() returns (token: Option<Node>)
      requires Valid() && pos < |source|
      modifies this
      ensures depth == old(depth)
      ensures Taken(token, pos, tokens, overflow) == TokenAt(source, old(pos), old(tokens), depth, old(overflow))
      decreases MAX_EMPHASIS_DEPTH - depth, 1
    {
      hide CodeAt, LinkAt, AutolinkAt, EmphasisAt;
      var ch := source[pos];
      if ch == '`' {
        token := TryConsumeCode();
      } else if ch == '*' || ch == '_' {
        token := TryConsumeEmphasis(ch);
      } else if ch == '[' {
        token := TryConsumeLink();
      } else if ch == 'h' {
        token := TryConsumeAutolink();
      } else {
        token := None;
      }
    }

    /** The parser's loop. */
    method ParseInline() returns (nodes: seq<Node>)
      requires Valid()
      modifies this
      ensures Valid() && depth == old(depth)
      ensures Parse(nodes, pos, tokens, overflow) ==
        InlineFrom(source, old(pos), old(tokens), depth, old(overflow), [], "")
      decreases MAX_EMPHASIS_DEPTH - depth, 2
    {
      hide TokenAt, Emitted, Flushed;
      nodes := [];
      var buffer := "";
      ghost var goal := InlineFrom(source, pos, tokens, depth, overflow, [], "");
      while pos < |source|
        invariant Valid() && depth == old(depth)
        invariant goal == InlineFrom(source, pos, tokens, depth, overflow, nodes, buffer)
        decreases |source| - pos
      {
        if tokens >= MAX_TOKENS {
          overflow := true;
          break;
        }
        var ch := source[pos];
        if ch == '\\' && pos + 1 < |source| {
          buffer := buffer + [source[pos + 1]];
          pos := pos + 2;
          continue;
        }
        if ch == '\n' {
          nodes := PushToken(nodes, buffer, Break);
          buffer := "";
          pos := pos + 1;
          continue;
        }
        var token := TryConsumeToken();
        if token.Some? {
          nodes := PushToken(nodes, buffer, token.value);
          buffer := "";
          continue;
        }
        buffer := buffer + [ch];
        pos := pos + 1;
      }
      nodes := FlushBuffer(buffer, nodes);
    }
  }
}
