/**
 Whole messages: the tree of a message is the code blocks and the readings of its segments, one after another, up to
 the token limit, and a message without markup is the one text it is.
 */
module MarkdownMessage {
  import opened Bytes
  import opened MarkdownTree
  import opened MarkdownScan
  import opened MarkdownSafety
  import opened MarkdownPieces
  import opened MarkdownReading
  import opened Markdown

  function Flat(parts: seq<seq<Node>>): seq<Node> {
    if parts == [] then [] else Flat(parts[..|parts| - 1]) + parts[|parts| - 1]
  }

  /** What a segment is shown as, and whether that is flagged, with `had` tokens counted before it. */
  ghost predicate ShownAs(segment: Segment, rewrite: string -> string, had: nat, part: seq<Node>, flag: bool) {
    match segment
    case Fenced(code) => part == [CodeBlock(code)] && !flag
    case Inline(text) => exists ps :: InlineShownAs(rewrite(text), had, ps, part, flag)
  }

  ghost predicate InlineShownAs(s: string, had: nat, ps: seq<Piece>, part: seq<Node>, flag: bool) {
    && Reading(s, 0, ps, 0, had) && part == NodesOf(ps)
    && (flag <==> Flagged(ps, 0) || |Sources(ps)| < |s|)
  }

  /** The first `|parts|` segments are shown as `parts`, each begun below the token limit. */
  ghost predicate Shows(segments: seq<Segment>, rewrite: string -> string, parts: seq<seq<Node>>, flag: bool) {
    if parts == [] then !flag
    else
      var n := |parts| - 1;
      var had := Sizes(Flat(parts[..n]));
      && n < |segments| && had < MAX_TOKENS
      && exists before, now ::
           && (flag <==> before || now)
           && Shows(segments, rewrite, parts[..n], before)
           && ShownAs(segments[n], rewrite, had, parts[n], now)
  }

  /** All segments are shown, or those up to the token limit and then the tree is flagged. */
  ghost predicate MessageShows(segments: seq<Segment>, rewrite: string -> string, parts: seq<seq<Node>>, flag: bool) {
    exists cut :: Shows(segments, rewrite, parts, cut) && if |parts| == |segments| then flag == cut
      else flag && Sizes(Flat(parts)) >= MAX_TOKENS
  }

  lemma FlatPush(parts: seq<seq<Node>>, part: seq<Node>)
    ensures Flat(parts + [part]) == Flat(parts) + part
  {
    assert (parts + [part])[..|parts|] == parts;
  }

  lemma ShowsPush(segments: seq<Segment>, rewrite: string -> string, parts: seq<seq<Node>>, before: bool,
                  part: seq<Node>, now: bool)
    requires Shows(segments, rewrite, parts, before) && |parts| < |segments| && Sizes(Flat(parts)) < MAX_TOKENS
    requires ShownAs(segments[|parts|], rewrite, Sizes(Flat(parts)), part, now)
    ensures Shows(segments, rewrite, parts + [part], before || now)
  {
    hide ShownAs, Flat, Sizes;
    var all, n := parts + [part], |parts|;
    assert all[..n] == parts && all[n] == part;
    assert (before || now <==> before || now) && Shows(segments, rewrite, all[..n], before)
      && ShownAs(segments[n], rewrite, Sizes(Flat(all[..n])), all[n], now);
  }

  lemma InlineIsShown(s: string, had: nat, overflow: bool) returns (now: bool)
    requires had < MAX_TOKENS
    ensures var p := InlineFrom(s, 0, had, 0, overflow, [], "");
      && p.tokens == had + Sizes(p.nodes)
      && (p.overflow <==> overflow || now)
      && exists ps :: InlineShownAs(s, had, ps, p.nodes, now)
  {
    hide InlineFrom, Reading, NodesOf, Sources, Flagged, Sizes, Heights, ShownAll, Subsequence;
    WholeInlineSound(s, had, overflow);
    ParseIsReading(s, 0, had, 0, overflow);
    var p := InlineFrom(s, 0, had, 0, overflow, [], "");
    var ps :| Reading(s, 0, ps, 0, had) && ReadsAs(s, 0, ps, 0, overflow, p);
    now := Flagged(ps, 0) || |Sources(ps)| < |s|;
    assert |s[0..p.pos]| == p.pos;
    assert InlineShownAs(s, had, ps, p.nodes, now);
  }

  lemma {:induction false} ShowsOn(segments: seq<Segment>, rewrite: string -> string, parts: seq<seq<Node>>, flag: bool)
    returns (all: seq<seq<Node>>)
    requires |parts| <= |segments| && Shows(segments, rewrite, parts, flag)
    ensures var r := ParseFrom(segments[|parts|..], rewrite, Flat(parts), Sizes(Flat(parts)), flag);
      |all| <= |segments| && r.0 == Flat(all) && MessageShows(segments, rewrite, all, r.1)
    decreases |segments| - |parts|
  {
    hide InlineFrom, Flat, Sizes, InlineShownAs, Shows;
    var n, nodes := |parts|, Flat(parts);
    if n == |segments| || Sizes(nodes) >= MAX_TOKENS {
      all := parts;
    } else {
      assert segments[n..][1..] == segments[n + 1..];
      var part, now;
      if segments[n].Fenced? {
        part, now := [CodeBlock(segments[n].value)], false;
        CodeCosts(segments[n].value);
      } else {
        var s := rewrite(segments[n].value);
        now := InlineIsShown(s, Sizes(nodes), flag);
        part := InlineFrom(s, 0, Sizes(nodes), 0, flag, [], "").nodes;
      }
      FlatPush(parts, part);
      PushAll(nodes, part);
      ShowsPush(segments, rewrite, parts, flag, part, now);
      all := ShowsOn(segments, rewrite, parts + [part], flag || now);
    }
  }

  lemma CodeCosts(code: string)
    ensures Sizes([CodeBlock(code)]) == 1
  {
    assert [CodeBlock(code)] == [] + [CodeBlock(code)];
  }

  /**
   Every message's tree is the code blocks and the readings of its segments in order. It leaves out segments only behind
   the token limit, and the fallback flag is set exactly when something is left out, a span is cut short or a marker
   stands where spans may nest no deeper.
   */
  lemma EveryMessageIsItsReadings(source: string, rewrite: string -> string)
    ensures var ast, segments := Parsed(source, rewrite), Segments(Lines(source), []);
      exists parts :: |parts| <= |segments| && ast.nodes == Flat(parts) && MessageShows(segments, rewrite, parts, ast.bombFallback)
  {
    hide Segments, Lines, InlineFrom, MessageShows, ShownAs;
    var segments := Segments(Lines(source), []);
    var all := ShowsOn(segments, rewrite, [], false);
    assert segments[0..] == segments;
  }

  lemma {:induction false} OneLine(s: string)
    requires '\n' !in s
    ensures Lines(s) == [s]
  {
    if s != "" {
      OneLine(s[..|s| - 1]);
      assert s == s[..|s| - 1] + [s[|s| - 1]];
    }
  }

  lemma OneSegment(s: string)
    ensures Segments([s], []) == [Inline(s)]
  {
    assert [s][1..] == [];
    assert FenceClose([s], 1) == 1;
    assert [] + [s] == [s];
  }

  /** A line that is not rewritten and in which nothing is marked is shown as the text it is, unflagged. */
  lemma PlainMessageIsShownAsItIs(source: string, rewrite: string -> string)
    requires source != "" && rewrite(source) == source && Unmarked(source, 0)
    ensures Parsed(source, rewrite) == Ast([Text(source)], false, source)
  {
    hide Lines, Segments, InlineFrom;
    assert '\n' !in source by { hide TokenStands; }
    OneLine(source);
    OneSegment(source);
    hide Unmarked;
    UnmarkedIsShownAsItIs(source, 0, 0, false);
    var segments := [Inline(source)];
    assert segments[1..] == [];
    assert ParseFrom(segments[1..], rewrite, [Text(source)], 1, false) == ([Text(source)], false);
    assert [] + [Text(source)] == [Text(source)];
  }
}
