/**
 What a parse shows, and that it omits nothing else: the source it has read is a row of pieces - characters shown as
 themselves, escaped characters, line breaks and tokens - and its nodes are those of the pieces, adjacent texts merged.
 What may stand where is said of the source alone, so there is one such row and no other.
 */
module MarkdownPieces {
  import opened Bytes
  import opened MarkdownTree
  import opened MarkdownScan
  import opened MarkdownSafety

  // ---- pieces -----------------------------------------------------------------------------------------------

  /** `unread` is what a span holds behind the place where the token limit was met; otherwise it is empty. */
  datatype Piece =
    | Letter(c: char)
    | Escape(c: char)
    | Newline
    | CodeSpan(ticks: nat, value: string)
    | LinkSpan(text: string, address: string)
    | BareLink(url: string)
    | Span(marker: char, strong: bool, inner: seq<Piece>, unread: string)

  function Markers(strong: bool): nat { if strong then 2 else 1 }

  /** The characters of the source a piece takes. */
  function Source(p: Piece): string {
    match p
    case Letter(c) => [c]
    case Escape(c) => ['\\', c]
    case Newline => "\n"
    case CodeSpan(ticks, value) => Repeat('`', ticks) + value + Repeat('`', ticks)
    case LinkSpan(text, address) => "[" + text + ("](" + address + ")")
    case BareLink(url) => url
    case Span(marker, strong, inner, unread) =>
      Repeat(marker, Markers(strong)) + (Sources(inner) + unread) + Repeat(marker, Markers(strong))
  }

  function Sources(ps: seq<Piece>): string {
    if ps == [] then "" else Sources(ps[..|ps| - 1]) + Source(ps[|ps| - 1])
  }

  /** The node a piece is shown as. */
  function ShapeOf(p: Piece): Node {
    match p
    case Letter(c) => Text([c])
    case Escape(c) => Text([c])
    case Newline => Break
    case CodeSpan(_, value) => Code(value)
    case LinkSpan(text, address) => Link(Trim(address), text)
    case BareLink(url) => Link(url, url)
    case Span(_, strong, inner, _) => if strong then Strong(NodesOf(inner)) else Emphasis(NodesOf(inner))
  }

  function Shapes(ps: seq<Piece>): seq<Node>
    decreases ps, 0
  {
    if ps == [] then [] else Shapes(ps[..|ps| - 1]) + [ShapeOf(ps[|ps| - 1])]
  }

  /** Adjacent texts become one. */
  function Merged(ns: seq<Node>): seq<Node>
    decreases |ns|
  {
    if |ns| < 2 then ns
    else if ns[0].Text? && ns[1].Text? then Merged([Text(ns[0].value + ns[1].value)] + ns[2..])
    else [ns[0]] + Merged(ns[1..])
  }

  function NodesOf(ps: seq<Piece>): seq<Node>
    decreases ps, 1
  {
    Merged(Shapes(ps))
  }

  // ---- what stands where ------------------------------------------------------------------------------------

  /** A run of backticks at `at` closes at `close`: the first run of the same length. */
  ghost predicate CodeStands(s: string, at: nat, close: nat)
    requires at <= |s|
  {
    var k := RunAt(s, '`', at);
    k > 0 && at + k <= close < |s| && ExactRun(s, close, k) && NoRun(s, at + k, close, k)
  }

  predicate SpaceBefore(s: string, r: nat) {
    0 < r <= |s| && (s[r - 1] == ' ' || s[r - 1] == '\n')
  }

  /**
   `k` markers stand at `r` with neither a space nor a line break before them; of a run behind one, a doubled marker
   cannot begin with the second character.
   */
  predicate Closer(s: string, marker: char, k: nat, from: nat, r: nat) {
    && from <= r && MatchesAt(s, Repeat(marker, k), r) && !SpaceBefore(s, r)
    && !(k == 2 && from < r && s[r - 1] == marker && SpaceBefore(s, r - 1))
  }

  ghost predicate NoCloser(s: string, marker: char, k: nat, from: nat, to: nat) {
    forall r: nat | from <= r < to :: !Closer(s, marker, k, from, r)
  }

  /** The markers at `at`, two if there are two or more, are not before a space and close at the first closer. */
  ghost predicate SpanStands(s: string, at: nat, marker: char, close: nat)
    requires at <= |s|
  {
    var k := MarkersAt(s, at, marker);
    && at + k < |s| && s[at + k] != ' '
    && Closer(s, marker, k, at + k, close) && NoCloser(s, marker, k, at + k, close)
  }

  predicate EndsBare(c: char) { c in " \t\n<>" }

  predicate Trailing(c: char) { c in ".,;:!?)" }

  /** The length of the scheme a bare link may begin with. */
  function SchemeAt(s: string, at: nat): nat {
    if MatchesAt(s, "http://", at) then 7 else if MatchesAt(s, "https://", at) then 8 else 0
  }

  /** A bare link: not inside a word, up to a space or bracket, without the punctuation before that. */
  ghost predicate BareStands(s: string, at: nat, end: nat) {
    var k := SchemeAt(s, at);
    && k > 0 && at + k < end <= |s| && (at == 0 || !AlphaNumeric(s[at - 1]))
    && (forall i | at + k <= i < end :: !EndsBare(s[i]))
    && !Trailing(s[end - 1])
    && exists stop: nat :: BareStops(s, end, stop)
  }

  ghost predicate BareStops(s: string, end: nat, stop: nat) {
    && end <= stop <= |s| && (stop == |s| || EndsBare(s[stop]))
    && forall i | end <= i < stop :: Trailing(s[i])
  }

  /** A token stands at `at` in a parse at nesting level `depth`. */
  ghost predicate TokenStands(s: string, at: nat, depth: nat)
    requires at < |s|
  {
    || (s[at] == '`' && exists close: nat :: CodeStands(s, at, close))
    || ((s[at] == '*' || s[at] == '_') && depth < MAX_EMPHASIS_DEPTH && exists close: nat :: SpanStands(s, at, s[at], close))
    || (s[at] == '[' && exists t: nat, u: nat :: LinkOf(s, at, t, u))
    || (s[at] == 'h' && exists end: nat :: BareStands(s, at, end))
  }

  /** The nodes that have been counted while more text may still join the last one. */
  function Spent(ns: seq<Node>): nat {
    if ns != [] && ns[|ns| - 1].Text? then Sizes(ns[..|ns| - 1]) else Sizes(ns)
  }

  /** Piece `p` stands at `at`, with `had` tokens counted before it. */
  ghost predicate Stands(s: string, at: nat, p: Piece, depth: nat, had: nat)
    decreases p
  {
    && at < |s| && at + |Source(p)| <= |s| && s[at..at + |Source(p)|] == Source(p)
    && var end := at + |Source(p)|;
       match p
       case Letter(c) => c != '\n' && (c == '\\' ==> end == |s|) && !TokenStands(s, at, depth)
       case Escape(_) => true
       case Newline => true
       case CodeSpan(ticks, value) => ticks == RunAt(s, '`', at) && CodeStands(s, at, at + ticks + |value|)
       case LinkSpan(text, address) => LinkOf(s, at, at + 1 + |text|, at + 3 + |text| + |address|)
       case BareLink(_) => BareStands(s, at, end)
       case Span(marker, strong, inner, unread) =>
         && (marker == '*' || marker == '_') && depth < MAX_EMPHASIS_DEPTH
         && Markers(strong) == MarkersAt(s, at, marker)
         && Markers(strong) <= |Source(p)|
         && SpanStands(s, at, marker, end - Markers(strong))
         && Laid(s[..end - Markers(strong)], at + Markers(strong), inner, depth + 1, had)
         && (unread != "" ==> had + Spent(NodesOf(inner)) >= MAX_TOKENS)
  }

  /** The pieces stand side by side from `at` on, each begun below the token limit. */
  ghost predicate Laid(s: string, at: nat, ps: seq<Piece>, depth: nat, had: nat)
    decreases ps
  {
    ps != [] ==>
      var before, last := ps[..|ps| - 1], ps[|ps| - 1];
      && Laid(s, at, before, depth, had)
      && had + Spent(NodesOf(before)) < MAX_TOKENS
      && Stands(s, at + |Sources(before)|, last, depth, had + Spent(NodesOf(before)))
  }

  /** `ps` is a reading of `s` from `at`: it goes to the end, or to where the token limit is met. */
  ghost predicate Reading(s: string, at: nat, ps: seq<Piece>, depth: nat, had: nat) {
    && Laid(s, at, ps, depth, had)
    && (at + |Sources(ps)| < |s| ==> had + Spent(NodesOf(ps)) >= MAX_TOKENS)
  }

  /** A span was cut short by the token limit, or a marker was met as deep as spans may nest. */
  predicate Flags(p: Piece, depth: nat)
    decreases p, 0
  {
    match p
    case Letter(c) => (c == '*' || c == '_') && depth >= MAX_EMPHASIS_DEPTH
    case Span(_, _, inner, unread) => unread != "" || Flagged(inner, depth + 1)
    case _ => false
  }

  predicate Flagged(ps: seq<Piece>, depth: nat)
    decreases ps, 1
  {
    ps != [] && (Flagged(ps[..|ps| - 1], depth) || Flags(ps[|ps| - 1], depth))
  }

  lemma FlaggedPush(ps: seq<Piece>, p: Piece, depth: nat)
    ensures Flagged(ps + [p], depth) == (Flagged(ps, depth) || Flags(p, depth))
  {
    assert (ps + [p])[..|ps|] == ps;
  }

  // ---- closers and bare links -------------------------------------------------------------------------------

  lemma MatchedChar(s: string, marker: char, k: nat, r: nat)
    requires k > 0 && MatchesAt(s, Repeat(marker, k), r)
    ensures r + k <= |s| && s[r] == marker && (k == 2 ==> s[r + 1] == marker)
  {
    assert s[r] == s[r..r + k][0];
    if k == 2 {
      assert s[r + 1] == s[r..r + k][1];
    }
  }

  lemma MatchedPair(s: string, marker: char, k: nat, r: nat)
    requires 0 < k <= 2 && r + k <= |s| && s[r] == marker && (k == 2 ==> s[r + 1] == marker)
    ensures MatchesAt(s, Repeat(marker, k), r)
  {
  }

  /** A match rejected for the space before it is no closer, nor is what overlaps it, and behind it nothing is lost. */
  lemma RejectedIsPassed(s: string, marker: char, k: nat, from: nat, idx: nat)
    requires (marker == '*' || marker == '_') && 0 < k <= 2 && from <= idx
    requires MatchesAt(s, Repeat(marker, k), idx) && SpaceBefore(s, idx)
    ensures NoCloser(s, marker, k, idx, idx + k)
    ensures forall r: nat | idx <= r < idx + k :: !Closer(s, marker, k, from, r)
    ensures forall r: nat | idx + k <= r :: Closer(s, marker, k, from, r) <==> Closer(s, marker, k, idx + k, r)
  {
    MatchedChar(s, marker, k, idx);
    hide MatchesAt, Repeat;
  }

  /** The scan finds the first closer, and none only if there is none. */
  lemma {:induction false} EmphasisCloseIsFirst(s: string, marker: char, k: nat, from: nat)
    requires (marker == '*' || marker == '_') && 0 < k <= 2 && from > 0
    ensures var r := EmphasisClose(s, marker, k, from);
      && (r != -1 ==> Closer(s, marker, k, from, r))
      && NoCloser(s, marker, k, from, if r == -1 then |s| else r)
    decreases |s| - from
  {
    hide MatchesAt, EmphasisClose, Repeat;
    EmphasisCloseUnfolds(s, marker, k, from);
    if from < |s| {
      var idx := FirstMatch(s, Repeat(marker, k), from);
      if idx == -1 {
      } else if SpaceBefore(s, idx) {
        MatchedChar(s, marker, k, idx);
        RejectedIsPassed(s, marker, k, from, idx);
        EmphasisCloseIsFirst(s, marker, k, idx + k);
      } else {
        MatchedChar(s, marker, k, idx);
        NotOverlapped(s, marker, k, from, idx);
      }
    }
  }

  /** The first match does not overlap an earlier one. */
  lemma NotOverlapped(s: string, marker: char, k: nat, from: nat, idx: nat)
    requires 0 < k <= 2 && from <= idx && MatchesAt(s, Repeat(marker, k), idx)
    requires forall r: nat | from <= r < idx :: !MatchesAt(s, Repeat(marker, k), r)
    ensures !(k == 2 && from < idx && s[idx - 1] == marker)
  {
    MatchedChar(s, marker, k, idx);
    if k == 2 && from < idx && s[idx - 1] == marker {
      MatchedPair(s, marker, k, idx - 1);
    }
  }

  lemma ClosesExactly(s: string, at: nat, marker: char)
    requires at < |s| && s[at] == marker && (marker == '*' || marker == '_')
    ensures ClosesAt(s, at, marker) == -1 <==> forall close: nat :: !SpanStands(s, at, marker, close)
    ensures forall close: nat :: ClosesAt(s, at, marker) == close <==> SpanStands(s, at, marker, close)
  {
    hide EmphasisClose, Closer, RunAt, NoCloser;
    var k := MarkersAt(s, at, marker);
    EmphasisCloseIsFirst(s, marker, k, at + k);
    CloserInside(s, marker, k, at + k);
    var r := EmphasisClose(s, marker, k, at + k);
    forall close: nat | SpanStands(s, at, marker, close)
      ensures r == close
    {
      FirstIsFirst(s, marker, k, at + k, close, r);
    }
    CloseIsIndex(s, at, marker);
    if ClosesAt(s, at, marker) != -1 {
      var close: nat := ClosesAt(s, at, marker);
      assert SpanStands(s, at, marker, close);
    }
  }

  lemma FirstIsFirst(s: string, marker: char, k: nat, from: nat, close: nat, r: int)
    requires Closer(s, marker, k, from, close) && close < |s| && NoCloser(s, marker, k, from, close)
    requires r == -1 || (r >= 0 && Closer(s, marker, k, from, r))
    requires NoCloser(s, marker, k, from, if r == -1 then |s| else r)
    ensures r == close
  {
    hide MatchesAt, Repeat;
    assert r >= 0 ==> Closer(s, marker, k, from, r);
  }

  lemma CloserInside(s: string, marker: char, k: nat, from: nat)
    requires k > 0
    ensures forall r: nat | Closer(s, marker, k, from, r) :: r < |s|
  {
  }

  lemma {:induction false} BareEnd(s: string, from: nat)
    requires from <= |s|
    ensures var r := AutolinkEnd(s, from);
      (r == |s| || EndsBare(s[r])) && forall i | from <= i < r :: !EndsBare(s[i])
    decreases |s| - from
  {
    if from < |s| && !EndsBare(s[from]) {
      BareEnd(s, from + 1);
    }
  }

  lemma {:induction false} BareTrim(s: string, floor: nat, end: nat)
    requires floor <= end <= |s|
    ensures var r := AutolinkTrim(s, floor, end);
      (r > floor ==> !Trailing(s[r - 1])) && forall i | r <= i < end :: Trailing(s[i])
    decreases end
  {
    if end > floor && Trailing(s[end - 1]) {
      BareTrim(s, floor, end - 1);
    }
  }

  /** A bare link is read exactly where one stands, and then all of it. */
  lemma AutolinkExactly(s: string, at: nat, end: nat)
    requires at < |s|
    ensures BareStands(s, at, end) ==> AutolinkAt(s, at) == Some(Read(Link(s[at..end], s[at..end]), end))
    ensures AutolinkAt(s, at).Some? && AutolinkAt(s, at).value.end == end ==> BareStands(s, at, end)
  {
    hide MatchesAt, AlphaNumeric, AutolinkEnd, AutolinkTrim;
    var k := SchemeAt(s, at);
    if k > 0 {
      SchemeFits(s, at);
      var stop := AutolinkEnd(s, at + k);
      var r := AutolinkTrim(s, at + k, stop);
      BareEnd(s, at + k);
      BareTrim(s, at + k, stop);
      if r > at + k {
        assert BareStops(s, r, stop);
      }
      if BareStands(s, at, end) {
        var stop' :| BareStops(s, end, stop');
        OneEnd(s, at + k, end, stop', r, stop);
      }
    }
  }

  lemma SchemeFits(s: string, at: nat)
    ensures SchemeAt(s, at) > 0 ==> at + SchemeAt(s, at) <= |s|
  {
  }

  /** Two stretches up to a terminator end at the same place, with and without the punctuation. */
  lemma OneEnd(s: string, from: nat, end: nat, stop: nat, end': nat, stop': nat)
    requires from < end <= |s| && BareStops(s, end, stop) && !Trailing(s[end - 1])
    requires forall i | from <= i < end :: !EndsBare(s[i])
    requires from <= end' <= stop' <= |s| && (stop' == |s| || EndsBare(s[stop']))
    requires forall i | from <= i < stop' :: !EndsBare(s[i])
    requires (end' > from ==> !Trailing(s[end' - 1])) && forall i | end' <= i < stop' :: Trailing(s[i])
    ensures end == end'
  {
    assert forall c: char :: !(Trailing(c) && EndsBare(c));
    assert stop < |s| ==> EndsBare(s[stop]);
    assert stop' < |s| ==> EndsBare(s[stop']);
    assert end' > from ==> !Trailing(s[end' - 1]);
    assert !Trailing(s[end - 1]);
    hide Trailing, EndsBare;
  }

  // ---- the parse is a reading -------------------------------------------------------------------------------

  lemma MergedNonEmpty(ns: seq<Node>)
    requires ns != []
    ensures Merged(ns) != []
    decreases |ns|
  {
  }

  /** Merging as nodes come, as the parser does it, and merging at the end are the same. */
  lemma {:induction false} MergedPush(ns: seq<Node>, n: Node)
    ensures Merged(ns + [n]) == Emitted(Merged(ns), n)
    decreases |ns|
  {
    if |ns| == 0 {
      assert ns + [n] == [n];
    } else if |ns| == 1 {
      assert (ns + [n])[2..] == [] && (ns + [n])[1..] == [n];
      if ns[0].Text? && n.Text? {
        assert Merged(ns + [n]) == [Text(ns[0].value + n.value)];
      }
    } else if ns[0].Text? && ns[1].Text? {
      var joined := [Text(ns[0].value + ns[1].value)];
      assert (ns + [n])[2..] == ns[2..] + [n];
      assert joined + (ns[2..] + [n]) == joined + ns[2..] + [n];
      MergedPush(joined + ns[2..], n);
    } else {
      assert (ns + [n])[1..] == ns[1..] + [n];
      MergedPush(ns[1..], n);
      MergedNonEmpty(ns[1..]);
      EmittedBehind(ns[0], Merged(ns[1..]), n);
    }
  }

  lemma EmittedBehind(first: Node, rest: seq<Node>, n: Node)
    requires rest != []
    ensures [first] + Emitted(rest, n) == Emitted([first] + rest, n)
  {
  }

  lemma NodesPush(ps: seq<Piece>, p: Piece)
    ensures NodesOf(ps + [p]) == Emitted(NodesOf(ps), ShapeOf(p))
    ensures Sources(ps + [p]) == Sources(ps) + Source(p)
  {
    assert (ps + [p])[..|ps|] == ps;
    MergedPush(Shapes(ps), ShapeOf(p));
    hide Emitted, Merged;
  }

  /** The loop's nodes end in no text: what text there is waits in the buffer. */
  predicate NoTextLast(nodes: seq<Node>) {
    nodes != [] ==> !nodes[|nodes| - 1].Text?
  }

  lemma BufferGrows(nodes: seq<Node>, buffer: string, c: char)
    requires NoTextLast(nodes)
    ensures Emitted(Flushed(nodes, buffer), Text([c])) == Flushed(nodes, buffer + [c])
  {
    if buffer == "" {
      assert buffer + [c] == [c];
    } else {
      assert (nodes + [Text(buffer)])[..|nodes|] == nodes;
    }
  }

  lemma SpentIsCounted(nodes: seq<Node>, buffer: string)
    requires NoTextLast(nodes)
    ensures Spent(Flushed(nodes, buffer)) == Sizes(nodes)
  {
    if buffer != "" {
      assert (nodes + [Text(buffer)])[..|nodes|] == nodes;
    }
  }

  lemma LaidPush(s: string, at: nat, ps: seq<Piece>, p: Piece, depth: nat, had: nat)
    requires Laid(s, at, ps, depth, had) && had + Spent(NodesOf(ps)) < MAX_TOKENS
    requires Stands(s, at + |Sources(ps)|, p, depth, had + Spent(NodesOf(ps)))
    ensures Laid(s, at, ps + [p], depth, had)
  {
    hide Stands, NodesOf, Sources, Spent;
    assert (ps + [p])[..|ps|] == ps;
  }

  /** What the loop has read when it stands at `pos` with `nodes` and `buffer`. */
  ghost predicate SoFar(s: string, at: nat, pos: nat, ps: seq<Piece>, depth: nat, had: nat, tokens: nat,
                        nodes: seq<Node>, buffer: string) {
    && Laid(s, at, ps, depth, had) && at + |Sources(ps)| == pos
    && NodesOf(ps) == Flushed(nodes, buffer) && NoTextLast(nodes)
    && tokens == had + Sizes(nodes)
  }

  /** A piece shown as one character. */
  lemma ReadOne(s: string, at: nat, pos: nat, ps: seq<Piece>, depth: nat, had: nat, tokens: nat, nodes: seq<Node>,
                buffer: string, p: Piece, c: char)
    requires SoFar(s, at, pos, ps, depth, had, tokens, nodes, buffer) && tokens < MAX_TOKENS
    requires ShapeOf(p) == Text([c]) && Stands(s, pos, p, depth, tokens)
    ensures SoFar(s, at, pos + |Source(p)|, ps + [p], depth, had, tokens, nodes, buffer + [c])
  {
    hide Laid, Stands, NodesOf, Sources, Spent, Flushed, Emitted, Sizes;
    SpentIsCounted(nodes, buffer);
    LaidPush(s, at, ps, p, depth, had);
    NodesPush(ps, p);
    BufferGrows(nodes, buffer, c);
  }

  lemma TokenLast(nodes: seq<Node>, node: Node)
    requires !node.Text?
    ensures NoTextLast(Emitted(nodes, node))
  {
  }

  /** A piece shown as a node of its own, which costs what it holds and itself. */
  lemma ReadToken(s: string, at: nat, pos: nat, ps: seq<Piece>, depth: nat, had: nat, tokens: nat, nodes: seq<Node>,
                  buffer: string, p: Piece, counted: nat)
    requires SoFar(s, at, pos, ps, depth, had, tokens, nodes, buffer) && tokens < MAX_TOKENS
    requires !ShapeOf(p).Text? && Stands(s, pos, p, depth, tokens)
    requires counted == tokens + Size(ShapeOf(p)) - 1
    ensures var nodes' := Emitted(Flushed(nodes, buffer), ShapeOf(p));
      SoFar(s, at, pos + |Source(p)|, ps + [p], depth, had, Counted(counted, nodes, nodes'), nodes', "")
  {
    hide Laid, Stands, NodesOf, Sources, Spent, Sizes, Size, Heights, Height, ShownAll, Shown, ShapeOf, Source, Emitted;
    SpentIsCounted(nodes, buffer);
    LaidPush(s, at, ps, p, depth, had);
    NodesPush(ps, p);
    PushAdds(nodes, buffer, ShapeOf(p));
    TokenLast(Flushed(nodes, buffer), ShapeOf(p));
  }

  /** The piece for a token that was read, or none stands there. */
  ghost predicate TokenRead(s: string, pos: nat, depth: nat, tokens: nat, overflow: bool, t: Taken, p: Piece)
    requires pos < |s|
  {
    && (t.overflow <==> overflow || Flags(p, depth))
    && if t.token.None? then p == Letter(s[pos]) && !TokenStands(s, pos, depth)
       else Stands(s, pos, p, depth, tokens) && ShapeOf(p) == t.token.value && pos + |Source(p)| == t.pos
  }

  lemma CodeRead(s: string, pos: nat, depth: nat, tokens: nat, overflow: bool) returns (p: Piece)
    requires pos < |s| && s[pos] == '`'
    ensures TokenRead(s, pos, depth, tokens, overflow, MarkdownScan.Plain(CodeAt(s, pos), pos, tokens, overflow), p)
  {
    hide RunAt, ExactRun, NoRun, CodeClose;
    CodeFoundExactly(s, pos);
    p := Letter(s[pos]);
    var k := RunAt(s, '`', pos);
    if CodeAt(s, pos).Some? {
      CodeShape(s, pos);
      var Read(node, end) := CodeAt(s, pos).value;
      p := CodeSpan(k, node.value);
      RepeatLength('`', k);
      ExactInside(s, end - k, k);
      assert CodeStands(s, pos, end - k);
    } else {
      forall close: nat ensures !CodeStands(s, pos, close) {
        if CodeStands(s, pos, close) {
          FoundRun(s, pos + k, close, k);
        }
      }
    }
  }

  lemma ExactInside(s: string, r: nat, k: nat)
    requires r <= |s| && k > 0 && ExactRun(s, r, k)
    ensures r < |s|
  {
  }

  lemma LinkRead(s: string, pos: nat, depth: nat, tokens: nat, overflow: bool) returns (p: Piece)
    requires pos < |s| && s[pos] == '['
    ensures TokenRead(s, pos, depth, tokens, overflow, MarkdownScan.Plain(LinkAt(s, pos), pos, tokens, overflow), p)
  {
    hide Unescaped, Trim;
    LinkFoundExactly(s, pos);
    p := Letter(s[pos]);
    if LinkAt(s, pos).Some? {
      var t: nat, u: nat :| LinkOf(s, pos, t, u);
      LinkShape(s, pos, t, u);
      p := LinkSpan(s[pos + 1..t], s[t + 2..u]);
    }
  }

  lemma BareRead(s: string, pos: nat, depth: nat, tokens: nat, overflow: bool) returns (p: Piece)
    requires pos < |s| && s[pos] == 'h'
    ensures TokenRead(s, pos, depth, tokens, overflow, MarkdownScan.Plain(AutolinkAt(s, pos), pos, tokens, overflow), p)
  {
    hide BareStands;
    p := Letter(s[pos]);
    if AutolinkAt(s, pos).Some? {
      var end := AutolinkAt(s, pos).value.end;
      AutolinkExactly(s, pos, end);
      AutolinkIsVerbatim(s, pos);
      p := BareLink(s[pos..end]);
    } else {
      forall end: nat ensures !BareStands(s, pos, end) {
        AutolinkExactly(s, pos, end);
      }
    }
  }

  /** The source read is that of the pieces. */
  lemma {:induction false} LaidSource(s: string, at: nat, ps: seq<Piece>, depth: nat, had: nat)
    requires at <= |s| && Laid(s, at, ps, depth, had)
    ensures at + |Sources(ps)| <= |s| && s[at..at + |Sources(ps)|] == Sources(ps)
    decreases |ps|
  {
    hide TokenStands, SpanStands, CodeStands, BareStands, NodesOf, Source, Spent;
    if ps != [] {
      var before, last := ps[..|ps| - 1], ps[|ps| - 1];
      LaidSource(s, at, before, depth, had);
      var mid, end := at + |Sources(before)|, at + |Sources(before)| + |Source(last)|;
      assert s[at..end] == s[at..mid] + s[mid..end];
    }
  }

  /** The span from the markers, the pieces between them and what was left unread. */
  lemma SpanSource(s: string, pos: nat, marker: char, strong: bool, inner: seq<Piece>, close: nat)
    requires var k := Markers(strong);
      && pos + k + |Sources(inner)| <= close && close + k <= |s|
      && s[pos + k..pos + k + |Sources(inner)|] == Sources(inner)
      && Marked(s[pos..close + k], marker, k, s[pos + k..close])
    ensures var k := Markers(strong);
      var unread := s[pos + k + |Sources(inner)|..close];
      Source(Span(marker, strong, inner, unread)) == s[pos..close + k]
  {
    hide Sources, Repeat;
    var k := Markers(strong);
    var mid := pos + k + |Sources(inner)|;
    assert s[pos + k..close] == s[pos + k..mid] + s[mid..close];
  }

  lemma SpanRead(s: string, pos: nat, marker: char, depth: nat, tokens: nat, overflow: bool) returns (p: Piece)
    requires pos < |s| && s[pos] == marker && (marker == '*' || marker == '_')
    requires depth <= MAX_EMPHASIS_DEPTH && tokens < MAX_TOKENS
    ensures TokenRead(s, pos, depth, tokens, overflow, EmphasisAt(s, pos, marker, tokens, depth, overflow), p)
    decreases MAX_EMPHASIS_DEPTH - depth, 0, 0
  {
    hide InlineFrom, EmphasisAt, ClosesAt, MarkersAt, SpanStands, Laid, Sources, Marked, Source;
    ClosesExactly(s, pos, marker);
    p := Letter(s[pos]);
    if depth == MAX_EMPHASIS_DEPTH || ClosesAt(s, pos, marker) == -1 {
      NoEmphasisIs(s, pos, marker, tokens, depth, overflow);
    } else {
      CloseIsIndex(s, pos, marker);
      var close: nat := ClosesAt(s, pos, marker);
      EmphasisIs(s, pos, marker, close, tokens, depth, overflow);
      p := SpanInner(s, pos, marker, close, depth, tokens, overflow);
    }
  }

  /** The pieces of what is between the markers, and the span around them. */
  lemma SpanInner(s: string, pos: nat, marker: char, close: nat, depth: nat, tokens: nat, overflow: bool)
    returns (p: Piece)
    requires pos < |s| && s[pos] == marker && (marker == '*' || marker == '_')
    requires depth < MAX_EMPHASIS_DEPTH && tokens < MAX_TOKENS
    requires var k := MarkersAt(s, pos, marker);
      && pos + k <= close && close + k <= |s| && Marked(s[pos..close + k], marker, k, s[pos + k..close])
    requires SpanStands(s, pos, marker, close)
    ensures var k := MarkersAt(s, pos, marker);
      var inner := InnerOf(s, pos, k, close, tokens, depth, overflow);
      && Stands(s, pos, p, depth, tokens) && pos + |Source(p)| == close + k
      && (Flags(p, depth) || overflow <==> inner.overflow || overflow)
      && ShapeOf(p) == if k == 2 then Strong(inner.nodes) else Emphasis(inner.nodes)
    decreases MAX_EMPHASIS_DEPTH - depth - 1, 4, 0
  {
    hide InlineFrom, SpanStands, Laid, Sources, Marked, NodesOf, Sizes, RunAt, Source;
    var k := MarkersAt(s, pos, marker);
    var s' := s[..close];
    NothingRead(s', pos + k, depth + 1, tokens);
    var inner := Reads(s', pos + k, pos + k, [], depth + 1, tokens, tokens, overflow, overflow, [], "");
    var r := InnerOf(s, pos, k, close, tokens, depth, overflow);
    LaidSource(s', pos + k, inner, depth + 1, tokens);
    SliceOfPrefix(s, close, pos + k, r.pos);
    var unread := s[r.pos..close];
    p := Span(marker, k == 2, inner, unread);
    SpanSource(s, pos, marker, k == 2, inner, close);
    assert close == pos + |Source(p)| - k;
  }

  lemma SliceOfPrefix(s: string, close: nat, a: nat, b: nat)
    requires a <= b <= close <= |s|
    ensures s[..close][a..b] == s[a..b]
  {
  }

  lemma NothingRead(s: string, at: nat, depth: nat, tokens: nat)
    ensures SoFar(s, at, at, [], depth, tokens, tokens, [], "")
  {
  }

  lemma TokenIsPiece(s: string, pos: nat, depth: nat, tokens: nat, overflow: bool) returns (p: Piece)
    requires pos < |s| && depth <= MAX_EMPHASIS_DEPTH && tokens < MAX_TOKENS
    ensures TokenRead(s, pos, depth, tokens, overflow, TokenAt(s, pos, tokens, depth, overflow), p)
    decreases MAX_EMPHASIS_DEPTH - depth, 1, 0
  {
    hide CodeAt, LinkAt, AutolinkAt, EmphasisAt, Stands, CodeStands, SpanStands, LinkOf, BareStands, ShapeOf, Source;
    p := Letter(s[pos]);
    if s[pos] == '`' {
      p := CodeRead(s, pos, depth, tokens, overflow);
    } else if s[pos] == '*' || s[pos] == '_' {
      p := SpanRead(s, pos, s[pos], depth, tokens, overflow);
    } else if s[pos] == '[' {
      p := LinkRead(s, pos, depth, tokens, overflow);
    } else if s[pos] == 'h' {
      p := BareRead(s, pos, depth, tokens, overflow);
    }
  }

  /** From wherever the loop stands, the rest of the parse adds the pieces of what it goes on to read. */
  lemma {:induction false} Reads(s: string, at: nat, pos: nat, ps: seq<Piece>, depth: nat, had: nat, tokens: nat,
                                 start: bool, overflow: bool, nodes: seq<Node>, buffer: string)
    returns (all: seq<Piece>)
    requires at <= pos <= |s| && depth <= MAX_EMPHASIS_DEPTH
    requires overflow <==> start || Flagged(ps, depth)
    requires SoFar(s, at, pos, ps, depth, had, tokens, nodes, buffer)
    ensures var r := InlineFrom(s, pos, tokens, depth, overflow, nodes, buffer);
      && Laid(s, at, all, depth, had) && r.pos == at + |Sources(all)| && r.nodes == NodesOf(all)
      && (r.pos < |s| ==> had + Spent(NodesOf(all)) >= MAX_TOKENS)
      && (r.overflow <==> start || Flagged(all, depth) || r.pos < |s|)
    decreases MAX_EMPHASIS_DEPTH - depth, 2, |s| - pos
  {
    hide TokenAt, Emitted, Flushed, Laid, Stands, NodesOf, Sources, Sizes, Spent, TokenStands, Flagged;
    if pos == |s| || tokens >= MAX_TOKENS {
      all := ps;
      SpentSoFar(s, at, pos, ps, depth, had, tokens, nodes, buffer);
    } else if s[pos] == '\\' && pos + 1 < |s| {
      var p := Escape(s[pos + 1]);
      FlaggedPush(ps, p, depth);
      EscapeStands(s, pos, depth, tokens);
      ReadOne(s, at, pos, ps, depth, had, tokens, nodes, buffer, p, s[pos + 1]);
      all := Reads(s, at, pos + 2, ps + [p], depth, had, tokens, start, overflow, nodes, buffer + [s[pos + 1]]);
    } else if s[pos] == '\n' {
      NewlineStands(s, pos, depth, tokens);
      FlaggedPush(ps, Newline, depth);
      ReadToken(s, at, pos, ps, depth, had, tokens, nodes, buffer, Newline, tokens);
      var nodes' := Emitted(Flushed(nodes, buffer), Break);
      all := Reads(s, at, pos + 1, ps + [Newline], depth, had, Counted(tokens, nodes, nodes'), start, overflow, nodes', "");
    } else {
      var t := TokenAt(s, pos, tokens, depth, overflow);
      var p := TokenIsPiece(s, pos, depth, tokens, overflow);
      FlaggedPush(ps, p, depth);
      if t.token.Some? {
        TokenSound(s, pos, tokens, depth, overflow);
        ReadToken(s, at, pos, ps, depth, had, tokens, nodes, buffer, p, t.tokens);
        var nodes' := Emitted(Flushed(nodes, buffer), t.token.value);
        all := Reads(s, at, t.pos, ps + [p], depth, had, Counted(t.tokens, nodes, nodes'), start, t.overflow, nodes', "");
      } else {
        p := Letter(s[pos]);
        LetterStands(s, pos, depth, tokens);
        ReadOne(s, at, pos, ps, depth, had, tokens, nodes, buffer, p, s[pos]);
        all := Reads(s, at, pos + 1, ps + [p], depth, had, tokens, start, t.overflow, nodes, buffer + [s[pos]]);
      }
    }
  }

  lemma SpentSoFar(s: string, at: nat, pos: nat, ps: seq<Piece>, depth: nat, had: nat, tokens: nat, nodes: seq<Node>,
                   buffer: string)
    requires SoFar(s, at, pos, ps, depth, had, tokens, nodes, buffer)
    ensures had + Spent(NodesOf(ps)) == tokens
  {
    hide Laid, NodesOf;
    SpentIsCounted(nodes, buffer);
  }

  lemma EscapeStands(s: string, pos: nat, depth: nat, tokens: nat)
    requires pos + 1 < |s| && s[pos] == '\\'
    ensures Stands(s, pos, Escape(s[pos + 1]), depth, tokens) && |Source(Escape(s[pos + 1]))| == 2
  {
  }

  lemma NewlineStands(s: string, pos: nat, depth: nat, tokens: nat)
    requires pos < |s| && s[pos] == '\n'
    ensures Stands(s, pos, Newline, depth, tokens) && |Source(Newline)| == 1
    ensures Size(ShapeOf(Newline)) == 1
  {
  }

  lemma LetterStands(s: string, pos: nat, depth: nat, tokens: nat)
    requires pos < |s| && s[pos] != '\n' && (s[pos] == '\\' ==> pos + 1 == |s|) && !TokenStands(s, pos, depth)
    ensures Stands(s, pos, Letter(s[pos]), depth, tokens) && |Source(Letter(s[pos]))| == 1
  {
    hide TokenStands;
  }

  /**
   Every parse is a reading of its source: what it has read is the row of its pieces, its nodes are theirs with adjacent
   texts merged, and it goes to the end of the source unless the token limit is met.
   */
  lemma ParseIsReading(s: string, at: nat, tokens: nat, depth: nat, overflow: bool)
    requires at <= |s| && depth <= MAX_EMPHASIS_DEPTH
    ensures var r := InlineFrom(s, at, tokens, depth, overflow, [], "");
      exists ps :: Reading(s, at, ps, depth, tokens) && ReadsAs(s, at, ps, depth, overflow, r)
  {
    hide InlineFrom, Laid, Sources, NodesOf, Spent;
    NothingRead(s, at, depth, tokens);
    var ps := Reads(s, at, at, [], depth, tokens, tokens, overflow, overflow, [], "");
    LaidSource(s, at, ps, depth, tokens);
    var r := InlineFrom(s, at, tokens, depth, overflow, [], "");
    assert Reading(s, at, ps, depth, tokens) && ReadsAs(s, at, ps, depth, overflow, r);
  }

  /**
   The parse has read the pieces' source and has their nodes. It is newly flagged exactly when it stops early, a span
   in it is cut short or a marker stands where spans may nest no deeper.
   */
  ghost predicate ReadsAs(s: string, at: nat, ps: seq<Piece>, depth: nat, overflow: bool, r: Parse) {
    && at <= r.pos <= |s| && s[at..r.pos] == Sources(ps) && r.nodes == NodesOf(ps)
    && (r.overflow <==> overflow || Flagged(ps, depth) || r.pos < |s|)
  }
}
