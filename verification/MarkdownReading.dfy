/**
 A source has one reading and no other, so the parse is determined by what stands where; a source without markup is
 shown as it is, and escaping makes any text so.
 */
module MarkdownReading {
  import opened Bytes
  import opened MarkdownTree
  import opened MarkdownScan
  import opened MarkdownSafety
  import opened MarkdownPieces

  // ---- one piece --------------------------------------------------------------------------------------------

  lemma CodePiece(s: string, at: nat, p: Piece, depth: nat, had: nat)
    requires p.CodeSpan? && Stands(s, at, p, depth, had)
    ensures Source(p)[0] == '`' && TokenStands(s, at, depth)
  {
    hide ExactRun, NoRun, RunAt;
    RepeatLength('`', p.ticks);
    assert Source(p)[0] == Repeat('`', p.ticks)[0];
    assert CodeStands(s, at, at + p.ticks + |p.value|);
    assert s[at..at + |Source(p)|][0] == s[at];
  }

  lemma BarePiece(s: string, at: nat, p: Piece, depth: nat, had: nat)
    requires p.BareLink? && Stands(s, at, p, depth, had)
    ensures p.url != "" && s[at] == 'h' && TokenStands(s, at, depth)
  {
    assert BareStands(s, at, at + |p.url|);
    assert MatchesAt(s, "http://", at) ==> s[at..at + 7][0] == s[at];
    assert MatchesAt(s, "https://", at) ==> s[at..at + 8][0] == s[at];
  }

  lemma SpanPiece(s: string, at: nat, p: Piece, depth: nat, had: nat)
    requires p.Span? && Stands(s, at, p, depth, had)
    ensures |Source(p)| > 0 && s[at] == p.marker && TokenStands(s, at, depth)
  {
    hide SpanStands, Laid, NodesOf, Sources, Spent, MarkersAt;
    RepeatLength(p.marker, Markers(p.strong));
    assert Source(p)[0] == Repeat(p.marker, Markers(p.strong))[0] == p.marker;
    assert s[at..at + |Source(p)|][0] == s[at];
    assert SpanStands(s, at, s[at], at + |Source(p)| - Markers(p.strong));
  }

  lemma LinkPiece(s: string, at: nat, p: Piece, depth: nat, had: nat)
    requires p.LinkSpan? && Stands(s, at, p, depth, had)
    ensures s[at] == '[' && TokenStands(s, at, depth)
  {
    hide LinkOf;
    assert Source(p)[0] == '[';
    assert s[at..at + |Source(p)|][0] == s[at];
    assert LinkOf(s, at, at + 1 + |p.text|, at + 3 + |p.text| + |p.address|);
  }

  lemma CharPiece(s: string, at: nat, p: Piece, depth: nat, had: nat)
    requires (p.Letter? || p.Escape? || p.Newline?) && Stands(s, at, p, depth, had)
    ensures s[at] == Source(p)[0]
    ensures p.Letter? ==> s[at] == p.c && s[at] != '\n' && !TokenStands(s, at, depth) && (s[at] == '\\' ==> at + 1 == |s|)
    ensures p.Escape? ==> s[at] == '\\' && at + 1 < |s| && s[at + 1] == p.c
    ensures p.Newline? ==> s[at] == '\n'
  {
    hide TokenStands;
    assert s[at..at + |Source(p)|][0] == s[at];
    assert p.Escape? ==> s[at..at + |Source(p)|][1] == s[at + 1];
  }

  /** What the first character of a piece says of the piece. */
  ghost predicate Fits(s: string, at: nat, p: Piece, depth: nat)
    requires at < |s|
  {
    match p
    case Letter(c) => s[at] == c != '\n' && !TokenStands(s, at, depth) && (c == '\\' ==> at + 1 == |s|)
    case Escape(c) => s[at] == '\\' && at + 1 < |s| && s[at + 1] == c
    case Newline => s[at] == '\n'
    case CodeSpan(_, _) => s[at] == '`' && TokenStands(s, at, depth)
    case LinkSpan(_, _) => s[at] == '[' && TokenStands(s, at, depth)
    case BareLink(_) => s[at] == 'h' && TokenStands(s, at, depth)
    case Span(marker, _, _, _) => s[at] == marker && (marker == '*' || marker == '_') && TokenStands(s, at, depth)
  }

  lemma PieceFits(s: string, at: nat, p: Piece, depth: nat, had: nat)
    requires Stands(s, at, p, depth, had)
    ensures Fits(s, at, p, depth) && |Source(p)| > 0
  {
    hide TokenStands;
    match p
    case CodeSpan(_, _) =>
      CodePiece(s, at, p, depth, had);
      assert s[at..at + |Source(p)|][0] == s[at];
    case LinkSpan(_, _) => LinkPiece(s, at, p, depth, had);
    case BareLink(_) => BarePiece(s, at, p, depth, had);
    case Span(_, _, _, _) => SpanPiece(s, at, p, depth, had);
    case _ => CharPiece(s, at, p, depth, had);
  }

  /** Two pieces in one place are of one kind. */
  lemma OneKind(s: string, at: nat, p: Piece, q: Piece, depth: nat)
    requires at < |s| && Fits(s, at, p, depth) && Fits(s, at, q, depth)
    ensures (p.Letter? || p.Escape? || p.Newline?) ==> p == q
    ensures p.CodeSpan? ==> q.CodeSpan?
    ensures p.LinkSpan? ==> q.LinkSpan?
    ensures p.BareLink? ==> q.BareLink?
    ensures p.Span? ==> q.Span? && p.marker == q.marker
  {
    hide TokenStands;
  }

  lemma SameCode(s: string, at: nat, p: Piece, q: Piece, depth: nat, had: nat)
    requires p.CodeSpan? && q.CodeSpan? && Stands(s, at, p, depth, had) && Stands(s, at, q, depth, had)
    ensures p == q
  {
    hide RunAt, ExactRun, NoRun, CodeStands, Repeat;
    var k := p.ticks;
    var a, b := at + k + |p.value|, at + k + |q.value|;
    OneCode(s, at, a, b);
    RepeatLength('`', k);
    SameMiddle(Repeat('`', k), p.value, q.value, Repeat('`', k));
  }

  lemma OneCode(s: string, at: nat, a: nat, b: nat)
    requires at <= |s| && CodeStands(s, at, a) && CodeStands(s, at, b)
    ensures a == b
  {
    hide RunAt, ExactRun;
  }

  lemma SameMiddle(a: string, x: string, y: string, b: string)
    requires |x| == |y| && a + x + b == a + y + b
    ensures x == y
  {
    assert x == (a + x + b)[|a|..|a| + |x|];
    assert y == (a + y + b)[|a|..|a| + |y|];
  }

  lemma SameLink(s: string, at: nat, p: Piece, q: Piece, depth: nat, had: nat)
    requires p.LinkSpan? && q.LinkSpan? && Stands(s, at, p, depth, had) && Stands(s, at, q, depth, had)
    ensures p == q
  {
    hide Unescaped, Trim;
    assert |p.text| == |q.text| && |p.address| == |q.address|;
    assert p.text == Source(p)[1..1 + |p.text|] && q.text == Source(q)[1..1 + |p.text|];
    assert p.address == Source(p)[3 + |p.text|..3 + |p.text| + |p.address|];
    assert q.address == Source(q)[3 + |p.text|..3 + |p.text| + |p.address|];
  }

  lemma SameBare(s: string, at: nat, p: Piece, q: Piece, depth: nat, had: nat)
    requires p.BareLink? && q.BareLink? && Stands(s, at, p, depth, had) && Stands(s, at, q, depth, had)
    ensures p == q
  {
    hide BareStands, AutolinkAt;
    AutolinkExactly(s, at, at + |p.url|);
    AutolinkExactly(s, at, at + |q.url|);
  }

  // ---- one reading ------------------------------------------------------------------------------------------

  /** The two spans open and close at the same places; what is inside is read the same way. */
  lemma SameSpan(s: string, at: nat, p: Piece, q: Piece, depth: nat, had: nat)
    requires p.Span? && q.Span? && Stands(s, at, p, depth, had) && Stands(s, at, q, depth, had)
    requires p.marker == q.marker == s[at]
    ensures p == q
    decreases p, 0
  {
    hide SpanStands, Laid, NodesOf, Sources, Spent, MarkersAt, TokenStands;
    var k := Markers(p.strong);
    assert p.strong == q.strong;
    ClosesExactly(s, at, p.marker);
    var close := at + |Source(p)| - k;
    assert close == at + |Source(q)| - k;
    SpanReads(s, at, p, depth, had);
    SpanReads(s, at, q, depth, had);
    OneReading(s[..close], at + k, p.inner, q.inner, depth + 1, had);
    SameUnread(p, q);
  }

  lemma SameUnread(p: Piece, q: Piece)
    requires p.Span? && q.Span? && p.marker == q.marker && p.strong == q.strong && p.inner == q.inner
    requires Source(p) == Source(q)
    ensures p == q
  {
    hide Sources;
    var k := Markers(p.strong);
    var a, b := Repeat(p.marker, k) + Sources(p.inner), Repeat(p.marker, k);
    assert Source(p) == a + p.unread + b;
    assert Source(q) == a + q.unread + b;
    assert |p.unread| == |q.unread|;
    SameMiddle(a, p.unread, q.unread, b);
  }

  /** What a span holds is a reading of the source up to its closing markers. */
  lemma SpanReads(s: string, at: nat, p: Piece, depth: nat, had: nat)
    requires p.Span? && Stands(s, at, p, depth, had)
    ensures var k := Markers(p.strong);
      var close := at + |Source(p)| - k;
      && at + k <= close <= |s| && Reading(s[..close], at + k, p.inner, depth + 1, had)
  {
    hide SpanStands, Laid, NodesOf, Sources, Spent, MarkersAt, TokenStands;
    var k := Markers(p.strong);
    RepeatLength(p.marker, k);
    assert |Source(p)| == k + |Sources(p.inner)| + |p.unread| + k;
  }

  lemma OnePiece(s: string, at: nat, p: Piece, q: Piece, depth: nat, had: nat)
    requires Stands(s, at, p, depth, had) && Stands(s, at, q, depth, had)
    ensures p == q
    decreases p, 1
  {
    hide Stands, Fits, Source;
    PieceFits(s, at, p, depth, had);
    PieceFits(s, at, q, depth, had);
    StandsInside(s, at, p, depth, had);
    OneKind(s, at, p, q, depth);
    match p
    case CodeSpan(_, _) => SameCode(s, at, p, q, depth, had);
    case LinkSpan(_, _) => SameLink(s, at, p, q, depth, had);
    case BareLink(_) => SameBare(s, at, p, q, depth, had);
    case Span(_, _, _, _) =>
      SpanPiece(s, at, p, depth, had);
      SameSpan(s, at, p, q, depth, had);
    case _ =>
  }

  lemma StandsInside(s: string, at: nat, p: Piece, depth: nat, had: nat)
    requires Stands(s, at, p, depth, had)
    ensures at < |s|
  {
  }

  /** Of two rows from one place the shorter is the beginning of the longer. */
  lemma {:induction false} OneRow(s: string, at: nat, ps: seq<Piece>, qs: seq<Piece>, depth: nat, had: nat)
    requires Laid(s, at, ps, depth, had) && Laid(s, at, qs, depth, had) && |ps| <= |qs|
    ensures ps == qs[..|ps|]
    decreases ps, 2
  {
    hide Stands, NodesOf, Sources, Spent;
    if ps != [] {
      var n := |ps| - 1;
      LaidPrefix(s, at, qs, |ps|, depth, had);
      var rs := qs[..|ps|];
      OneRow(s, at, ps[..n], rs[..n], depth, had);
      assert rs[..n][..n] == rs[..n];
      OnePiece(s, at + |Sources(ps[..n])|, ps[n], rs[n], depth, had + Spent(NodesOf(ps[..n])));
      assert ps == ps[..n] + [ps[n]] && rs == rs[..n] + [rs[n]];
    }
  }

  lemma {:induction false} LaidPrefix(s: string, at: nat, ps: seq<Piece>, n: nat, depth: nat, had: nat)
    requires Laid(s, at, ps, depth, had) && n <= |ps|
    ensures Laid(s, at, ps[..n], depth, had)
    decreases |ps|
  {
    hide Stands, NodesOf, Sources, Spent;
    if n < |ps| {
      LaidPrefix(s, at, ps[..|ps| - 1], n, depth, had);
      assert ps[..|ps| - 1][..n] == ps[..n];
    } else {
      assert ps[..n] == ps;
    }
  }

  /** A reading cannot go on where another ends. */
  lemma NotShorter(s: string, at: nat, ps: seq<Piece>, qs: seq<Piece>, depth: nat, had: nat)
    requires Reading(s, at, ps, depth, had) && Laid(s, at, qs, depth, had) && |ps| <= |qs| && ps == qs[..|ps|]
    ensures ps == qs
  {
    hide Stands, NodesOf, Sources, Spent;
    if |ps| < |qs| {
      LaidPrefix(s, at, qs, |ps| + 1, depth, had);
      var next := qs[..|ps| + 1];
      assert next[..|ps|] == ps;
      LaidGoesOn(s, at, ps, next[|ps|], depth, had, next);
    } else {
      assert qs[..|qs|] == qs;
    }
  }

  lemma LaidGoesOn(s: string, at: nat, ps: seq<Piece>, p: Piece, depth: nat, had: nat, next: seq<Piece>)
    requires Laid(s, at, next, depth, had) && |next| == |ps| + 1 && next[..|ps|] == ps && next[|ps|] == p
    ensures at + |Sources(ps)| < |s| && had + Spent(NodesOf(ps)) < MAX_TOKENS
  {
    hide NodesOf, Sources, Spent, TokenStands, SpanStands, CodeStands, BareStands, Source;
  }

  /** There is one reading of a source, and so one parse that is one. */
  lemma OneReading(s: string, at: nat, ps: seq<Piece>, qs: seq<Piece>, depth: nat, had: nat)
    requires Reading(s, at, ps, depth, had) && Reading(s, at, qs, depth, had)
    ensures ps == qs
    decreases ps, 3
  {
    hide Laid, NodesOf, Sources, Spent;
    if |ps| <= |qs| {
      OneRow(s, at, ps, qs, depth, had);
      NotShorter(s, at, ps, qs, depth, had);
    } else {
      LaidPrefix(s, at, ps, |qs|, depth, had);
      OneRow(s, at, ps[..|qs|], qs, depth, had);
      assert qs[..|qs|] == qs;
      NotShorter(s, at, qs, ps, depth, had);
    }
  }

  // ---- sources without markup -------------------------------------------------------------------------------

  /** A token is read exactly where one stands. */
  lemma TokenFoundExactly(s: string, pos: nat, tokens: nat, depth: nat, overflow: bool)
    requires pos < |s| && depth <= MAX_EMPHASIS_DEPTH && tokens < MAX_TOKENS
    requires s[pos] != '\n' && (s[pos] == '\\' ==> pos + 1 == |s|)
    ensures TokenAt(s, pos, tokens, depth, overflow).token.Some? <==> TokenStands(s, pos, depth)
  {
    hide TokenAt, TokenStands, Stands, Source;
    var p := TokenIsPiece(s, pos, depth, tokens, overflow);
    if TokenAt(s, pos, tokens, depth, overflow).token.Some? {
      PieceFits(s, pos, p, depth, tokens);
      TokenSound(s, pos, tokens, depth, overflow);
    }
  }

  /** No token, escape or line break stands anywhere. */
  ghost predicate Unmarked(s: string, depth: nat) {
    forall i | 0 <= i < |s| :: s[i] != '\n' && (s[i] == '\\' ==> i + 1 == |s|) && !TokenStands(s, i, depth)
  }

  lemma {:induction false} UnmarkedFrom(s: string, pos: nat, tokens: nat, depth: nat, overflow: bool)
    requires pos <= |s| && depth < MAX_EMPHASIS_DEPTH && tokens < MAX_TOKENS && Unmarked(s, depth)
    ensures InlineFrom(s, pos, tokens, depth, overflow, [], s[..pos])
      == InlineFrom(s, |s|, tokens, depth, overflow, [], s)
    decreases |s| - pos
  {
    hide TokenAt, TokenStands, Flushed, Emitted;
    if pos < |s| {
      TokenFoundExactly(s, pos, tokens, depth, overflow);
      assert TokenAt(s, pos, tokens, depth, overflow) == Taken(None, pos, tokens, overflow) by {
        NoTokenNoFlag(s, pos, tokens, depth, overflow);
      }
      UnmarkedFrom(s, pos + 1, tokens, depth, overflow);
      assert s[..pos] + [s[pos]] == s[..pos + 1];
    } else {
      assert s[..pos] == s;
    }
  }

  lemma NoTokenNoFlag(s: string, pos: nat, tokens: nat, depth: nat, overflow: bool)
    requires pos < |s| && depth < MAX_EMPHASIS_DEPTH && tokens < MAX_TOKENS
    requires TokenAt(s, pos, tokens, depth, overflow).token.None?
    ensures TokenAt(s, pos, tokens, depth, overflow) == Taken(None, pos, tokens, overflow)
  {
    hide TokenAt, TokenStands, Stands;
    var p := TokenIsPiece(s, pos, depth, tokens, overflow);
  }

  /** A source in which nothing is marked is shown as the one text it is. */
  lemma UnmarkedIsShownAsItIs(s: string, tokens: nat, depth: nat, overflow: bool)
    requires s != "" && depth < MAX_EMPHASIS_DEPTH && tokens < MAX_TOKENS && Unmarked(s, depth)
    ensures InlineFrom(s, 0, tokens, depth, overflow, [], "") == Parse([Text(s)], |s|, tokens + 1, overflow)
  {
    hide Unmarked, TokenAt;
    UnmarkedFrom(s, 0, tokens, depth, overflow);
    assert s[..0] == "";
  }

  /** In particular one without any of the six markup characters and without a bare link. */
  lemma PlainIsShownAsItIs(s: string, tokens: nat, depth: nat, overflow: bool)
    requires s != "" && depth < MAX_EMPHASIS_DEPTH && tokens < MAX_TOKENS
    requires forall i | 0 <= i < |s| :: s[i] !in "\\\n`*_["
    requires forall i: nat, end: nat | i < end <= |s| :: !BareStands(s, i, end)
    ensures InlineFrom(s, 0, tokens, depth, overflow, [], "") == Parse([Text(s)], |s|, tokens + 1, overflow)
  {
    forall i | 0 <= i < |s|
      ensures s[i] != '\n' && s[i] != '\\' && !TokenStands(s, i, depth)
    {
      assert s[i] !in "\\\n`*_[";
      assert forall end: nat :: BareStands(s, i, end) ==> i < end <= |s|;
      hide BareStands;
    }
    UnmarkedIsShownAsItIs(s, tokens, depth, overflow);
  }

  /** Every character behind a backslash. */
  function Escaped(text: string): string {
    if text == "" then "" else ['\\', text[0]] + Escaped(text[1..])
  }

  lemma {:induction false} EscapedFrom(done: string, text: string, tokens: nat, depth: nat, overflow: bool, buffer: string)
    requires depth <= MAX_EMPHASIS_DEPTH && tokens < MAX_TOKENS
    ensures var s := done + Escaped(text);
      InlineFrom(s, |done|, tokens, depth, overflow, [], buffer)
      == InlineFrom(s, |s|, tokens, depth, overflow, [], buffer + text)
    decreases |text|
  {
    hide TokenAt, Flushed, Emitted;
    var s := done + Escaped(text);
    if text == "" {
      assert s == done && buffer + text == buffer;
    } else {
      var two := ['\\', text[0]];
      assert s == done + two + Escaped(text[1..]);
      EscapedFrom(done + two, text[1..], tokens, depth, overflow, buffer + [text[0]]);
      assert buffer + [text[0]] + text[1..] == buffer + text;
      assert s[|done|] == '\\' && s[|done| + 1] == text[0];
    }
  }

  /** Any text is shown as it is when every character is escaped. */
  lemma EscapedIsShown(text: string, tokens: nat, depth: nat, overflow: bool)
    requires text != "" && depth <= MAX_EMPHASIS_DEPTH && tokens < MAX_TOKENS
    ensures InlineFrom(Escaped(text), 0, tokens, depth, overflow, [], "")
      == Parse([Text(text)], |Escaped(text)|, tokens + 1, overflow)
  {
    hide TokenAt;
    EscapedFrom("", text, tokens, depth, overflow, "");
    assert "" + Escaped(text) == Escaped(text);
    assert "" + text == text;
  }
}
