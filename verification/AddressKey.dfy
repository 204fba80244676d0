/**
 The key an address is limited under: an IPv6 address counts by its first 64 bits, however it is written, and any other
 by its text.  The text of an IPv6 address is given split at `::` and at the colons, as the code splits it; its last
 group may carry a zone, as in `fe80::1%eth0`.
 */
module AddressKey {
  // ---- one group ------------------------------------------------------------------------------------------------

  predicate HexDigit(c: char) {
    '0' <= c <= '9' || 'a' <= c <= 'f' || 'A' <= c <= 'F'
  }

  function ToLower(c: char): char {
    if 'A' <= c <= 'Z' then c - 'A' + 'a' else c
  }

  function Digit(c: char): (d: nat)
    requires HexDigit(c)
    ensures d < 16
  {
    if c <= '9' then (c - '0') as nat else if c <= 'F' then (c - 'A') as nat + 10 else (c - 'a') as nat + 10
  }

  predicate HexGroup(g: string) {
    1 <= |g| <= 4 && forall i | 0 <= i < |g| :: HexDigit(g[i])
  }

  /** The number a group of hexadecimal digits stands for. */
  function Value(g: string): nat
    requires forall i | 0 <= i < |g| :: HexDigit(g[i])
  {
    if g == "" then 0 else 16 * Value(g[..|g| - 1]) + Digit(g[|g| - 1])
  }

  function Lower(g: string): (r: string)
    ensures |r| == |g| && forall i | 0 <= i < |g| :: r[i] == ToLower(g[i])
  {
    seq(|g|, i requires 0 <= i < |g| => ToLower(g[i]))
  }

  /** Leading zeros go as long as a character is left. */
  function Stripped(g: string): string {
    if |g| > 1 && g[0] == '0' then Stripped(g[1..]) else g
  }

  function Canonical(g: string): string { Stripped(Lower(g)) }

  lemma {:induction false} LowerKeepsValue(g: string)
    requires forall i | 0 <= i < |g| :: HexDigit(g[i])
    ensures forall i | 0 <= i < |g| :: HexDigit(Lower(g)[i])
    ensures Value(Lower(g)) == Value(g)
  {
    if g != "" {
      var n := |g| - 1;
      LowerKeepsValue(g[..n]);
      assert Lower(g)[..n] == Lower(g[..n]);
      assert Digit(Lower(g)[n]) == Digit(g[n]);
    }
  }

  /** Lower-case digits without superfluous zeros. */
  predicate Plain(g: string) {
    && g != ""
    && (forall i | 0 <= i < |g| :: HexDigit(g[i]) && ToLower(g[i]) == g[i])
    && (|g| > 1 ==> g[0] != '0')
  }

  lemma {:induction false} ZeroInFront(g: string)
    requires g != "" && g[0] == '0' && forall i | 0 <= i < |g| :: HexDigit(g[i])
    ensures Value(g[1..]) == Value(g)
  {
    if |g| > 1 {
      var n := |g| - 1;
      ZeroInFront(g[..n]);
      assert g[..n][1..] == g[1..][..n - 1];
    }
  }

  lemma {:induction false} StrippedIsPlain(g: string)
    requires g != "" && forall i | 0 <= i < |g| :: HexDigit(g[i]) && ToLower(g[i]) == g[i]
    ensures Plain(Stripped(g)) && Value(Stripped(g)) == Value(g)
  {
    if |g| > 1 && g[0] == '0' {
      ZeroInFront(g);
      StrippedIsPlain(g[1..]);
    }
  }

  lemma {:induction false} PlainIsPositive(g: string)
    requires Plain(g) && g[0] != '0'
    ensures Value(g) > 0 && (|g| > 1 ==> Value(g) >= 16)
  {
    if |g| > 1 {
      PlainIsPositive(g[..|g| - 1]);
    } else {
      assert g[..0] == "";
    }
  }

  lemma SameDigit(c: char, d: char)
    requires HexDigit(c) && HexDigit(d) && ToLower(c) == c && ToLower(d) == d && Digit(c) == Digit(d)
    ensures c == d
  {}

  lemma LastDigit(g: string)
    requires Plain(g)
    ensures var n := |g| - 1;
      && HexDigit(g[n]) && ToLower(g[n]) == g[n]
      && Value(g) == 16 * Value(g[..n]) + Digit(g[n])
      && (n == 0 <==> Value(g[..n]) == 0) && (n > 0 ==> Plain(g[..n]))
  {
    if |g| > 1 {
      PlainIsPositive(g[..|g| - 1]);
    }
  }

  lemma SameParts(a: nat, c: nat, b: nat, d: nat)
    requires 16 * a + c == 16 * b + d && c < 16 && d < 16
    ensures a == b && c == d
  {}

  /** Plain groups that stand for one number are one text. */
  lemma {:induction false} PlainIsUnique(g: string, h: string)
    requires Plain(g) && Plain(h) && Value(g) == Value(h)
    ensures g == h
  {
    PlainHasDigits(g);
    PlainHasDigits(h);
    hide Value, Plain, HexDigit, ToLower, Digit;
    var m, n := |g| - 1, |h| - 1;
    LastDigit(g);
    LastDigit(h);
    SameParts(Value(g[..m]), Digit(g[m]), Value(h[..n]), Digit(h[n]));
    SameDigit(g[m], h[n]);
    if m > 0 && n > 0 {
      PlainIsUnique(g[..m], h[..n]);
    }
    assert g == g[..m] + [g[m]] && h == h[..n] + [h[n]];
  }

  lemma PlainHasDigits(g: string)
    requires Plain(g)
    ensures g != "" && forall i | 0 <= i < |g| :: HexDigit(g[i])
  {}

  lemma CanonicalIsPlain(g: string)
    requires HexGroup(g)
    ensures Plain(Canonical(g)) && Value(Canonical(g)) == Value(g)
  {
    LowerKeepsValue(g);
    StrippedIsPlain(Lower(g));
    hide Value, Stripped;
  }

  /** Canonical groups are equal exactly when the numbers are. */
  lemma CanonicalIsValue(g: string, h: string)
    requires HexGroup(g) && HexGroup(h)
    ensures Canonical(g) == Canonical(h) <==> Value(g) == Value(h)
  {
    CanonicalIsPlain(g);
    CanonicalIsPlain(h);
    hide Value, Canonical, Plain, HexGroup, HexDigit;
    if Value(g) == Value(h) {
      PlainIsUnique(Canonical(g), Canonical(h));
    }
  }

  // ---- addresses ------------------------------------------------------------------------------------------------

  /** The text of an address: all groups, or those before and after `::`. */
  datatype Text = Full(groups: seq<string>) | Short(head: seq<string>, tail: seq<string>)

  predicate Dotted(g: string) { '.' in g }

  /** As the code counts: whatever holds a dot stands for two groups. */
  function GroupSpan(groups: seq<string>): nat {
    if groups == [] then 0
    else GroupSpan(groups[..|groups| - 1]) + if Dotted(groups[|groups| - 1]) then 2 else 1
  }

  /** A group without its zone. */
  function Base(g: string): (r: string)
    ensures r <= g && '%' !in r
  {
    if g == "" || g[0] == '%' then "" else [g[0]] + Base(g[1..])
  }

  predicate Zoned(g: string) { '%' in g }

  /** How many groups the last group stands for: a dotted quad for two, a bare zone for none. */
  function LastSpan(g: string): nat {
    if Base(g) == "" then 0 else if Dotted(Base(g)) then 2 else 1
  }

  predicate LastGroup(g: string) {
    HexGroup(Base(g)) || Dotted(Base(g))
  }

  /** How many groups of the address a list of groups stands for. */
  function Span(groups: seq<string>): nat {
    if groups == [] then 0 else |groups| - 1 + LastSpan(groups[|groups| - 1])
  }

  /** Hexadecimal groups; the last one may be a dotted quad, and may carry a zone. */
  predicate WellWritten(groups: seq<string>) {
    groups != [] ==>
      var n := |groups| - 1;
      && (forall i | 0 <= i < n :: HexGroup(groups[i]))
      && (LastGroup(groups[n]) || (n == 0 && Zoned(groups[0]) && Base(groups[0]) == ""))
  }

  /** What is accepted as an IPv6 address: eight groups, or fewer around one `::`. */
  predicate Valid(t: Text) {
    match t
    case Full(groups) => WellWritten(groups) && Span(groups) == 8
    case Short(head, tail) =>
      (forall i | 0 <= i < |head| :: HexGroup(head[i])) && WellWritten(tail) && |head| + Span(tail) <= 7
  }

  function Expanded(t: Text): seq<string> {
    match t
    case Full(groups) => groups
    case Short(head, tail) =>
      var zeros := 8 - GroupSpan(head) - GroupSpan(tail);
      head + seq(if zeros > 0 then zeros else 0, _ => "0") + tail
  }

  /** `ipv6Prefix64`, before its groups are joined with colons. */
  function Prefix64(t: Text): seq<string> {
    var groups := Expanded(t);
    var first := if |groups| < 4 then groups else groups[..4];
    seq(|first|, i requires 0 <= i < |first| => Canonical(first[i]))
  }

  lemma HexIsPlainText(g: string)
    requires HexGroup(g)
    ensures !Dotted(g) && !Zoned(g) && ':' !in g
  {}

  lemma {:induction false} BaseOfUnzoned(g: string)
    requires !Zoned(g)
    ensures Base(g) == g
  {
    if g != "" {
      BaseOfUnzoned(g[1..]);
    }
  }

  lemma {:induction false} HexSpan(groups: seq<string>)
    requires forall i | 0 <= i < |groups| :: HexGroup(groups[i])
    ensures GroupSpan(groups) == |groups|
  {
    if groups != [] {
      HexSpan(groups[..|groups| - 1]);
      HexIsPlainText(groups[|groups| - 1]);
    }
  }

  lemma TailSpan(groups: seq<string>)
    requires WellWritten(groups) && groups != []
    ensures GroupSpan(groups) == |groups| - 1 + if Dotted(groups[|groups| - 1]) then 2 else 1
  {
    HexSpan(groups[..|groups| - 1]);
  }

  /** How many groups the `::` stands for. */
  function Missing(t: Text): (m: nat)
    requires Valid(t) && t.Short?
    ensures m >= 1
  {
    8 - |t.head| - Span(t.tail)
  }

  /** The `i`th group of the address, read off the text: `::` stands for the zeros that are missing. */
  function GroupAt(t: Text, i: nat): (g: string)
    requires Valid(t) && i < 4
    ensures HexGroup(g)
  {
    match t
    case Full(groups) => groups[i]
    case Short(head, tail) =>
      if i < |head| then head[i] else if i < |head| + Missing(t) then "0" else tail[i - |head| - Missing(t)]
  }

  /** The `i`th 16-bit group of the address as a number. */
  function Hextet(t: Text, i: nat): nat
    requires Valid(t) && i < 4
  {
    Value(GroupAt(t, i))
  }

  /** The zone of the last group holds a dot, so that the code counts a hexadecimal group for two. */
  predicate DottedZone(t: Text) {
    t.Short? && t.tail != [] &&
    var g := t.tail[|t.tail| - 1];
    Dotted(g) && HexGroup(Base(g))
  }

  /** Such a zone moves the groups after `::` up by one; those that come up into the first four are all zero. */
  predicate Undisturbed(t: Text)
    requires Valid(t)
  {
    DottedZone(t) ==> forall j | 0 <= j < 5 - |t.head| - Missing(t) :: Value(t.tail[j]) == 0
  }

  lemma ShortExpands(t: Text)
    requires Valid(t) && t.Short?
    ensures GroupSpan(t.head) == |t.head|
    ensures t.tail == [] || Base(t.tail[|t.tail| - 1]) == "" || DottedZone(t)
            || GroupSpan(t.tail) == Span(t.tail)
    ensures DottedZone(t) ==> GroupSpan(t.tail) == Span(t.tail) + 1 && Span(t.tail) == |t.tail|
    ensures t.tail != [] && Base(t.tail[|t.tail| - 1]) == "" ==> |t.tail| == 1 && 1 <= GroupSpan(t.tail) <= 2
  {
    hide HexGroup;
    HexSpan(t.head);
    if t.tail != [] {
      TailSpan(t.tail);
      var g := t.tail[|t.tail| - 1];
      DotOfBase(g);
      hide Base;
    }
  }

  lemma DottedIsShort(t: Text)
    ensures DottedZone(t) ==> t.Short? && t.tail != []
  {
    hide HexGroup, Base, Dotted;
  }

  lemma DotOfBase(g: string)
    ensures Dotted(Base(g)) ==> Dotted(g)
    ensures HexGroup(Base(g)) ==> !Dotted(Base(g)) && Base(g) != ""
  {
    if HexGroup(Base(g)) {
      HexIsPlainText(Base(g));
    }
  }

  /** How many zeros the code puts for `::`. */
  function Zeros(t: Text): nat
    requires t.Short?
  {
    var zeros := 8 - GroupSpan(t.head) - GroupSpan(t.tail);
    if zeros > 0 then zeros else 0
  }

  lemma ShortIs(t: Text, i: nat)
    requires t.Short?
    ensures |Expanded(t)| == |t.head| + Zeros(t) + |t.tail|
    ensures i < |t.head| ==> Expanded(t)[i] == t.head[i]
    ensures |t.head| <= i < |t.head| + Zeros(t) ==> Expanded(t)[i] == "0"
    ensures |t.head| + Zeros(t) <= i < |Expanded(t)| ==> Expanded(t)[i] == t.tail[i - |t.head| - Zeros(t)]
  {
    hide GroupSpan;
  }

  /** The zeros are those that are missing, but for one too few behind a dotted zone, or before a bare zone. */
  lemma ZerosAre(t: Text)
    requires Valid(t) && t.Short?
    ensures if DottedZone(t) then Zeros(t) == Missing(t) - 1 && |t.head| + Missing(t) + |t.tail| == 8
            else (Zeros(t) == Missing(t)
                  || (|t.tail| == 1 && |t.head| + Missing(t) == 8 && |t.head| + Zeros(t) >= 6))
  {
    ShortExpands(t);
    hide GroupSpan, HexGroup, Dotted, Base, DottedZone;
  }

  lemma GroupIs(t: Text, i: nat)
    requires Valid(t) && i < 4
    ensures t.Short? && i < |t.head| ==> GroupAt(t, i) == t.head[i]
    ensures t.Short? && |t.head| <= i < |t.head| + Missing(t) ==> GroupAt(t, i) == "0"
    ensures t.Short? && |t.head| + Missing(t) <= i ==> GroupAt(t, i) == t.tail[i - |t.head| - Missing(t)]
    ensures t.Full? ==> |t.groups| >= 4 && GroupAt(t, i) == t.groups[i]
  {
    hide HexGroup, Dotted, Base;
  }

  /** Expanding puts every group where the address has it, except behind a dotted zone. */
  lemma ExpandedAt(t: Text, i: nat)
    requires Valid(t) && i < 4
    ensures |Expanded(t)| >= 4
    ensures Expanded(t)[i] ==
      if DottedZone(t) && i >= |t.head| + Missing(t) - 1 then t.tail[i - (|t.head| + Missing(t) - 1)]
      else GroupAt(t, i)
  {
    hide *;
    DottedIsShort(t);
    GroupIs(t, i);
    if t.Short? {
      ZerosAre(t);
      ShortIs(t, i);
      AtLeastFour(t);
    } else {
      FullIs(t);
    }
  }

  lemma FullIs(t: Text)
    ensures t.Full? ==> Expanded(t) == t.groups
  {
  }

  lemma AtLeastFour(t: Text)
    requires Valid(t) && t.Short?
    ensures |t.head| + Zeros(t) + |t.tail| >= 4 && |t.head| + Missing(t) + |t.tail| >= 7
  {
    ZerosAre(t);
    hide GroupSpan, HexGroup, Dotted, DottedZone, Zeros;
  }

  lemma KeyAt(t: Text, i: nat)
    requires Valid(t) && i < 4
    ensures |Prefix64(t)| == 4 && Prefix64(t)[i] == Canonical(Expanded(t)[i])
  {
    hide Valid, Expanded, GroupAt, Canonical;
    ExpandedAt(t, i);
  }

  ghost predicate RightAt(t: Text, i: nat)
    requires Valid(t) && i < 4
  {
    |Prefix64(t)| == 4 && Prefix64(t)[i] == Canonical(GroupAt(t, i))
  }

  /** Every group of the key is the canonical form of the group of the address. */
  ghost predicate KeyIsRight(t: Text)
    requires Valid(t)
  {
    forall i | 0 <= i < 4 :: RightAt(t, i)
  }

  /** Behind a dotted zone group `i` of the key is group `i + 1` of the address, and so is right only if it repeats. */
  lemma ShiftedAt(t: Text, j: nat)
    requires Valid(t) && DottedZone(t) && j < 5 - |t.head| - Missing(t)
    ensures j < |t.tail| && HexGroup(t.tail[j])
    ensures var i := |t.head| + Missing(t) - 1 + j;
      && Expanded(t)[i] == t.tail[j]
      && GroupAt(t, i) == if j == 0 then "0" else t.tail[j - 1]
  {
    hide Dotted, Base, Prefix64;
    ShortExpands(t);
    ExpandedAt(t, |t.head| + Missing(t) - 1 + j);
    hide HexGroup, Expanded;
  }

  lemma ZerosFromRight(t: Text, j: nat)
    requires Valid(t) && DottedZone(t) && KeyIsRight(t) && j < 5 - |t.head| - Missing(t)
    ensures j < |t.tail| && HexGroup(t.tail[j]) && Value(t.tail[j]) == 0
  {
    hide Valid, Expanded, Prefix64, GroupAt, Canonical, DottedZone;
    DottedIsShort(t);
    ShiftedAt(t, j);
    var i := |t.head| + Missing(t) - 1 + j;
    KeyAt(t, i);
    assert RightAt(t, i);
    CanonicalIsValue(t.tail[j], GroupAt(t, i));
    if j > 0 {
      ZerosFromRight(t, j - 1);
    } else {
      ZeroIsZero();
    }
  }

  lemma ZeroIsZero()
    ensures HexGroup("0") && Value("0") == 0
  {
    assert "0"[..0] == "";
  }

  lemma RightFromZeros(t: Text, i: nat)
    requires Valid(t) && DottedZone(t) && Undisturbed(t) && i < 4
    ensures |Prefix64(t)| == 4 && Prefix64(t)[i] == Canonical(GroupAt(t, i))
  {
    hide Valid, Expanded, Prefix64, GroupAt, Canonical, DottedZone;
    DottedIsShort(t);
    KeyAt(t, i);
    ExpandedAt(t, i);
    var p := |t.head| + Missing(t) - 1;
    if i >= p {
      ShiftedAt(t, i - p);
      CanonicalIsValue(t.tail[i - p], GroupAt(t, i));
      ZeroIsZero();
    }
  }

  /** The key is made of the first four groups of the address exactly when no dotted zone disturbs them. */
  lemma KeyIsRightExactly(t: Text)
    requires Valid(t)
    ensures KeyIsRight(t) <==> Undisturbed(t)
  {
    hide Valid, Expanded, Prefix64, GroupAt, Canonical;
    DottedIsShort(t);
    if DottedZone(t) {
      hide DottedZone;
      if KeyIsRight(t) {
        forall j: nat | j < 5 - |t.head| - Missing(t)
          ensures j < |t.tail| && HexGroup(t.tail[j]) && Value(t.tail[j]) == 0
        {
          ZerosFromRight(t, j);
        }
      } else if Undisturbed(t) {
        forall i | 0 <= i < 4
          ensures RightAt(t, i)
        {
          RightFromZeros(t, i);
        }
      }
    } else {
      hide DottedZone;
      forall i | 0 <= i < 4
        ensures RightAt(t, i)
      {
        KeyAt(t, i);
        ExpandedAt(t, i);
      }
    }
  }

  /** Two texts get the same key exactly when the addresses agree in their first 64 bits. */
  lemma KeyIsFirstBits(t: Text, u: Text)
    requires Valid(t) && Valid(u) && Undisturbed(t) && Undisturbed(u)
    ensures Prefix64(t) == Prefix64(u) <==> SamePrefix(t, u)
  {
    hide Prefix64, Valid, GroupAt, Canonical, Undisturbed;
    KeyIsRightExactly(t);
    KeyIsRightExactly(u);
    forall i | 0 <= i < 4
      ensures |Prefix64(t)| == 4 == |Prefix64(u)|
      ensures Prefix64(t)[i] == Prefix64(u)[i] <==> Hextet(t, i) == Hextet(u, i)
    {
      assert RightAt(t, i) && RightAt(u, i);
      CanonicalIsValue(GroupAt(t, i), GroupAt(u, i));
    }
    KeyAt(t, 0);
    KeyAt(u, 0);
  }

  /** The addresses agree in their first 64 bits. */
  ghost predicate SamePrefix(t: Text, u: Text)
    requires Valid(t) && Valid(u)
  {
    forall i | 0 <= i < 4 :: Hextet(t, i) == Hextet(u, i)
  }

  // ---- the key of the limiter -------------------------------------------------------------------------------------

  datatype Key = Key(text: string)

  /** An address as the server names its peer: an IPv6 address, or anything else, which has no colon. */
  datatype Ip = V6(t: Text) | Other(text: string)

  predicate ValidIp(ip: Ip) {
    match ip
    case V6(t) => Valid(t) && Undisturbed(t)
    case Other(text) => ':' !in text
  }

  /** `join(':')`. */
  function Joined(groups: seq<string>): string {
    if groups == [] then "" else if |groups| == 1 then groups[0] else groups[0] + ":" + Joined(groups[1..])
  }

  /** `bucketKey`. */
  function BucketKey(ip: Ip): Key {
    match ip
    case V6(t) => Key(Joined(Prefix64(t)) + "::/64")
    case Other(text) => Key(text)
  }

  lemma {:induction false} FirstColon(a: string, x: string, b: string, y: string)
    requires ':' !in a && ':' !in b && a + ":" + x == b + ":" + y
    ensures a == b && x == y
  {
    var s := a + ":" + x;
    assert s[|a|] == ':' && s[|b|] == ':';
    assert forall i | 0 <= i < |a| :: s[i] == a[i];
    assert forall i | 0 <= i < |b| :: s[i] == b[i];
    assert s[..|a|] == a && s[..|b|] == b && s[|a| + 1..] == x && s[|b| + 1..] == y;
  }

  /** Joining as many groups without colons loses nothing. */
  lemma {:induction false} JoinedOnce(g: seq<string>, h: seq<string>)
    requires |g| == |h| && (forall i | 0 <= i < |g| :: ':' !in g[i] && ':' !in h[i])
    requires Joined(g) == Joined(h)
    ensures g == h
  {
    if |g| > 1 {
      FirstColon(g[0], Joined(g[1..]), h[0], Joined(h[1..]));
      JoinedOnce(g[1..], h[1..]);
      assert g == [g[0]] + g[1..] && h == [h[0]] + h[1..];
    }
  }

  lemma CanonicalHasNoColon(g: string)
    requires HexGroup(g)
    ensures ':' !in Canonical(g)
  {
    LowerKeepsValue(g);
    StrippedIsPlain(Lower(g));
  }

  lemma KeyGroups(t: Text)
    requires Valid(t) && Undisturbed(t)
    ensures |Prefix64(t)| == 4 && forall i | 0 <= i < 4 :: ':' !in Prefix64(t)[i]
  {
    hide Prefix64, Valid, GroupAt, Canonical, Undisturbed;
    KeyIsRightExactly(t);
    forall i | 0 <= i < 4
      ensures |Prefix64(t)| == 4 && ':' !in Prefix64(t)[i]
    {
      assert RightAt(t, i);
      CanonicalHasNoColon(GroupAt(t, i));
    }
    KeyAt(t, 0);
  }

  /** Two peers share a bucket exactly when both are IPv6 addresses in one /64, or neither is and the texts are equal. */
  ghost predicate SharesBucket(a: Ip, b: Ip)
    requires ValidIp(a) && ValidIp(b)
  {
    match (a, b)
    case (V6(t), V6(u)) => SamePrefix(t, u)
    case (Other(x), Other(y)) => x == y
    case _ => false
  }

  lemma BucketKeyExactly(a: Ip, b: Ip)
    requires ValidIp(a) && ValidIp(b)
    ensures BucketKey(a) == BucketKey(b) <==> SharesBucket(a, b)
  {
    hide Prefix64, Joined, SamePrefix, Undisturbed, Valid;
    match (a, b)
    case (V6(t), V6(u)) =>
      KeyIsFirstBits(t, u);
      KeyGroups(t);
      KeyGroups(u);
      if BucketKey(a) == BucketKey(b) {
        SameEnding(Joined(Prefix64(t)), Joined(Prefix64(u)), "::/64");
        JoinedOnce(Prefix64(t), Prefix64(u));
      }
    case (V6(t), Other(_)) => assert "::/64"[0] in BucketKey(a).text;
    case (Other(_), V6(u)) => assert "::/64"[0] in BucketKey(b).text;
    case (Other(_), Other(_)) =>
  }

  lemma SameEnding(x: string, y: string, end: string)
    requires x + end == y + end
    ensures x == y
  {
    assert (x + end)[..|x|] == x && (y + end)[..|y|] == y;
  }

  const Seven := ["1", "2", "3", "4", "5", "6", "7"]

  /** `::1:2:3:4:5:6:7` without a zone, and with a zone that holds a dot. */
  const Unzoned := Short([], Seven)
  const ZonedTwin := Short([], Seven[6 := "7%a.b"])

  lemma TwinsAreValid()
    ensures Valid(Unzoned) && Valid(ZonedTwin) && !DottedZone(Unzoned) && DottedZone(ZonedTwin)
    ensures Missing(Unzoned) == 1 && Missing(ZonedTwin) == 1
  {
    assert Base("7%a.b") == "7" by {
      assert Base("7%a.b"[1..]) == "";
    }
    assert Base("7") == "7" by {
      assert Base("7"[1..]) == "";
    }
    assert "7%a.b"[3] == '.';
  }

  lemma OneIsOne()
    ensures Value("1") == 1
  {
    assert "1"[..0] == "";
  }

  /** A dotted zone can give one address two keys, and its network two buckets. */
  lemma ADottedZoneCanSplit()
    ensures exists t, u :: Valid(t) && Valid(u) && SamePrefix(t, u) && Prefix64(t) != Prefix64(u)
  {
    TwinsAreValid();
    hide Prefix64, Valid, Canonical, Missing, DottedZone, Value;
    assert forall i | 0 <= i < 4 :: GroupAt(Unzoned, i) == GroupAt(ZonedTwin, i);
    assert SamePrefix(Unzoned, ZonedTwin);
    OneIsOne();
    assert ZonedTwin.tail[0] == "1";
    assert !Undisturbed(ZonedTwin);
    assert Undisturbed(Unzoned);
    hide GroupAt;
    KeyIsRightExactly(Unzoned);
    KeyIsRightExactly(ZonedTwin);
    if Prefix64(Unzoned) == Prefix64(ZonedTwin) {
      forall i | 0 <= i < 4
        ensures RightAt(ZonedTwin, i)
      {
        assert GroupAt(Unzoned, i) == GroupAt(ZonedTwin, i);
        assert RightAt(Unzoned, i);
      }
    }
  }
}
