/** Markdown trees and the text they show. */
module MarkdownTree {
  datatype Node =
    | Text(value: string)
    | Strong(children: seq<Node>)
    | Emphasis(children: seq<Node>)
    | Code(value: string)
    | CodeBlock(value: string)
    | Link(url: string, text: string)
    | Break

  /** The number of nodes, nested ones included. */
  function Size(n: Node): nat {
    if n.Strong? || n.Emphasis? then 1 + Sizes(n.children) else 1
  }

  function Sizes(ns: seq<Node>): nat {
    if ns == [] then 0 else Sizes(ns[..|ns| - 1]) + Size(ns[|ns| - 1])
  }

  /** How deep strong and emphasis nest. */
  function Height(n: Node): nat {
    if n.Strong? || n.Emphasis? then 1 + Heights(n.children) else 0
  }

  function Heights(ns: seq<Node>): nat {
    if ns == [] then 0 else Max(Heights(ns[..|ns| - 1]), Height(ns[|ns| - 1]))
  }

  function Max(a: nat, b: nat): nat { if a <= b then b else a }

  /** The text a reader sees. */
  function Shown(n: Node): string {
    match n
    case Text(v) => v
    case Code(v) => v
    case CodeBlock(v) => v
    case Link(_, text) => text
    case Break => "\n"
    case Strong(children) => ShownAll(children)
    case Emphasis(children) => ShownAll(children)
  }

  function ShownAll(ns: seq<Node>): string {
    if ns == [] then "" else ShownAll(ns[..|ns| - 1]) + Shown(ns[|ns| - 1])
  }

  lemma PushNode(ns: seq<Node>, n: Node)
    ensures Sizes(ns + [n]) == Sizes(ns) + Size(n)
    ensures Heights(ns + [n]) == Max(Heights(ns), Height(n))
    ensures ShownAll(ns + [n]) == ShownAll(ns) + Shown(n)
  {
    assert (ns + [n])[..|ns|] == ns;
  }

  lemma {:induction false} PushAll(ns: seq<Node>, ms: seq<Node>)
    ensures Sizes(ns + ms) == Sizes(ns) + Sizes(ms)
    ensures Heights(ns + ms) == Max(Heights(ns), Heights(ms))
    ensures ShownAll(ns + ms) == ShownAll(ns) + ShownAll(ms)
  {
    if ms == [] {
      assert ns + ms == ns;
    } else {
      hide Sizes, Heights, ShownAll, Size, Height, Shown;
      var init, last := ms[..|ms| - 1], ms[|ms| - 1];
      PushAll(ns, init);
      PushNode(ns + init, last);
      PushNode(init, last);
      assert ms == init + [last] && ns + ms == ns + init + [last];
    }
  }

  /** `a` is `b` with some characters left out. */
  predicate Subsequence(a: string, b: string)
    decreases |b|
  {
    if a == "" then true
    else if b == "" then false
    else
      || Subsequence(a, b[..|b| - 1])
      || (a[|a| - 1] == b[|b| - 1] && Subsequence(a[..|a| - 1], b[..|b| - 1]))
  }

  lemma {:induction false} SubsequenceAppend(a: string, b: string, c: string, d: string)
    requires Subsequence(a, b) && Subsequence(c, d)
    ensures Subsequence(a + c, b + d)
    decreases |d|
  {
    if d == "" {
      assert a + c == a && b + d == b;
    } else {
      assert (b + d)[..|b + d| - 1] == b + d[..|d| - 1];
      if c == "" || Subsequence(c, d[..|d| - 1]) {
        SubsequenceAppend(a, b, c, d[..|d| - 1]);
      } else {
        SubsequenceAppend(a, b, c[..|c| - 1], d[..|d| - 1]);
        assert (a + c)[..|a + c| - 1] == a + c[..|c| - 1];
      }
    }
  }

  lemma {:induction false} SubsequenceSelf(a: string)
    ensures Subsequence(a, a)
    decreases |a|
  {
    if a != "" {
      SubsequenceSelf(a[..|a| - 1]);
    }
  }

  /** A subsequence of a slice is one of every wider slice. */
  lemma SubsequenceWiden(a: string, s: string, i: nat, j: nat, i': nat, j': nat)
    requires i' <= i <= j <= j' <= |s| && Subsequence(a, s[i..j])
    ensures Subsequence(a, s[i'..j'])
  {
    SubsequenceAppend("", s[i'..i], a, s[i..j]);
    assert "" + a == a;
    SubsequenceAppend(a, s[i'..i] + s[i..j], "", s[j..j']);
    assert a + "" == a;
    assert s[i'..j'] == s[i'..i] + s[i..j] + s[j..j'];
  }

  /** What one slice shows, followed by what the next shows. */
  lemma SubsequenceJoin(a: string, b: string, s: string, i: nat, j: nat, k: nat)
    requires i <= j <= k <= |s| && Subsequence(a, s[i..j]) && Subsequence(b, s[j..k])
    ensures Subsequence(a + b, s[i..k])
  {
    SubsequenceAppend(a, s[i..j], b, s[j..k]);
    assert s[i..k] == s[i..j] + s[j..k];
  }
}
