/**
 The build's preload list: a worklist over the static imports of the entry and of the chunks it reaches.  The import
 specifiers of a source are given as the list of base names the build's pattern finds in it, in order.
 */
module Preload {
  datatype Path = Path(text: string)
  datatype Base = Base(text: string)

  /** What the build knows: the chunk each base name stands for, and the static imports of each source. */
  datatype Build = Build(byBasename: map<Base, Path>, sources: map<Path, seq<Base>>) {
    /** The base names a file imports; a file without a source imports nothing. */
    function Imports(p: Path): seq<Base> {
      if p in sources then sources[p] else []
    }

    /** Base names that stand for a chunk other than the entry. */
    predicate Chunk(b: Base, entryBase: Base) {
      b in byBasename && b != entryBase
    }

    /** A chain of static imports that starts at the entry and passes only through chunks. */
    ghost predicate Chain(c: seq<Base>, entry: Path, entryBase: Base) {
      && c != []
      && c[0] in Imports(entry)
      && (forall i | 0 <= i < |c| :: Chunk(c[i], entryBase))
      && (forall i | 0 < i < |c| :: Linked(c[i - 1], c[i]))
    }

    ghost predicate Linked(a: Base, b: Base) {
      a in byBasename && b in Imports(byBasename[a])
    }

    ghost predicate Reachable(b: Base, entry: Path, entryBase: Base) {
      exists c :: Chain(c, entry, entryBase) && c[|c| - 1] == b
    }

    /** The file is the entry or the chunk of a base name in `reached`. */
    ghost predicate Known(p: Path, reached: set<Base>, entry: Path) {
      p == entry || exists b :: b in reached && b in byBasename && byBasename[b] == p
    }
  }

  lemma ChainExtends(g: Build, c: seq<Base>, b: Base, entry: Path, entryBase: Base)
    requires g.Chain(c, entry, entryBase) && g.Linked(c[|c| - 1], b) && g.Chunk(b, entryBase)
    ensures g.Chain(c + [b], entry, entryBase)
  {
    var longer := c + [b];
    forall i | 0 < i < |longer|
      ensures g.Linked(longer[i - 1], longer[i])
    {
      if i < |c| {
        assert g.Linked(c[i - 1], c[i]);
      }
    }
  }

  lemma ReachableFrom(g: Build, p: Path, b: Base, reached: set<Base>, entry: Path, entryBase: Base)
    requires g.Known(p, reached, entry) && b in g.Imports(p) && g.Chunk(b, entryBase)
    requires forall x | x in reached :: g.Reachable(x, entry, entryBase)
    ensures g.Reachable(b, entry, entryBase)
  {
    if p == entry {
      assert g.Chain([b], entry, entryBase) && [b][|[b]| - 1] == b;
    } else {
      var a :| a in reached && a in g.byBasename && g.byBasename[a] == p;
      var c :| g.Chain(c, entry, entryBase) && c[|c| - 1] == a;
      ChainExtends(g, c, b, entry, entryBase);
      assert (c + [b])[|c + [b]| - 1] == b;
    }
  }

  /** If the imports of every known file have been taken up, the whole chain has been reached. */
  lemma {:induction false} ChainIsReached(g: Build, c: seq<Base>, visited: set<Base>, reached: set<Base>, entry: Path,
                                          entryBase: Base)
    requires g.Chain(c, entry, entryBase)
    requires forall b :: b in reached <==> b in visited && g.Chunk(b, entryBase)
    requires forall p, b | g.Known(p, reached, entry) && b in g.Imports(p) :: b in visited
    ensures c[|c| - 1] in reached
  {
    var n := |c| - 1;
    if n == 0 {
      assert g.Known(entry, reached, entry);
    } else {
      var init := c[..n];
      assert g.Chain(init, entry, entryBase);
      ChainIsReached(g, init, visited, reached, entry, entryBase);
      assert init[|init| - 1] == c[n - 1];
      assert g.Linked(c[n - 1], c[n]);
      assert g.Known(g.byBasename[c[n - 1]], reached, entry);
    }
  }

  /** What the worklist keeps: everything reached is reachable, and only queued files still have imports to take up. */
  ghost predicate Inv(g: Build, entry: Path, entryBase: Base, visited: set<Base>, reached: set<Base>, queue: seq<Path>) {
    && (forall b :: b in reached <==> b in visited && g.Chunk(b, entryBase))
    && (forall b | b in reached :: g.Reachable(b, entry, entryBase))
    && (forall p | p in queue :: g.Known(p, reached, entry))
    && (forall p, b | g.Known(p, reached, entry) && p !in queue && b in g.Imports(p) :: b in visited)
  }

  /** How much is left: chunks not reached yet, and files queued. */
  function Left(g: Build, reached: set<Base>, queue: seq<Path>): nat {
    |g.byBasename.Keys - reached| + |queue|
  }

  /** An import that stands for a new chunk is reached and queued. */
  lemma ChunkTakenUp(g: Build, entry: Path, entryBase: Base, current: Path, base: Base, visited: set<Base>,
                     reached: set<Base>, queue: seq<Path>)
    requires g.Known(current, reached, entry) && base in g.Imports(current)
    requires base !in visited && g.Chunk(base, entryBase)
    requires Inv(g, entry, entryBase, visited, reached, queue + [current])
    ensures Inv(g, entry, entryBase, visited + {base}, reached + {base}, queue + [g.byBasename[base]] + [current])
    ensures Left(g, reached + {base}, queue + [g.byBasename[base]]) == Left(g, reached, queue)
  {
    ReachableFrom(g, current, base, reached, entry, entryBase);
    var reached', queue' := reached + {base}, queue + [g.byBasename[base]];
    assert g.byBasename.Keys - reached == g.byBasename.Keys - reached' + {base};
    assert base !in reached;
    forall p | g.Known(p, reached', entry)
      ensures g.Known(p, reached, entry) || p == g.byBasename[base]
    {}
    forall p | g.Known(p, reached, entry)
      ensures g.Known(p, reached', entry)
    {}
    assert g.Known(g.byBasename[base], reached', entry);
    assert forall p :: p in queue' + [current] <==> p in queue + [current] || p == g.byBasename[base];
  }

  /** Any other import is only marked visited. */
  lemma OtherTakenUp(g: Build, entry: Path, entryBase: Base, base: Base, visited: set<Base>, reached: set<Base>,
                     queue: seq<Path>)
    requires !g.Chunk(base, entryBase) && Inv(g, entry, entryBase, visited, reached, queue)
    ensures Inv(g, entry, entryBase, visited + {base}, reached, queue)
  {}

  /** One import taken up. */
  method TakeUp(g: Build, entry: Path, entryBase: Base, ghost current: Path, base: Base, visited: set<Base>,
                reached: set<Base>, queue: seq<Path>)
    returns (visited': set<Base>, reached': set<Base>, queue': seq<Path>)
    requires entryBase in visited
    requires g.Known(current, reached, entry) && base in g.Imports(current)
    requires Inv(g, entry, entryBase, visited, reached, queue + [current])
    ensures Inv(g, entry, entryBase, visited', reached', queue' + [current])
    ensures visited' == visited + {base} && reached <= reached'
    ensures Left(g, reached', queue') == Left(g, reached, queue)
  {
    hide Inv, Left;
    visited', reached', queue' := visited, reached, queue;
    if base in visited {
      assert visited + {base} == visited;
      return;
    }
    visited' := visited + {base};
    if base in g.byBasename {
      ChunkTakenUp(g, entry, entryBase, current, base, visited, reached, queue);
      reached' := reached + {base};
      queue' := queue + [g.byBasename[base]];
    } else {
      OtherTakenUp(g, entry, entryBase, base, visited, reached, queue + [current]);
    }
  }

  /** The file at the head of the queue is set aside while its imports are taken up. */
  lemma HeadSetAside(g: Build, entry: Path, entryBase: Base, visited: set<Base>, reached: set<Base>, queue: seq<Path>)
    requires |queue| > 0 && Inv(g, entry, entryBase, visited, reached, queue)
    ensures Inv(g, entry, entryBase, visited, reached, queue[1..] + [queue[0]])
    ensures g.Known(queue[0], reached, entry)
    ensures Left(g, reached, queue[1..]) == Left(g, reached, queue) - 1
  {
    assert forall p :: p in queue <==> p in queue[1..] + [queue[0]];
  }

  lemma HeadDone(g: Build, entry: Path, entryBase: Base, visited: set<Base>, reached: set<Base>, queue: seq<Path>,
                 current: Path)
    requires Inv(g, entry, entryBase, visited, reached, queue + [current])
    requires forall b | b in g.Imports(current) :: b in visited
    ensures Inv(g, entry, entryBase, visited, reached, queue)
  {
    assert forall p :: p in queue + [current] <==> p in queue || p == current;
  }

  lemma KnownGrows(g: Build, p: Path, reached: set<Base>, reached': set<Base>, entry: Path)
    requires g.Known(p, reached, entry) && reached <= reached'
    ensures g.Known(p, reached', entry)
  {}

  /** The inner loop: all imports of one file. */
  method TakeUpAll(g: Build, entry: Path, entryBase: Base, current: Path, visited: set<Base>, reached: set<Base>,
                   queue: seq<Path>)
    returns (visited': set<Base>, reached': set<Base>, queue': seq<Path>)
    requires entryBase in visited && g.Known(current, reached, entry)
    requires Inv(g, entry, entryBase, visited, reached, queue + [current])
    ensures Inv(g, entry, entryBase, visited', reached', queue')
    ensures visited <= visited'
    ensures Left(g, reached', queue') == Left(g, reached, queue)
  {
    hide Inv, Left;
    visited', reached', queue' := visited, reached, queue;
    var specs := g.Imports(current);
    for i := 0 to |specs|
      invariant visited <= visited' && reached <= reached'
      invariant Inv(g, entry, entryBase, visited', reached', queue' + [current])
      invariant forall k | 0 <= k < i :: specs[k] in visited'
      invariant Left(g, reached', queue') == Left(g, reached, queue)
    {
      KnownGrows(g, current, reached, reached', entry);
      visited', reached', queue' := TakeUp(g, entry, entryBase, current, specs[i], visited', reached', queue');
    }
    HeadDone(g, entry, entryBase, visited', reached', queue', current);
  }

  lemma StartInv(g: Build, entry: Path, entryBase: Base)
    ensures Inv(g, entry, entryBase, {entryBase}, {}, [entry])
  {}

  /** With nothing queued, what is reached is what is reachable. */
  lemma EmptyQueueIsExact(g: Build, entry: Path, entryBase: Base, visited: set<Base>, reached: set<Base>)
    requires Inv(g, entry, entryBase, visited, reached, [])
    ensures forall b :: b in reached <==> g.Reachable(b, entry, entryBase)
  {
    forall b | g.Reachable(b, entry, entryBase)
      ensures b in reached
    {
      var c :| g.Chain(c, entry, entryBase) && c[|c| - 1] == b;
      ChainIsReached(g, c, visited, reached, entry, entryBase);
    }
  }

  /**
   The chunks to preload: exactly those a chain of static imports reaches from the entry, whatever the graph, cycles
   included.
   */
  method CollectStaticImportChunks(g: Build, entry: Path, entryBase: Base) returns (reached: set<Base>)
    ensures forall b :: b in reached <==> g.Reachable(b, entry, entryBase)
  {
    hide Inv, Left;
    reached := {};
    var visited := {entryBase};
    var queue := [entry];
    StartInv(g, entry, entryBase);
    while |queue| > 0
      invariant entryBase in visited
      invariant Inv(g, entry, entryBase, visited, reached, queue)
      decreases Left(g, reached, queue)
    {
      HeadSetAside(g, entry, entryBase, visited, reached, queue);
      var current := queue[0];
      queue := queue[1..];
      visited, reached, queue := TakeUpAll(g, entry, entryBase, current, visited, reached, queue);
    }
    assert queue == [];
    EmptyQueueIsExact(g, entry, entryBase, visited, reached);
  }
}
