/** Transitive closure over the import graph of the source files, with a cache that
    outlives the single call. */
module DependencyTree {
  import opened Wrappers

  type Filename = string

  /** The functions that closures are taken of: the cache has a table for each. */
  datatype Extract = ImmediateDependencies | OtherExtract(id: nat)

  /** The nodes of the stack, each with the number of nodes below it. */
  class Stack {
    var depth: map<Filename, nat>

    constructor ()
      ensures depth == map[]
    {
      depth := map[];
    }

    ghost predicate Valid()
      reads this
    {
      forall n <- depth :: depth[n] < |depth|
    }
  }

  class DependencyTree {
    const cimportedFiles: Filename -> seq<Filename>
    const includedFiles: Filename -> set<Filename>
    const otherExtract: (nat, Filename) -> set<Filename>
    var transitiveCache: map<Extract, map<Filename, set<Filename>>>

    /** All the files there are. */
    ghost const files: set<Filename>

    constructor (cimportedFiles: Filename -> seq<Filename>, includedFiles: Filename -> set<Filename>,
                 otherExtract: (nat, Filename) -> set<Filename>, ghost files: set<Filename>)
      requires forall f <- files, g <- cimportedFiles(f) :: g in files
      ensures Valid() && transitiveCache == map[] && this.files == files
      ensures this.cimportedFiles == cimportedFiles && this.includedFiles == includedFiles
        && this.otherExtract == otherExtract
    {
      this.cimportedFiles, this.includedFiles, this.otherExtract := cimportedFiles, includedFiles, otherExtract;
      this.files := files;
      transitiveCache := map[];
    }

    function ExtractOf(e: Extract, f: Filename): set<Filename> {
      match e
      case ImmediateDependencies => {f} + (set g | g in cimportedFiles(f)) + includedFiles(f)
      case OtherExtract(id) => otherExtract(id, f)
    }

    // ---------------------------------------------------------------- reachability

    ghost predicate IsPath(p: seq<Filename>) {
      p != [] && forall i, j :: 0 <= i < |p| - 1 && j == i + 1 ==> p[j] in cimportedFiles(p[i])
    }

    ghost predicate Reaches(m: Filename, n: Filename) {
      exists p :: IsPath(p) && p[0] == m && p[|p| - 1] == n
    }

    /** The union of `extract` over the files that `n` reaches. */
    ghost predicate IsClosure(e: Extract, n: Filename, deps: set<Filename>) {
      forall t :: t in deps <==> exists m :: Reaches(n, m) && t in ExtractOf(e, m)
    }

    lemma ReachesItself(n: Filename)
      ensures Reaches(n, n)
    {
      assert IsPath([n]);
    }

    lemma ReachesFurther(l: Filename, m: Filename, n: Filename)
      requires m in cimportedFiles(l) && Reaches(m, n)
      ensures Reaches(l, n)
    {
      var p :| IsPath(p) && p[0] == m && p[|p| - 1] == n;
      assert IsPath([l] + p);
    }

    ghost predicate Closed(xs: set<Filename>, n: Filename) {
      forall m <- cimportedFiles(n) :: m in xs
    }

    lemma {:induction false} PathStaysIn(xs: set<Filename>, p: seq<Filename>)
      requires IsPath(p) && p[0] in xs && forall x <- xs :: Closed(xs, x)
      ensures p[|p| - 1] in xs
    {
      if |p| > 1 {
        PathStaysIn(xs, p[..|p| - 1]);
        assert Closed(xs, p[|p| - 2]);
      }
    }

    // ------------------------------------------------------------------- the cache

    ghost predicate Valid()
      reads this
    {
      && (forall f <- files, g <- cimportedFiles(f) :: g in files)
      && forall e, n {:trigger IsClosure(e, n, transitiveCache[e][n])} | e in transitiveCache
         && n in transitiveCache[e] ::
           IsClosure(e, n, transitiveCache[e][n])
    }

    /** The union of `extract` over `xs`. */
    ghost predicate Gathers(e: Extract, xs: set<Filename>, deps: set<Filename>) {
      forall t :: t in deps <==> exists x <- xs :: t in ExtractOf(e, x)
    }

    lemma GatheredIsClosure(e: Extract, n: Filename, xs: set<Filename>, deps: set<Filename>)
      requires Gathers(e, xs, deps) && n in xs && (forall x <- xs :: Reaches(n, x) && Closed(xs, x))
      ensures IsClosure(e, n, deps)
    {
      forall m | Reaches(n, m) ensures m in xs {
        var p :| IsPath(p) && p[0] == n && p[|p| - 1] == m;
        PathStaysIn(xs, p);
      }
    }

    /** Some of the files may still lead out of `xs`: only such as are on the stack, no
        lower than the file that `loop` names. */
    ghost predicate Pending(xs: set<Filename>, depth: map<Filename, nat>, loop: Option<Filename>) {
      && (loop.Some? ==> loop.value in depth)
      && forall x <- xs :: Closed(xs, x) || StillOpen(x, depth, loop)
    }

    ghost predicate StillOpen(x: Filename, depth: map<Filename, nat>, loop: Option<Filename>) {
      loop.Some? && loop.value in depth && x in depth && depth[loop.value] <= depth[x]
    }

    /** The files reached from a cached one. */
    lemma ReachedFiles(n: Filename) returns (xs: set<Filename>)
      requires n in files && forall f <- files, g <- cimportedFiles(f) :: g in files
      ensures n in xs && forall x :: x in xs <==> Reaches(n, x)
      ensures forall x <- xs :: Closed(xs, x)
    {
      xs := set x | x in files && Reaches(n, x);
      ReachesItself(n);
      forall x | Reaches(n, x) ensures x in files {
        var p :| IsPath(p) && p[0] == n && p[|p| - 1] == x;
        forall f | f in files ensures Closed(files, f) {
        }
        PathStaysIn(files, p);
      }
      forall x, y | x in xs && y in cimportedFiles(x) ensures Reaches(n, y) {
        var p :| IsPath(p) && p[0] == n && p[|p| - 1] == x;
        assert IsPath(p + [y]);
      }
    }

    /** Which of two loops goes back further. */
    function Lower(depth: map<Filename, nat>, loop: Option<Filename>, subLoop: Option<Filename>): Option<Filename>
      requires (loop.Some? ==> loop.value in depth) && (subLoop.Some? ==> subLoop.value in depth)
    {
      if subLoop.None? || (loop.Some? && depth[loop.value] < depth[subLoop.value]) then loop else subLoop
    }

    /** What has been gathered at `node`, which is on the stack, from some of its imports. */
    ghost predicate Gathering(e: Extract, node: Filename, xs: set<Filename>, deps: set<Filename>,
                              depth: map<Filename, nat>, loop: Option<Filename>)
    {
      && node in xs && (forall x <- xs :: Reaches(node, x)) && Gathers(e, xs, deps)
      && (loop.Some? ==> loop.value in depth)
      && forall x <- xs :: x == node || Closed(xs, x) || StillOpen(x, depth, loop)
    }

    /** What a call has gathered for `node`. */
    ghost predicate Gathered(e: Extract, node: Filename, xs: set<Filename>, deps: set<Filename>,
                             depth: map<Filename, nat>, loop: Option<Filename>)
    {
      && node in xs && (forall x <- xs :: Reaches(node, x)) && Gathers(e, xs, deps)
      && Pending(xs, depth, loop)
    }

    /** A cached closure is the result of a gathering, too. */
    lemma CacheIsGathered(e: Extract, node: Filename, depth: map<Filename, nat>) returns (xs: set<Filename>)
      requires Valid() && node in files && e in transitiveCache && node in transitiveCache[e]
      ensures Gathered(e, node, xs, transitiveCache[e][node], depth, None)
    {
      xs := ReachedFiles(node);
      assert IsClosure(e, node, transitiveCache[e][node]);
    }

    lemma OnlyItself(e: Extract, node: Filename, xs: set<Filename>, deps: set<Filename>)
      requires xs == {node} && deps == ExtractOf(e, node)
      ensures Gathers(e, xs, deps)
    {
      assert node in xs;
    }

    lemma StaysOpen(node: Filename, xs: set<Filename>, depth: map<Filename, nat>)
      requires xs == {node} && node in depth
      ensures (forall x <- xs :: Reaches(node, x)) && Pending(xs, depth, Some(node))
    {
      ReachesItself(node);
      assert StillOpen(node, depth, Some(node));
    }

    /** A file found on the stack is a loop, with nothing else gathered at it. */
    lemma LoopIsGathered(e: Extract, node: Filename, deps: set<Filename>, depth: map<Filename, nat>)
      returns (xs: set<Filename>)
      requires node in depth && deps == ExtractOf(e, node)
      ensures Gathered(e, node, xs, deps, depth, Some(node))
    {
      xs := {node};
      OnlyItself(e, node, xs, deps);
      StaysOpen(node, xs, depth);
    }

    /** The results for one more import are added. */
    lemma GatheringStep(e: Extract, node: Filename, m: Filename, xs: set<Filename>, deps: set<Filename>,
                        loop: Option<Filename>,
                        ys: set<Filename>, subDeps: set<Filename>, subLoop: Option<Filename>, depth: map<Filename, nat>)
      requires m in cimportedFiles(node)
      requires Gathering(e, node, xs, deps, depth, loop) && Gathered(e, m, ys, subDeps, depth, subLoop)
      ensures Gathering(e, node, xs + ys, deps + subDeps, depth, Lower(depth, loop, subLoop))
    {
      forall y | y in ys ensures Reaches(node, y) {
        ReachesFurther(node, m, y);
      }
    }

    /** Once all of a node's imports are in, it is itself closed; a loop that goes back no
        further than to the node is closed with it. */
    lemma GatheringEnds(e: Extract, node: Filename, xs: set<Filename>, deps: set<Filename>,
                        below: map<Filename, nat>, depth: map<Filename, nat>, loop: Option<Filename>)
      requires node !in below && depth == below[node := |below|] && (forall m <- below :: below[m] < |below|)
      requires Gathering(e, node, xs, deps, depth, loop) && Closed(xs, node)
      ensures Gathered(e, node, xs, deps, below, if loop == Some(node) then None else loop)
      ensures (loop == Some(node) || loop == None) ==> IsClosure(e, node, deps)
    {
      if loop == Some(node) || loop == None {
        GatheredIsClosure(e, node, xs, deps);
      }
    }

    method TransitiveMergeHelper(node: Filename, extract: Extract, stack: Stack)
      returns (deps: set<Filename>, loop: Option<Filename>, ghost xs: set<Filename>)
      requires Valid() && stack.Valid() && node in files && stack.depth.Keys <= files && extract in transitiveCache
      modifies this, stack
      ensures Valid() && stack.depth == old(stack.depth)
      ensures OnlyAdds(old(transitiveCache), transitiveCache, extract)
      ensures Gathered(extract, node, xs, deps, stack.depth, loop)
      ensures loop.None? ==> node in transitiveCache[extract] && transitiveCache[extract][node] == deps
      decreases files - stack.depth.Keys, 0
    {
      if node in transitiveCache[extract] {
        xs := CacheIsGathered(extract, node, stack.depth);
        return transitiveCache[extract][node], None, xs;
      }
      if node in stack.depth {
        deps, loop := ExtractOf(extract, node), Some(node);
        xs := LoopIsGathered(extract, node, deps, stack.depth);
        return;
      }
      ghost var below, depth := stack.depth, stack.depth[node := |stack.depth|];
      PushPop(below, node);
      stack.depth := stack.depth[node := |stack.depth|];
      deps, loop, xs := MergeOutgoing(node, extract, stack);
      GatheringEnds(extract, node, xs, deps, below, depth, loop);
      if loop == Some(node) {
        loop := None;
      }
      if loop.None? {
        Remember(extract, node, deps);
      }
      stack.depth := stack.depth - {node};
    }

    lemma SameClosure(e: Extract, n: Filename, deps: set<Filename>, other: set<Filename>)
      requires IsClosure(e, n, deps) && IsClosure(e, n, other)
      ensures deps == other
    {
    }

    method Remember(extract: Extract, node: Filename, deps: set<Filename>)
      requires Valid() && extract in transitiveCache && IsClosure(extract, node, deps)
      modifies this
      ensures Valid() && OnlyAdds(old(transitiveCache), transitiveCache, extract)
      ensures node in transitiveCache[extract] && transitiveCache[extract][node] == deps
    {
      if node in transitiveCache[extract] {
        assert IsClosure(extract, node, transitiveCache[extract][node]);
        SameClosure(extract, node, transitiveCache[extract][node], deps);
      }
      transitiveCache := transitiveCache[extract := transitiveCache[extract][node := deps]];
    }

    lemma PushPop(depth: map<Filename, nat>, n: Filename)
      requires n !in depth
      ensures depth[n := |depth|].Keys == depth.Keys + {n} && depth[n := |depth|] - {n} == depth
      ensures |depth[n := |depth|]| == |depth| + 1
    {
    }

    ghost predicate Merged(outgoing: seq<Filename>, i: nat, xs: set<Filename>) {
      forall j :: 0 <= j < i && j < |outgoing| ==> outgoing[j] in xs
    }

    lemma MergedStep(outgoing: seq<Filename>, i: nat, xs: set<Filename>, ys: set<Filename>)
      requires i < |outgoing| && Merged(outgoing, i, xs) && outgoing[i] in ys
      ensures Merged(outgoing, i + 1, xs + ys)
    {
    }

    /** Of two loops the one that leads further down on the stack. */
    method LowerLoop(stack: Stack, loop: Option<Filename>, subLoop: Option<Filename>) returns (lower: Option<Filename>)
      requires (loop.Some? ==> loop.value in stack.depth) && (subLoop.Some? ==> subLoop.value in stack.depth)
      ensures lower == Lower(stack.depth, loop, subLoop)
    {
      lower := loop;
      if subLoop.Some? {
        if loop.Some? && stack.depth[loop.value] < stack.depth[subLoop.value] {
        } else {
          lower := subLoop;
        }
      }
    }

    /** The results for all imports of a node that is on the stack, put together. */
    method MergeOutgoing(node: Filename, extract: Extract, stack: Stack)
      returns (deps: set<Filename>, loop: Option<Filename>, ghost xs: set<Filename>)
      requires Valid() && stack.Valid() && stack.depth.Keys <= files && extract in transitiveCache && node in files
      modifies this, stack
      ensures Valid() && stack.depth == old(stack.depth)
      ensures OnlyAdds(old(transitiveCache), transitiveCache, extract)
      ensures Gathering(extract, node, xs, deps, stack.depth, loop) && Closed(xs, node)
      decreases files - stack.depth.Keys, 1
    {
      ReachesItself(node);
      deps, loop := ExtractOf(extract, node), None;
      xs := {node};
      var outgoing := cimportedFiles(node);
      for i := 0 to |outgoing|
        invariant Valid() && stack.Valid() && stack.depth == old(stack.depth)
        invariant OnlyAdds(old(transitiveCache), transitiveCache, extract)
        invariant Gathering(extract, node, xs, deps, stack.depth, loop)
        invariant Merged(outgoing, i, xs)
      {
        var subDeps, subLoop;
        ghost var ys;
        subDeps, subLoop, ys := TransitiveMergeHelper(outgoing[i], extract, stack);
        GatheringStep(extract, node, outgoing[i], xs, deps, loop, ys, subDeps, subLoop, stack.depth);
        MergedStep(outgoing, i, xs, ys);
        loop := LowerLoop(stack, loop, subLoop);
        xs, deps := xs + ys, deps + subDeps;
      }
    }

    /** The cache keeps all it had, and no table but the one in use changes. */
    ghost predicate OnlyAdds(was: map<Extract, map<Filename, set<Filename>>>,
                             now: map<Extract, map<Filename, set<Filename>>>, extract: Extract)
    {
      && was.Keys == now.Keys && extract in was
      && (forall e <- was :: e != extract ==> now[e] == was[e])
      && forall n <- was[extract] :: n in now[extract] && now[extract][n] == was[extract][n]
    }

    /** Whatever earlier calls left in the cache, the result is exactly the union over the
        files that `node` reaches, and it is in the cache from now on. */
    method TransitiveMerge(node: Filename, extract: Extract) returns (deps: set<Filename>)
      requires Valid() && node in files
      modifies this
      ensures Valid() && IsClosure(extract, node, deps)
      ensures extract in transitiveCache && node in transitiveCache[extract]
    {
      if extract !in transitiveCache {
        transitiveCache := transitiveCache[extract := map[]];
      }
      var stack := new Stack();
      var loop;
      ghost var xs;
      deps, loop, xs := TransitiveMergeHelper(node, extract, stack);
      GatheredIsClosure(extract, node, xs, deps);
    }

    /** The files that a file depends on: every file that it reaches over cimports, and
        what those include. */
    method AllDependencies(node: Filename) returns (deps: set<Filename>)
      requires Valid() && node in files
      modifies this
      ensures Valid()
      ensures forall f :: f in deps <==> Reaches(node, f) || exists m :: Reaches(node, m) && f in includedFiles(m)
    {
      deps := TransitiveMerge(node, ImmediateDependencies);
      forall f | f in deps && !(exists m :: Reaches(node, m) && f in includedFiles(m)) ensures Reaches(node, f) {
        var m :| Reaches(node, m) && f in ExtractOf(ImmediateDependencies, m);
        if f != m {
          var p :| IsPath(p) && p[0] == node && p[|p| - 1] == m;
          assert IsPath(p + [f]);
        }
      }
    }
  }
}
