/** The depth-first search that numbers the reachable blocks in reverse
    postorder. */
module DepthFirst {
  import opened Paths

  /** A reverse postorder of the reachable blocks: the entry first, and every
      other block after one of its predecessors. */
  ghost predicate IsRpo(g: Graph, entry: nat, rpo: seq<nat>, num: seq<nat>) {
    && |num| == |g|
    && rpo != [] && rpo[0] == entry
    && (forall i: nat :: i < |rpo| ==> rpo[i] < |g| && num[rpo[i]] == i)
    && (forall b: nat :: b < |g| ==> (Reaches(g, entry, b) <==> b in rpo))
    && (forall i: nat :: 0 < i < |rpo| ==> HasEarlierPred(g, rpo, num, i))
  }

  ghost predicate HasEarlierPred(g: Graph, rpo: seq<nat>, num: seq<nat>, i: nat)
    requires i < |rpo| && |num| == |g|
  {
    exists j: nat :: j < i && Edge(g, rpo[j], rpo[i])
  }

  ghost predicate Distinct(s: seq<nat>) {
    forall i, j :: 0 <= i < j < |s| ==> s[i] != s[j]
  }

  /** `path` holds the blocks on the search stack, `post` the finished ones. */
  ghost predicate Partition(n: nat, visited: seq<bool>, path: seq<nat>, post: seq<nat>) {
    && |visited| == n
    && Distinct(path) && Distinct(post)
    && (forall x :: x in path ==> x < n && visited[x] && x !in post)
    && (forall x :: x in post ==> x < n && visited[x])
    && (forall b: nat :: b < n && visited[b] ==> b in path || b in post)
  }

  /** The tree parent of a block precedes it on the stack and finishes later. */
  ghost predicate Parents(g: Graph, entry: nat, visited: seq<bool>, path: seq<nat>, post: seq<nat>,
                          parent: map<nat, nat>) {
    && |visited| == |g|
    && (path == [] ==> post != [] && post[|post| - 1] == entry)
    && (path != [] ==> path[0] == entry)
    && (forall b: nat :: b < |g| && visited[b] ==> Reaches(g, entry, b))
    && (forall b: nat :: b < |g| && visited[b] && b != entry ==>
          b in parent && Edge(g, parent[b], b) && visited[parent[b]])
    && (forall i :: 0 < i < |path| ==> path[i] in parent && parent[path[i]] == path[i - 1])
    && (forall k :: 0 <= k < |post| && post[k] != entry ==> post[k] in parent && parent[post[k]] !in post[..k + 1])
  }

  /** Finished blocks, and the scanned part of a stacked one, lead only to
      visited blocks. */
  ghost predicate Scanned(g: Graph, visited: seq<bool>, path: seq<nat>, cur: seq<nat>, post: seq<nat>) {
    && |visited| == |g| && |cur| == |path|
    && (forall k :: 0 <= k < |post| ==> post[k] < |g| && AllVisited(g[post[k]], visited))
    && (forall i :: 0 <= i < |path| ==>
          path[i] < |g| && cur[i] <= |g[path[i]]| && AllVisited(g[path[i]][..cur[i]], visited))
  }

  ghost predicate AllVisited(ss: seq<nat>, visited: seq<bool>) {
    forall s :: s in ss ==> s < |visited| && visited[s]
  }

  lemma PushPartition(n: nat, visited: seq<bool>, path: seq<nat>, post: seq<nat>, next: nat)
    requires Partition(n, visited, path, post) && next < n && !visited[next]
    ensures Partition(n, visited[next := true], path + [next], post)
  { }

  lemma PushParents(g: Graph, entry: nat, visited: seq<bool>, path: seq<nat>, post: seq<nat>,
                    parent: map<nat, nat>, next: nat)
    requires entry < |g| && Partition(|g|, visited, path, post)
    requires Parents(g, entry, visited, path, post, parent)
    requires path != [] && next < |g| && !visited[next] && Edge(g, path[|path| - 1], next)
    ensures Parents(g, entry, visited[next := true], path + [next], post, parent[next := path[|path| - 1]])
  {
    hide Reaches, Distinct;
    var node := path[|path| - 1];
    assert node in path && entry in path;
    ReachesStep(g, entry, node, next);
    assert forall i :: 0 <= i < |path| ==> path[i] in path && path[i] != next;
    assert forall k :: 0 <= k < |post| ==> post[k] in post && post[k] != next;
  }

  lemma PushScanned(g: Graph, visited: seq<bool>, path: seq<nat>, cur: seq<nat>, post: seq<nat>, next: nat)
    requires Scanned(g, visited, path, cur, post) && path != [] && next < |g|
    requires var m := |path| - 1; cur[m] < |g[path[m]]| && g[path[m]][cur[m]] == next
    ensures Scanned(g, visited[next := true], path + [next], cur[|path| - 1 := cur[|path| - 1] + 1] + [0], post)
  {
    var m := |path| - 1;
    assert g[path[m]][..cur[m] + 1] == g[path[m]][..cur[m]] + [next];
  }

  lemma AdvanceScanned(g: Graph, visited: seq<bool>, path: seq<nat>, cur: seq<nat>, post: seq<nat>)
    requires Scanned(g, visited, path, cur, post) && path != []
    requires var m := |path| - 1; cur[m] < |g[path[m]]| && g[path[m]][cur[m]] < |g| && visited[g[path[m]][cur[m]]]
    ensures Scanned(g, visited, path, cur[|path| - 1 := cur[|path| - 1] + 1], post)
  {
    var m := |path| - 1;
    assert g[path[m]][..cur[m] + 1] == g[path[m]][..cur[m]] + [g[path[m]][cur[m]]];
  }

  lemma PopPartition(n: nat, visited: seq<bool>, path: seq<nat>, post: seq<nat>)
    requires Partition(n, visited, path, post) && path != []
    ensures Partition(n, visited, path[..|path| - 1], post + [path[|path| - 1]])
  {
    var m := |path| - 1;
    assert path == path[..m] + [path[m]];
    assert path[m] in path;
    forall x | x in path[..m] ensures x != path[m] && x in path { }
  }

  lemma PopParents(g: Graph, entry: nat, visited: seq<bool>, path: seq<nat>, post: seq<nat>,
                   parent: map<nat, nat>)
    requires Partition(|g|, visited, path, post)
    requires Parents(g, entry, visited, path, post, parent) && path != []
    ensures Parents(g, entry, visited, path[..|path| - 1], post + [path[|path| - 1]], parent)
  {
    var m := |path| - 1;
    var node := path[m];
    var post' := post + [node];
    assert node in path;
    forall k | 0 <= k < |post'| && post'[k] != entry
      ensures post'[k] in parent && parent[post'[k]] !in post'[..k + 1]
    {
      if k < |post| {
        assert post'[k] == post[k] && post'[..k + 1] == post[..k + 1];
      } else {
        assert post'[..k + 1] == post' && m > 0;
        assert parent[path[m]] == path[m - 1] && path[m - 1] in path;
      }
    }
  }

  lemma PopScanned(g: Graph, visited: seq<bool>, path: seq<nat>, cur: seq<nat>, post: seq<nat>)
    requires Scanned(g, visited, path, cur, post) && path != []
    requires cur[|path| - 1] == |g[path[|path| - 1]]|
    ensures Scanned(g, visited, path[..|path| - 1], cur[..|path| - 1], post + [path[|path| - 1]])
  {
    var m := |path| - 1;
    assert g[path[m]][..cur[m]] == g[path[m]];
  }

  lemma {:induction false} VisitedClosed(g: Graph, entry: nat, visited: seq<bool>, p: seq<nat>)
    requires WellFormed(g) && |visited| == |g| && IsPath(g, p) && p[0] == entry && visited[entry]
    requires forall x: nat :: x < |g| && visited[x] ==> AllVisited(g[x], visited)
    ensures p[|p| - 1] < |g| && visited[p[|p| - 1]]
  {
    if |p| > 1 {
      PathPrefix(g, p, |p| - 2);
      assert Edge(g, p[|p| - 2], p[|p| - 2 + 1]);
      VisitedClosed(g, entry, visited, p[..|p| - 2 + 1]);
    }
  }

  ghost function Unvisited(visited: seq<bool>): set<nat> {
    set b: nat | b < |visited| && !visited[b]
  }

  lemma VisitShrinks(visited: seq<bool>, next: nat)
    requires next < |visited| && !visited[next]
    ensures Unvisited(visited[next := true]) < Unvisited(visited)
  {
    assert next in Unvisited(visited) && next !in Unvisited(visited[next := true]);
  }

  lemma SearchStart(g: Graph, entry: nat, visited: seq<bool>)
    requires entry < |g| && visited == seq(|g|, _ => false)[entry := true]
    ensures Partition(|g|, visited, [entry], []) && Parents(g, entry, visited, [entry], [], map[])
  {
    assert PathFromTo(g, [entry], entry, entry);
  }

  lemma SearchDone(g: Graph, entry: nat, visited: seq<bool>, cur: seq<nat>, post: seq<nat>, parent: map<nat, nat>)
    requires WellFormed(g) && entry < |g| && Partition(|g|, visited, [], post)
    requires Parents(g, entry, visited, [], post, parent) && Scanned(g, visited, [], cur, post)
    ensures forall b: nat :: b < |g| ==> (visited[b] <==> Reaches(g, entry, b))
  {
    assert entry in post;
    forall b: nat | b < |g| && Reaches(g, entry, b) ensures visited[b] {
      var p :| PathFromTo(g, p, entry, b);
      VisitedClosed(g, entry, visited, p);
    }
  }

  /** Iterative depth-first search: the postorder of the reachable blocks. */
  method PostOrder(g: Graph, entry: nat)
    returns (post: seq<nat>, visited: seq<bool>, ghost parent: map<nat, nat>)
    requires WellFormed(g) && entry < |g|
    ensures Partition(|g|, visited, [], post) && Parents(g, entry, visited, [], post, parent)
    ensures forall b: nat :: b < |g| ==> (visited[b] <==> Reaches(g, entry, b))
  {
    hide Parents, Partition;
    visited := seq(|g|, _ => false);
    post := [];
    // The stack of (block, next successor to scan) pairs, as two columns.
    var path: seq<nat>, cur: seq<nat> := [entry], [0];
    visited := visited[entry := true];
    parent := map[];
    ghost var unvisited := Unvisited(visited);
    SearchStart(g, entry, visited);
    while path != []
      invariant Partition(|g|, visited, path, post)
      invariant Parents(g, entry, visited, path, post, parent)
      invariant Scanned(g, visited, path, cur, post)
      invariant unvisited == Unvisited(visited)
      decreases unvisited, |path|, if path == [] then 0 else |g[path[|path| - 1]]| - cur[|path| - 1]
    {
      var top := |path| - 1;
      var node, idx := path[top], cur[top];
      if idx < |g[node]| {
        var next := g[node][idx];
        cur := cur[top := idx + 1];
        if !visited[next] {
          PushPartition(|g|, visited, path, post, next);
          PushParents(g, entry, visited, path, post, parent, next);
          PushScanned(g, visited, path, cur[top := idx], post, next);
          assert cur[top := idx][top := idx + 1] == cur;
          VisitShrinks(visited, next);
          unvisited := Unvisited(visited[next := true]);
          visited := visited[next := true];
          parent := parent[next := node];
          path, cur := path + [next], cur + [0];
        } else {
          AdvanceScanned(g, visited, path, cur[top := idx], post);
          assert cur[top := idx][top := idx + 1] == cur;
        }
      } else {
        PopPartition(|g|, visited, path, post);
        PopParents(g, entry, visited, path, post, parent);
        PopScanned(g, visited, path, cur, post);
        post := post + [node];
        path, cur := path[..top], cur[..top];
      }
    }
    SearchDone(g, entry, visited, cur, post, parent);
  }

  /** Turn the finish order round, and note each block's place in it. */
  method Number(g: Graph, entry: nat, post: seq<nat>, visited: seq<bool>, ghost parent: map<nat, nat>)
    returns (rpo: seq<nat>, num: seq<nat>)
    requires entry < |g| && Partition(|g|, visited, [], post) && Parents(g, entry, visited, [], post, parent)
    requires forall b: nat :: b < |g| ==> (visited[b] <==> Reaches(g, entry, b))
    ensures IsRpo(g, entry, rpo, num)
  {
    hide Parents;
    var n := |post|;
    assert forall k :: 0 <= k < n ==> post[k] in post;
    rpo := seq(n, i requires 0 <= i < n => post[n - 1 - i]);
    num := seq(|g|, _ => 0xFFFF_FFFF_FFFF_FFFF);
    assert forall i, j :: 0 <= i < j < n ==> rpo[i] != rpo[j];
    for i := 0 to n
      invariant |num| == |g|
      invariant forall j :: 0 <= j < n ==> rpo[j] < |g|
      invariant forall j :: 0 <= j < i ==> num[rpo[j]] == j
    {
      num := num[rpo[i] := i];
    }
    NumberedIsRpo(g, entry, post, visited, parent, rpo, num);
  }

  lemma NumberedIsRpo(g: Graph, entry: nat, post: seq<nat>, visited: seq<bool>, parent: map<nat, nat>,
                      rpo: seq<nat>, num: seq<nat>)
    requires entry < |g| && Partition(|g|, visited, [], post) && Parents(g, entry, visited, [], post, parent)
    requires forall b: nat :: b < |g| ==> (visited[b] <==> Reaches(g, entry, b))
    requires |rpo| == |post| && forall i :: 0 <= i < |rpo| ==> rpo[i] == post[|post| - 1 - i]
    requires |num| == |g| && forall j :: 0 <= j < |rpo| ==> rpo[j] < |g| && num[rpo[j]] == j
    ensures IsRpo(g, entry, rpo, num)
  {
    SamePlaces(post, rpo);
    assert rpo != [] && rpo[0] == entry;
    assert forall b: nat :: b < |g| ==> (visited[b] <==> b in rpo);
    hide Parents, Partition, Reaches;
    forall i: nat | 0 < i < |rpo| ensures HasEarlierPred(g, rpo, num, i) {
      FinishesEarlier(g, entry, post, visited, parent, |post| - 1 - i);
      var l :| |post| - 1 - i < l < |post| && Edge(g, post[l], post[|post| - 1 - i]);
      assert Edge(g, rpo[|post| - 1 - l], rpo[i]);
    }
  }

  lemma SamePlaces(post: seq<nat>, rpo: seq<nat>)
    requires |rpo| == |post| && forall i :: 0 <= i < |rpo| ==> rpo[i] == post[|post| - 1 - i]
    ensures forall b: nat :: b in post <==> b in rpo
  {
    forall b: nat | b in post ensures b in rpo {
      var k :| 0 <= k < |post| && post[k] == b;
      assert rpo[|post| - 1 - k] == b;
    }
  }

  lemma FinishesEarlier(g: Graph, entry: nat, post: seq<nat>, visited: seq<bool>, parent: map<nat, nat>, k: nat)
    requires Partition(|g|, visited, [], post) && Parents(g, entry, visited, [], post, parent)
    requires k < |post| - 1
    ensures exists l :: k < l < |post| && Edge(g, post[l], post[k])
  {
    var b := post[k];
    assert b in post && b != entry;
    var q := parent[b];
    var l :| 0 <= l < |post| && post[l] == q;
    assert forall m :: 0 <= m <= k ==> post[m] in post[..k + 1];
  }
}
