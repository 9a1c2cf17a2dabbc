/** The conveyor-to-conveyor graph and its shortest paths. */
module Graphs {

  /** For every conveyor, the conveyors its connection slots name. */
  type Graph = map<int, set<int>>

  predicate Edge(g: Graph, u: int, v: int) {
    u in g && v in g[u]
  }

  /** Every named conveyor is configured, so that no lookup in the conveyor map throws. */
  ghost predicate Closed(g: Graph) {
    forall u, v :: Edge(g, u, v) ==> v in g
  }

  ghost predicate IsPath(g: Graph, p: seq<int>, s: int, t: int) {
    && |p| > 0
    && p[0] == s
    && p[|p| - 1] == t
    && forall i :: 0 <= i < |p| - 1 ==> Edge(g, p[i], p[i + 1])
  }

  ghost predicate Reachable(g: Graph, s: int, t: int) {
    exists p :: IsPath(g, p, s, t)
  }

  ghost predicate IsShortest(g: Graph, p: seq<int>, s: int, t: int) {
    && IsPath(g, p, s, t)
    && forall q :: IsPath(g, q, s, t) ==> |p| <= |q|
  }

  predicate Simple(p: seq<int>) {
    forall i, j :: 0 <= i < j < |p| ==> p[i] != p[j]
  }

  lemma PathPrefix(g: Graph, p: seq<int>, s: int, t: int, n: nat)
    requires IsPath(g, p, s, t) && 0 < n <= |p|
    ensures IsPath(g, p[..n], s, p[n - 1])
  {
  }

  lemma PathSuffix(g: Graph, p: seq<int>, s: int, t: int, n: nat)
    requires IsPath(g, p, s, t) && n < |p|
    ensures IsPath(g, p[n..], p[n], t)
  {
  }

  /** Two paths that meet can be joined at the meeting point. */
  lemma PathJoin(g: Graph, p: seq<int>, q: seq<int>, s: int, m: int, t: int)
    requires IsPath(g, p, s, m) && IsPath(g, q, m, t)
    ensures IsPath(g, p[..|p| - 1] + q, s, t)
  {
  }

  lemma PathExtend(g: Graph, p: seq<int>, s: int, m: int, t: int)
    requires IsPath(g, p, s, m) && Edge(g, m, t)
    ensures IsPath(g, p + [t], s, t)
  {
  }

  /** A repeated node could be cut out, so a shortest path repeats none. */
  lemma ShortestIsSimple(g: Graph, p: seq<int>, s: int, t: int)
    requires IsShortest(g, p, s, t)
    ensures Simple(p)
  {
    forall i, j | 0 <= i < j < |p|
      ensures p[i] != p[j]
    {
      if p[i] == p[j] {
        PathPrefix(g, p, s, t, i + 1);
        PathSuffix(g, p, s, t, j);
        PathJoin(g, p[..i + 1], p[j..], s, p[i], t);
      }
    }
  }

  /** From every node on a shortest path, the rest of that path is shortest. */
  lemma SuffixIsShortest(g: Graph, p: seq<int>, s: int, t: int, n: nat)
    requires IsShortest(g, p, s, t) && n < |p|
    ensures IsShortest(g, p[n..], p[n], t)
  {
    PathSuffix(g, p, s, t, n);
    PathPrefix(g, p, s, t, n + 1);
    forall q | IsPath(g, q, p[n], t)
      ensures |p[n..]| <= |q|
    {
      PathJoin(g, p[..n + 1], q, s, p[n], t);
    }
  }
}
