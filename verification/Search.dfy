/**
 The breadth-first search of `calculate_routing_plan`: what its queue and its
 visited set mean between two pops. The queue may hold the same conveyor more
 than once, because a conveyor is marked when popped and not when pushed.
 */
module Search {
  import opened CentralTypes
  import opened Conveyors
  import opened Graphs
  import opened Sets

  datatype Entry = Entry(node: int, path: seq<int>)

  const START := Entry(INPUT_CONVEYOR_ID, [INPUT_CONVEYOR_ID])

  /** Every queued path is a real path from the input conveyor to its node. */
  ghost predicate Sound(g: Graph, queue: seq<Entry>) {
    forall i :: 0 <= i < |queue| ==>
      queue[i].node in g && IsPath(g, queue[i].path, INPUT_CONVEYOR_ID, queue[i].node)
  }

  /** The queue holds at most two adjacent layers, nearer one first. */
  ghost predicate Layered(queue: seq<Entry>) {
    forall i, j :: 0 <= i <= j < |queue| ==>
      |queue[i].path| <= |queue[j].path| <= |queue[i].path| + 1
  }

  ghost predicate Queued(queue: seq<Entry>, v: int, len: nat) {
    exists i :: 0 <= i < |queue| && queue[i].node == v && |queue[i].path| <= len
  }

  /** `depth` gives every visited conveyor the length of a shortest path to it. */
  ghost predicate Settled(g: Graph, depth: map<int, nat>) {
    && depth.Keys <= g.Keys
    && forall v, p :: v in depth && IsPath(g, p, INPUT_CONVEYOR_ID, v) ==> depth[v] <= |p|
  }

  /** Successors of the conveyors in `done` are visited, or queued one layer further on. */
  ghost predicate Covered(g: Graph, depth: map<int, nat>, queue: seq<Entry>, done: set<int>)
    requires done <= depth.Keys
  {
    forall v, w :: v in done && Edge(g, v, w) ==> w in depth || Queued(queue, w, depth[v] + 1)
  }

  ghost predicate Started(depth: map<int, nat>, queue: seq<Entry>) {
    INPUT_CONVEYOR_ID in depth || Queued(queue, INPUT_CONVEYOR_ID, 1)
  }

  /** The target has not been seen, except as the start itself. */
  ghost predicate Unseen(target: int, depth: map<int, nat>, queue: seq<Entry>) {
    && target !in depth
    && (depth == map[] ==> queue == [START])
    && (depth != map[] ==> INPUT_CONVEYOR_ID in depth && forall i :: 0 <= i < |queue| ==> queue[i].node != target)
  }

  ghost predicate Frontier(g: Graph, target: int, depth: map<int, nat>, queue: seq<Entry>) {
    && Sound(g, queue)
    && Layered(queue)
    && Settled(g, depth)
    && Covered(g, depth, queue, depth.Keys)
    && Started(depth, queue)
    && Unseen(target, depth, queue)
  }

  /** No unvisited conveyor is nearer than `len`. */
  ghost predicate Far(g: Graph, depth: map<int, nat>, len: nat) {
    forall y, p :: y !in depth && IsPath(g, p, INPUT_CONVEYOR_ID, y) ==> len <= |p|
  }

  lemma InitialFrontier(g: Graph, target: int)
    requires INPUT_CONVEYOR_ID in g
    ensures Frontier(g, target, map[], [START])
  {
    assert [START][0] == START;
    assert Queued([START], INPUT_CONVEYOR_ID, 1);
  }

  /** A path to an unvisited conveyor passes through the queue. */
  lemma {:induction false} PathMeetsQueue(g: Graph, depth: map<int, nat>, queue: seq<Entry>, p: seq<int>, y: int)
    returns (i: nat)
    requires Settled(g, depth) && Covered(g, depth, queue, depth.Keys) && Started(depth, queue)
    requires y !in depth && IsPath(g, p, INPUT_CONVEYOR_ID, y)
    ensures i < |queue| && |queue[i].path| <= |p|
    decreases |p|
  {
    var n := |p|;
    if n == 1 {
      i :| 0 <= i < |queue| && queue[i].node == INPUT_CONVEYOR_ID && |queue[i].path| <= 1;
    } else {
      var v := p[n - 2];
      assert Edge(g, p[n - 2], p[n - 2 + 1]);
      PathPrefix(g, p, INPUT_CONVEYOR_ID, y, n - 1);
      if v in depth {
        assert Queued(queue, y, depth[v] + 1);
        i :| 0 <= i < |queue| && queue[i].node == y && |queue[i].path| <= depth[v] + 1;
      } else {
        i := PathMeetsQueue(g, depth, queue, p[..n - 1], v);
      }
    }
  }

  /** Popping an unvisited conveyor: its queued path is already a shortest one. */
  lemma FrontIsNearest(g: Graph, target: int, depth: map<int, nat>, queue: seq<Entry>)
    requires Frontier(g, target, depth, queue) && |queue| > 0
    ensures Far(g, depth, |queue[0].path|)
  {
    forall y, p | y !in depth && IsPath(g, p, INPUT_CONVEYOR_ID, y)
      ensures |queue[0].path| <= |p|
    {
      var i := PathMeetsQueue(g, depth, queue, p, y);
    }
  }

  /** An empty queue means that every reachable conveyor has been visited. */
  lemma EmptyQueueMeansUnreachable(g: Graph, target: int, depth: map<int, nat>)
    requires Frontier(g, target, depth, [])
    ensures !Reachable(g, INPUT_CONVEYOR_ID, target)
  {
    forall p | IsPath(g, p, INPUT_CONVEYOR_ID, target)
      ensures false
    {
      var i := PathMeetsQueue(g, depth, [], p, target);
    }
  }

  lemma QueuedInTail(queue: seq<Entry>, v: int, len: nat)
    requires |queue| > 0 && Queued(queue, v, len) && queue[0].node != v
    ensures Queued(queue[1..], v, len)
  {
  }

  lemma TailKeepsOrder(g: Graph, queue: seq<Entry>)
    requires |queue| > 0 && Sound(g, queue) && Layered(queue)
    ensures Sound(g, queue[1..]) && Layered(queue[1..])
    ensures forall i :: 0 <= i < |queue| - 1 ==> queue[1..][i] == queue[i + 1]
    ensures forall i :: 0 <= i < |queue[1..]| ==>
      |queue[0].path| <= |queue[1..][i].path| <= |queue[0].path| + 1
  {
  }

  /** Dropping a queue entry whose conveyor was already visited changes nothing. */
  lemma SkipKeepsFrontier(g: Graph, target: int, depth: map<int, nat>, queue: seq<Entry>)
    requires Frontier(g, target, depth, queue) && |queue| > 0 && queue[0].node in depth
    ensures Frontier(g, target, depth, queue[1..])
  {
  }

  /** Marking the front conveyor settles it at its queued path's length. */
  lemma MarkSettlesFront(g: Graph, target: int, depth: map<int, nat>, queue: seq<Entry>)
    requires Frontier(g, target, depth, queue) && |queue| > 0 && queue[0].node !in depth
    ensures var depth' := depth[queue[0].node := |queue[0].path|];
      && Settled(g, depth')
      && Covered(g, depth', queue[1..], depth.Keys)
      && INPUT_CONVEYOR_ID in depth'
      && (queue[0].node != target ==> forall i :: 0 <= i < |queue[1..]| ==> queue[1..][i].node != target)
    ensures queue[0].node == target ==> IsShortest(g, queue[0].path, INPUT_CONVEYOR_ID, target)
    ensures queue[0].node != target ==> target != INPUT_CONVEYOR_ID
  {
    var x, len, rest := queue[0].node, |queue[0].path|, queue[1..];
    var depth' := depth[x := len];
    FrontIsNearest(g, target, depth, queue);
    TailKeepsOrder(g, queue);
    forall v, w | v in depth && Edge(g, v, w) && w !in depth'
      ensures Queued(rest, w, depth'[v] + 1)
    {
      QueuedInTail(queue, w, depth[v] + 1);
    }
  }

  /** A target discovered from the front conveyor is discovered along a shortest path. */
  lemma DiscoveryIsShortest(g: Graph, target: int, depth: map<int, nat>, queue: seq<Entry>, slots: seq<Slot>)
    requires Frontier(g, target, depth, queue) && |queue| > 0 && queue[0].node !in depth
    requires queue[0].node in g && g[queue[0].node] == Hops(slots)
    requires target in Hops(slots) && queue[0].node != target
    ensures IsShortest(g, queue[0].path + [target], INPUT_CONVEYOR_ID, target)
  {
    var len := |queue[0].path|;
    assert Edge(g, queue[0].node, target);
    FrontIsNearest(g, target, depth, queue);
    MarkSettlesFront(g, target, depth, queue);
    PathExtend(g, queue[0].path, INPUT_CONVEYOR_ID, queue[0].node, target);
    forall q | IsPath(g, q, INPUT_CONVEYOR_ID, target)
      ensures len + 1 <= |q|
    {
      var n := |q|;
      var v := q[n - 2];
      PathPrefix(g, q, INPUT_CONVEYOR_ID, target, n - 1);
      assert Edge(g, q[n - 2], q[n - 2 + 1]);
      if v in depth {
        assert false;
      }
    }
  }

  /** Pushing one more successor of the conveyor just marked. */
  lemma PushKeepsOrder(g: Graph, queue: seq<Entry>, cur: Entry, w: int)
    requires Closed(g) && Sound(g, queue) && Layered(queue)
    requires forall i :: 0 <= i < |queue| ==> |cur.path| <= |queue[i].path| <= |cur.path| + 1
    requires IsPath(g, cur.path, INPUT_CONVEYOR_ID, cur.node) && Edge(g, cur.node, w)
    ensures var queue' := queue + [Entry(w, cur.path + [w])];
      && Sound(g, queue') && Layered(queue')
      && (forall i :: 0 <= i < |queue'| ==> |cur.path| <= |queue'[i].path| <= |cur.path| + 1)
      && Queued(queue', w, |cur.path| + 1)
  {
    PathExtend(g, cur.path, INPUT_CONVEYOR_ID, cur.node, w);
    var queue' := queue + [Entry(w, cur.path + [w])];
    assert queue'[|queue|] == Entry(w, cur.path + [w]);
  }

  lemma PushKeepsQueued(queue: seq<Entry>, e: Entry, v: int, len: nat)
    requires Queued(queue, v, len)
    ensures Queued(queue + [e], v, len)
  {
    var i :| 0 <= i < |queue| && queue[i].node == v && |queue[i].path| <= len;
    assert (queue + [e])[i] == queue[i];
  }

  lemma PushKeepsCovered(g: Graph, depth: map<int, nat>, queue: seq<Entry>, done: set<int>, e: Entry)
    requires done <= depth.Keys && Covered(g, depth, queue, done)
    ensures Covered(g, depth, queue + [e], done)
  {
    forall v, w | v in done && Edge(g, v, w) && w !in depth
      ensures Queued(queue + [e], w, depth[v] + 1)
    {
      PushKeepsQueued(queue, e, w, depth[v] + 1);
    }
  }

  /** A shortest path without repetitions, or the empty path exactly when the target is unreachable. */
  ghost predicate RouteFound(g: Graph, target: int, path: seq<int>) {
    && (path == [] <==> !Reachable(g, INPUT_CONVEYOR_ID, target))
    && (path != [] ==> IsShortest(g, path, INPUT_CONVEYOR_ID, target) && Simple(path))
  }

  lemma ShortestIsFound(g: Graph, target: int, path: seq<int>)
    requires IsShortest(g, path, INPUT_CONVEYOR_ID, target)
    ensures RouteFound(g, target, path)
  {
    ShortestIsSimple(g, path, INPUT_CONVEYOR_ID, target);
    assert Reachable(g, INPUT_CONVEYOR_ID, target);
  }

  lemma NothingIsFound(g: Graph, target: int, depth: map<int, nat>)
    requires Frontier(g, target, depth, [])
    ensures RouteFound(g, target, [])
  {
    EmptyQueueMeansUnreachable(g, target, depth);
  }

  // ---- expanding the conveyor just marked, slot by slot ----

  /** The successors named by the first `i` slots have been looked at. */
  ghost predicate Looked(depth: map<int, nat>, queue: seq<Entry>, slots: seq<Slot>, i: nat, len: nat) {
    forall j :: 0 <= j < i && j < |slots| && slots[j].target >= VALID_CONVEYOR_ID_MIN ==>
      slots[j].target in depth || Queued(queue, slots[j].target, len)
  }

  ghost predicate Expanding(g: Graph, target: int, depth: map<int, nat>, queue: seq<Entry>,
                            cur: Entry, slots: seq<Slot>, i: nat) {
    && Sound(g, queue) && Layered(queue)
    && (forall j :: 0 <= j < |queue| ==> |cur.path| <= |queue[j].path| <= |cur.path| + 1)
    && Settled(g, depth)
    && cur.node in depth && depth[cur.node] == |cur.path|
    && IsPath(g, cur.path, INPUT_CONVEYOR_ID, cur.node)
    && Covered(g, depth, queue, depth.Keys - {cur.node})
    && Looked(depth, queue, slots, i, |cur.path| + 1)
    && INPUT_CONVEYOR_ID in depth && target !in depth
    && (forall j :: 0 <= j < |queue| ==> queue[j].node != target)
  }

  lemma BeginExpanding(g: Graph, target: int, depth: map<int, nat>, queue: seq<Entry>, slots: seq<Slot>)
    requires Frontier(g, target, depth, queue) && |queue| > 0
    requires queue[0].node !in depth && queue[0].node != target
    ensures Expanding(g, target, depth[queue[0].node := |queue[0].path|], queue[1..], queue[0], slots, 0)
  {
    MarkSettlesFront(g, target, depth, queue);
    TailKeepsOrder(g, queue);
    assert depth[queue[0].node := |queue[0].path|].Keys - {queue[0].node} == depth.Keys;
  }

  lemma SkipExpands(g: Graph, target: int, depth: map<int, nat>, queue: seq<Entry>,
                    cur: Entry, slots: seq<Slot>, i: nat)
    requires Expanding(g, target, depth, queue, cur, slots, i) && i < |slots|
    requires slots[i].target < VALID_CONVEYOR_ID_MIN || slots[i].target in depth
    ensures Expanding(g, target, depth, queue, cur, slots, i + 1)
  {
  }

  lemma PushExpands(g: Graph, target: int, depth: map<int, nat>, queue: seq<Entry>,
                    cur: Entry, slots: seq<Slot>, i: nat)
    requires Closed(g) && cur.node in g && g[cur.node] == Hops(slots)
    requires Expanding(g, target, depth, queue, cur, slots, i) && i < |slots|
    requires slots[i].target != target && slots[i].target >= VALID_CONVEYOR_ID_MIN
    ensures Expanding(g, target, depth, queue + [Entry(slots[i].target, cur.path + [slots[i].target])],
                      cur, slots, i + 1)
  {
    var w := slots[i].target;
    assert Edge(g, cur.node, w);
    var e := Entry(w, cur.path + [w]);
    PushKeepsOrder(g, queue, cur, w);
    PushKeepsCovered(g, depth, queue, depth.Keys - {cur.node}, e);
    forall j | 0 <= j < i && slots[j].target >= VALID_CONVEYOR_ID_MIN && slots[j].target !in depth
      ensures Queued(queue + [e], slots[j].target, |cur.path| + 1)
    {
      PushKeepsQueued(queue, e, slots[j].target, |cur.path| + 1);
    }
  }

  lemma FinishExpanding(g: Graph, target: int, depth: map<int, nat>, queue: seq<Entry>, cur: Entry, slots: seq<Slot>)
    requires Expanding(g, target, depth, queue, cur, slots, |slots|)
    requires cur.node in g && g[cur.node] == Hops(slots)
    ensures Frontier(g, target, depth, queue)
  {
  }

  // ---- the search itself ----

  function SlotGraph(table: map<int, seq<Slot>>): Graph {
    map k | k in table :: Hops(table[k])
  }

  lemma SlotGraphIsNet(table: map<int, seq<Slot>>, c: Convs)
    requires table.Keys == c.Keys && forall k :: k in c ==> table[k] == c[k].slots
    ensures SlotGraph(table) == Net(c)
  {
    assert SlotGraph(table).Keys == Net(c).Keys;
    forall k | k in c
      ensures SlotGraph(table)[k] == Net(c)[k]
    {
      assert table[k] == c[k].slots;
    }
  }

  /**
   Breadth-first search over the connection slots, from the input conveyor.
   Returns a shortest path, or the empty path exactly when there is none;
   `pops` counts the iterations.
   */
  method BreadthFirst(table: map<int, seq<Slot>>, target: int) returns (path: seq<int>, ghost pops: nat)
    requires INPUT_CONVEYOR_ID in table && Closed(SlotGraph(table))
    requires forall k :: k in table ==> |table[k]| == CONVEYOR_MAX_CONNECTIONS
    ensures RouteFound(SlotGraph(table), target, path)
    ensures pops <= CONVEYOR_MAX_CONNECTIONS * |table| + 1
  {
    ghost var g := SlotGraph(table);
    var visited: set<int> := {};
    ghost var depth: map<int, nat> := map[];
    var queue := [START];
    pops := 0;
    InitialFrontier(g, target);
    while queue != []
      invariant visited == depth.Keys && visited <= table.Keys
      invariant Frontier(g, target, depth, queue)
      invariant pops + |queue| <= CONVEYOR_MAX_CONNECTIONS * |visited| + 1
      decreases table.Keys - visited, |queue|
    {
      var cur := queue[0];
      pops := pops + 1;
      if cur.node in visited {
        SkipKeepsFrontier(g, target, depth, queue);
        queue := queue[1..];
        continue;
      }
      MarkSettlesFront(g, target, depth, queue);
      visited := visited + {cur.node};
      SubsetSize(visited, table.Keys);
      if cur.node == target {
        ShortestIsFound(g, target, cur.path);
        return cur.path, pops;
      }
      var slots := table[cur.node];
      assert g[cur.node] == Hops(slots);
      ghost var queue0, depth0 := queue, depth;
      BeginExpanding(g, target, depth, queue, slots);
      depth := depth[cur.node := |cur.path|];
      queue := queue[1..];
      var i := 0;
      while i < |slots|
        invariant 0 <= i <= |slots|
        invariant Expanding(g, target, depth, queue, cur, slots, i)
        invariant |queue| < |queue0| + i
      {
        var conn := slots[i].target;
        if conn < VALID_CONVEYOR_ID_MIN || conn in visited {
          SkipExpands(g, target, depth, queue, cur, slots, i);
          i := i + 1;
          continue;
        }
        if conn == target {
          DiscoveryIsShortest(g, target, depth0, queue0, slots);
          ShortestIsFound(g, target, cur.path + [conn]);
          return cur.path + [conn], pops;
        }
        PushExpands(g, target, depth, queue, cur, slots, i);
        queue := queue + [Entry(conn, cur.path + [conn])];
        i := i + 1;
      }
      FinishExpanding(g, target, depth, queue, cur, slots);
    }
    NothingIsFound(g, target, depth);
    SubsetSize(visited, table.Keys);
    path := [];
  }
}
