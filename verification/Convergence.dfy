/** Rounds of completed syncs along a connected graph of nodes bring every id to every node. */
module Convergence {
  import opened Chain
  import opened Proto
  import opened LogFormat
  import opened LogIndex
  import opened BucketSync
  import opened Gossip

  type Edge = (nat, nat)

  // ---------------------------------------------------------------- connected graphs

  predicate ClosedUnder(edges: set<Edge>, g: set<nat>) {
    forall e :: e in edges ==> (e.0 in g <==> e.1 in g)
  }

  /** No proper group of the nodes below `n` is closed under the edges. */
  ghost predicate Connected(edges: set<Edge>, n: nat) {
    forall g: set<nat> :: ClosedUnder(edges, g) && (exists i :: i in g && i < n) ==> forall j: nat :: j < n ==> j in g
  }

  // ---------------------------------------------------------------- rounds

  /** A session of the two nodes that was opened as number `first` or later is done. */
  ghost predicate Synced(c: Codec, first: nat, n: Net, e: Edge) {
    exists k :: first <= k < |n.links| && Done(c, n.links[k]) && JoinsEnds(n.links[k], e)
  }

  predicate JoinsEnds(l: Link, e: Edge) {
    (l.client == e.0 && l.server == e.1) || (l.client == e.1 && l.server == e.0)
  }

  /** During the steps a sync is opened and completed along every edge. */
  ghost predicate Round(c: Codec, n: Net, steps: seq<NetStep>, edges: set<Edge>) {
    forall e :: e in edges ==> Synced(c, |n.links|, Play(c, n, steps), e)
  }

  ghost predicate AllRounds(c: Codec, n: Net, rounds: seq<seq<NetStep>>, edges: set<Edge>)
    decreases |rounds|
  {
    rounds == [] || (Round(c, n, rounds[0], edges) && AllRounds(c, Play(c, n, rounds[0]), rounds[1..], edges))
  }

  function PlayAll(c: Codec, n: Net, rounds: seq<seq<NetStep>>): Net
    decreases |rounds|
  {
    if rounds == [] then n else PlayAll(c, Play(c, n, rounds[0]), rounds[1..])
  }

  ghost function TrailAll(c: Codec, n: Net, sp: Spread, rounds: seq<seq<NetStep>>): Spread
    decreases |rounds|
  {
    if rounds == [] then sp
    else TrailAll(c, Play(c, n, rounds[0]), Trail(c, n, sp, rounds[0]), rounds[1..])
  }

  // ---------------------------------------------------------------- one round

  /** Sessions from number `first` on were opened when `known` were informed. */
  ghost predicate OpenedKnowing(sp: Spread, first: nat, known: set<nat>) {
    known <= sp.informed && forall k :: first <= k < |sp.knew| ==> known <= sp.knew[k]
  }

  lemma {:induction false} TrailKeepsKnowing(
    c: Codec, n: Net, sp: Spread, steps: seq<NetStep>, first: nat, known: set<nat>)
    requires OpenedKnowing(sp, first, known)
    ensures OpenedKnowing(Trail(c, n, sp, steps), first, known)
    decreases |steps|
  {
    if steps != [] {
      TrailKeepsKnowing(c, Perform(c, n, steps[0]), Follow(c, n, sp, steps[0]), steps[1..], first, known);
    }
  }

  /** A round informs the neighbours of the informed. */
  lemma RoundInforms(c: Codec, n: Net, sp: Spread, steps: seq<NetStep>, edges: set<Edge>, ids: set<Id>)
    requires CodecOk(c) && NetOk(c, n) && SpreadOk(c, n, sp, ids) && Round(c, n, steps, edges)
    ensures var sp' := Trail(c, n, sp, steps);
            && sp.informed <= sp'.informed
            && forall e :: e in edges && (e.0 in sp.informed || e.1 in sp.informed) ==>
                             e.0 in sp'.informed && e.1 in sp'.informed
  {
    var n', sp' := Play(c, n, steps), Trail(c, n, sp, steps);
    TrailHolds(c, n, sp, steps, ids);
    TrailKeepsKnowing(c, n, sp, steps, |n.links|, sp.informed);
    forall e | e in edges && (e.0 in sp.informed || e.1 in sp.informed)
      ensures e.0 in sp'.informed && e.1 in sp'.informed
    {
      assert Synced(c, |n.links|, n', e);
      var k :| |n.links| <= k < |n'.links| && Done(c, n'.links[k]) && JoinsEnds(n'.links[k], e);
      assert KnewOk(c, n'.links[k], sp'.knew[k], sp'.informed, ids);
    }
  }

  lemma SmallerSet(a: set<nat>, b: set<nat>, i: nat)
    requires a <= b && i in b && i !in a
    ensures |a| < |b|
  {
    assert b == a + (b - a) && |b| == |a| + |b - a|;
    assert i in b - a;
  }

  /** Until everyone is informed each round informs someone else. */
  lemma RoundInformsMore(c: Codec, n: Net, sp: Spread, steps: seq<NetStep>, edges: set<Edge>, ids: set<Id>)
    requires CodecOk(c) && NetOk(c, n) && SpreadOk(c, n, sp, ids) && Round(c, n, steps, edges)
    requires Connected(edges, |n.nodes|) && sp.informed != {}
    ensures var sp' := Trail(c, n, sp, steps);
            sp.informed <= sp'.informed
            && ((forall i: nat :: i < |n.nodes| ==> i in sp.informed) || |sp.informed| < |sp'.informed|)
  {
    var sp' := Trail(c, n, sp, steps);
    RoundInforms(c, n, sp, steps, edges, ids);
    if ClosedUnder(edges, sp.informed) {
      var o :| o in sp.informed;
    } else {
      var e :| e in edges && (e.0 in sp.informed) != (e.1 in sp.informed);
      SmallerSet(sp.informed, sp'.informed, if e.0 in sp.informed then e.1 else e.0);
    }
  }

  // ---------------------------------------------------------------- enough rounds

  lemma {:induction false} FullSet(g: set<nat>, n: nat)
    requires (forall i :: i in g ==> i < n) && |g| >= n
    ensures forall i: nat :: i < n ==> i in g
    decreases n
  {
    if n > 0 {
      var rest := g - {n - 1};
      FullSet(rest, n - 1);
      if n - 1 !in g {
        assert rest == g;
        WithinBound(g, n - 1);
      }
      forall i: nat | i < n ensures i in g {
        assert i in rest || i == n - 1;
      }
    }
  }

  lemma {:induction false} WithinBound(g: set<nat>, n: nat)
    requires forall i :: i in g ==> i < n
    ensures |g| <= n
    decreases n
  {
    if n == 0 {
      assert forall i: nat :: i !in g;
    } else {
      WithinBound(g - {n - 1}, n - 1);
    }
  }

  lemma {:induction false} RoundsInformAll(
    c: Codec, n: Net, sp: Spread, rounds: seq<seq<NetStep>>, edges: set<Edge>, ids: set<Id>)
    requires CodecOk(c) && NetOk(c, n) && SpreadOk(c, n, sp, ids) && AllRounds(c, n, rounds, edges)
    requires Connected(edges, |n.nodes|) && sp.informed != {}
    requires |sp.informed| + |rounds| >= |n.nodes| || forall i: nat :: i < |n.nodes| ==> i in sp.informed
    ensures NetOk(c, PlayAll(c, n, rounds)) && Grown(n.nodes, PlayAll(c, n, rounds).nodes)
    ensures SpreadOk(c, PlayAll(c, n, rounds), TrailAll(c, n, sp, rounds), ids)
    ensures forall i: nat :: i < |n.nodes| ==> i in TrailAll(c, n, sp, rounds).informed
    decreases |rounds|
  {
    if rounds == [] {
      if |sp.informed| >= |n.nodes| { FullSet(sp.informed, |n.nodes|); }
    } else {
      var next, sp' := Play(c, n, rounds[0]), Trail(c, n, sp, rounds[0]);
      PlayKeeps(c, n, rounds[0]);
      TrailHolds(c, n, sp, rounds[0], ids);
      RoundInformsMore(c, n, sp, rounds[0], edges, ids);
      RoundsInformAll(c, next, sp', rounds[1..], edges, ids);
      GrownTrans(n.nodes, next.nodes, PlayAll(c, n, rounds).nodes);
    }
  }

  /** With one round less than there are nodes, every node holds what any node held at the beginning; sessions
      of a round may overlap, and others may be opened, aborted or disturbed at the same time. */
  lemma RoundsSpreadEverything(
    c: Codec, n: Net, rounds: seq<seq<NetStep>>, edges: set<Edge>, origin: nat, node: nat)
    requires CodecOk(c) && NetOk(c, n) && AllRounds(c, n, rounds, edges) && Connected(edges, |n.nodes|)
    requires |rounds| >= |n.nodes| - 1 && origin < |n.nodes| && node < |n.nodes|
    ensures |PlayAll(c, n, rounds).nodes| == |n.nodes|
    ensures IdSet(n.nodes[origin].log) <= IdSet(PlayAll(c, n, rounds).nodes[node].log)
  {
    var sp := Spread({origin}, seq(|n.links|, _ => {}));
    RoundsInformAll(c, n, sp, rounds, edges, IdSet(n.nodes[origin].log));
  }

  // ---------------------------------------------------------------- exactly the union

  predicate NoWrites(rounds: seq<seq<NetStep>>) {
    forall r :: r in rounds ==> forall st :: st in r ==> !st.Write?
  }

  lemma {:induction false} NothingWritten(g: set<nat>, steps: seq<NetStep>)
    requires forall st :: st in steps ==> !st.Write?
    ensures WrittenInto(g, steps) == {}
    decreases |steps|
  {
    if steps != [] {
      assert steps[0] in steps && forall st :: st in steps[1..] ==> st in steps;
      NothingWritten(g, steps[1..]);
    }
  }

  function Below(n: nat): (g: set<nat>)
    ensures forall i: nat :: i in g <==> i < n
  {
    if n == 0 then {} else Below(n - 1) + {n - 1}
  }

  function AllNodes(n: Net): set<nat> {
    Below(|n.nodes|)
  }

  /** Without local writers the nodes hold together what they held together before. */
  lemma {:induction false} RoundsConserve(c: Codec, n: Net, rounds: seq<seq<NetStep>>, id: Id)
    requires NetOk(c, n) && NoWrites(rounds)
    ensures |PlayAll(c, n, rounds).nodes| == |n.nodes|
    ensures GroupHolds(PlayAll(c, n, rounds).nodes, AllNodes(n), id) ==> GroupHolds(n.nodes, AllNodes(n), id)
    decreases |rounds|
  {
    if rounds != [] {
      var r, g := rounds[0], AllNodes(n);
      assert r in rounds && forall x :: x in rounds[1..] ==> x in rounds;
      NothingWritten(g, r);
      PlayKeeps(c, n, r);
      forall k | 0 <= k < |n.links| ensures Inside(g, n.links[k].client, n.links[k].server) {
        assert LinkOk(c, n.nodes, n.links[k]);
      }
      GroupConserves(c, n, g, r, id);
      RoundsConserve(c, Play(c, n, r), rounds[1..], id);
    }
  }

  /** If nobody writes meanwhile, then after the rounds every node holds exactly the union. */
  lemma RoundsReachUnion(c: Codec, n: Net, rounds: seq<seq<NetStep>>, edges: set<Edge>, node: nat, id: Id)
    requires CodecOk(c) && NetOk(c, n) && AllRounds(c, n, rounds, edges) && Connected(edges, |n.nodes|)
    requires |rounds| >= |n.nodes| - 1 && node < |n.nodes| && NoWrites(rounds)
    ensures |PlayAll(c, n, rounds).nodes| == |n.nodes|
    ensures id in IdSet(PlayAll(c, n, rounds).nodes[node].log) <==> GroupHolds(n.nodes, AllNodes(n), id)
  {
    RoundsConserve(c, n, rounds, id);
    if GroupHolds(n.nodes, AllNodes(n), id) {
      var i :| i in AllNodes(n) && i < |n.nodes| && id in IdSet(n.nodes[i].log);
      RoundsSpreadEverything(c, n, rounds, edges, i, node);
    }
    if id in IdSet(PlayAll(c, n, rounds).nodes[node].log) {
      assert node in AllNodes(n);
    }
  }
}
