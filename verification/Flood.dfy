/** One message flooding a fixed graph: nodes forward it the first time they see it. */
module Flood {
  import opened Basics

  /** Where each node sends what it forwards. */
  type Graph = map<Addr, seq<Addr>>

  ghost predicate Closed(g: Graph) {
    forall n, t :: n in g && t in g[n] ==> t in g
  }

  /** The nodes that saw the message, in order, origin first; the destinations of the copies in
      flight and of those lost; how many copies were sent, delivered, and made by the network. */
  datatype State = State(
    order: seq<Addr>, inflight: multiset<Addr>, lost: multiset<Addr>, sent: nat, delivered: nat, repeated: nat)

  function Begin(g: Graph, origin: Addr): State
    requires origin in g
  {
    State([origin], multiset(g[origin]), multiset{}, |g[origin]|, 0, 0)
  }

  function Deliver(g: Graph, s: State, to: Addr): State
    requires to in g
  {
    var rest := s.inflight - multiset{to};
    if to in s.order then State(s.order, rest, s.lost, s.sent, s.delivered + 1, s.repeated)
    else State(s.order + [to], rest + multiset(g[to]), s.lost, s.sent + |g[to]|, s.delivered + 1, s.repeated)
  }

  function Repeat(s: State, to: Addr): State {
    s.(inflight := s.inflight + multiset{to}, repeated := s.repeated + 1)
  }

  function Lose(s: State, to: Addr): State {
    s.(inflight := s.inflight - multiset{to}, lost := s.lost + multiset{to})
  }

  ghost predicate IsPath(g: Graph, path: seq<Addr>) {
    && path != [] && path[0] in g
    && forall i :: 0 <= i < |path| - 1 ==> path[i] in g && path[i + 1] in g[path[i]]
  }

  ghost predicate Reachable(g: Graph, origin: Addr, n: Addr) {
    exists path :: IsPath(g, path) && path[0] == origin && path[|path| - 1] == n
  }

  lemma {:induction false} ReachableStep(g: Graph, origin: Addr, n: Addr, t: Addr)
    requires Reachable(g, origin, n) && n in g && t in g[n]
    ensures Reachable(g, origin, t)
  {
    var path :| IsPath(g, path) && path[0] == origin && path[|path| - 1] == n;
    assert IsPath(g, path + [t]);
  }

  /** What one forwarding by each of these nodes costs. */
  function Cost(g: Graph, nodes: seq<Addr>): nat {
    if nodes == [] then 0
    else Cost(g, nodes[..|nodes| - 1]) + if nodes[|nodes| - 1] in g then |g[nodes[|nodes| - 1]]| else 0
  }

  ghost predicate Inv(g: Graph, origin: Addr, s: State) {
    && s.order != [] && s.order[0] == origin && NoDuplicates(s.order)
    && (forall n :: n in s.order || n in s.inflight || n in s.lost ==> n in g && Reachable(g, origin, n))
    && (forall n, t :: n in s.order && n in g && t in g[n] ==> t in s.order || t in s.inflight || t in s.lost)
    && s.sent == Cost(g, s.order) && s.sent + s.repeated == s.delivered + |s.lost| + |s.inflight|
  }

  lemma {:induction false} BeginOk(g: Graph, origin: Addr)
    requires Closed(g) && origin in g
    ensures Inv(g, origin, Begin(g, origin))
  {
    assert IsPath(g, [origin]);
    forall t | t in g[origin] ensures Reachable(g, origin, t) { ReachableStep(g, origin, origin, t); }
    assert [origin][..0] == [];
  }

  lemma {:induction false} DeliverOk(g: Graph, origin: Addr, s: State, to: Addr)
    requires Closed(g) && Inv(g, origin, s) && to in s.inflight
    ensures Inv(g, origin, Deliver(g, s, to))
  {
    hide Reachable, Cost;
    assert s.inflight == s.inflight - multiset{to} + multiset{to};
    if to !in s.order { ForwardOk(g, origin, s, to); }
  }

  lemma {:induction false} ForwardOk(g: Graph, origin: Addr, s: State, to: Addr)
    requires Closed(g) && Inv(g, origin, s) && to in s.inflight && to !in s.order
    ensures Inv(g, origin, Deliver(g, s, to))
  {
    hide Reachable;
    var s' := Deliver(g, s, to);
    forall t | t in g[to] ensures Reachable(g, origin, t) { ReachableStep(g, origin, to, t); }
    assert s.inflight == s.inflight - multiset{to} + multiset{to};
    assert s'.order[..|s.order|] == s.order;
  }

  /** The network may duplicate and drop copies; the accounts stay right. */
  lemma {:induction false} RepeatOk(g: Graph, origin: Addr, s: State, to: Addr)
    requires Inv(g, origin, s) && to in s.inflight
    ensures Inv(g, origin, Repeat(s, to))
  {
    hide Reachable, Cost, NoDuplicates;
  }

  lemma {:induction false} LoseOk(g: Graph, origin: Addr, s: State, to: Addr)
    requires Inv(g, origin, s) && to in s.inflight
    ensures Inv(g, origin, Lose(s, to))
  {
    hide Reachable, Cost, NoDuplicates;
    assert s.inflight == s.inflight - multiset{to} + multiset{to};
  }

  /** Every delivery brings the end closer: a node less to reach, or else a copy less in flight. */
  lemma {:induction false} Progress(g: Graph, origin: Addr, s: State, to: Addr)
    requires Closed(g) && Inv(g, origin, s) && to in s.inflight
    ensures var (s', unseen) := (Deliver(g, s, to), g.Keys - Elements(s.order));
            var unseen' := g.Keys - Elements(s'.order);
            |unseen'| < |unseen| || (unseen' == unseen && |s'.inflight| < |s.inflight|)
  {
    hide Reachable, Cost, NoDuplicates;
    var s' := Deliver(g, s, to);
    assert s.inflight == s.inflight - multiset{to} + multiset{to};
    if to !in s.order {
      assert Elements(s'.order) == Elements(s.order) + {to};
      assert g.Keys - Elements(s.order) == (g.Keys - Elements(s'.order)) + {to};
    }
  }

  /** With nothing left in flight, every reachable node saw the message if and only if every node that
      a lost copy was meant for did. */
  lemma {:induction false} Coverage(g: Graph, origin: Addr, s: State)
    requires Inv(g, origin, s) && s.inflight == multiset{}
    ensures (forall n :: Reachable(g, origin, n) ==> n in s.order) <==> (forall t :: t in s.lost ==> t in s.order)
  {
    if forall t :: t in s.lost ==> t in s.order {
      forall n | Reachable(g, origin, n) ensures n in s.order {
        var path :| IsPath(g, path) && path[0] == origin && path[|path| - 1] == n;
        PathCovered(g, origin, s, path);
      }
    }
  }

  lemma {:induction false} PathCovered(g: Graph, origin: Addr, s: State, path: seq<Addr>)
    requires Inv(g, origin, s) && s.inflight == multiset{} && (forall t :: t in s.lost ==> t in s.order)
    requires IsPath(g, path) && path[0] == origin
    ensures path[|path| - 1] in s.order
  {
    hide Reachable, Cost, NoDuplicates;
    if |path| > 1 {
      PathCovered(g, origin, s, path[..|path| - 1]);
      assert path[|path| - 1] in g[path[|path| - 2]];
    }
  }

  lemma {:induction false} CostBound(g: Graph, nodes: seq<Addr>, d: nat)
    requires forall n :: n in g ==> |g[n]| <= d
    ensures Cost(g, nodes) <= |nodes| * d
  {
    if nodes != [] {
      CostBound(g, nodes[..|nodes| - 1], d);
      assert |nodes| * d == (|nodes| - 1) * d + d;
    }
  }

  lemma {:induction false} AtMostAllNodes(g: Graph, nodes: seq<Addr>)
    requires NoDuplicates(nodes) && forall n :: n in nodes ==> n in g
    ensures |nodes| <= |g.Keys|
  {
    SizeOfElements(nodes);
    var rest := g.Keys - Elements(nodes);
    assert g.Keys == Elements(nodes) + rest;
  }

  lemma TimesMonotone(a: nat, b: nat, d: nat)
    requires a <= b
    ensures a * d <= b * d
  {
  }

  /** With out-degree at most `d`, at most n * d copies are sent; the network adds what it repeats. */
  lemma {:induction false} SentBound(g: Graph, origin: Addr, s: State, d: nat)
    requires Inv(g, origin, s) && forall n :: n in g ==> |g[n]| <= d
    ensures s.sent <= |g.Keys| * d && s.delivered + |s.lost| + |s.inflight| <= |g.Keys| * d + s.repeated
  {
    hide Reachable, NoDuplicates, Cost;
    CostBound(g, s.order, d);
    AtMostAllNodes(g, s.order);
    TimesMonotone(|s.order|, |g.Keys|, d);
  }
}
