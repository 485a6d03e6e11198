/** Which peers a node subscribes to (src/peer_manager.rs, choose_peers). */
module PeerChoice {
  import opened Basics
  import opened Peers

  datatype Strategy = Uniform | HubAndSpoke | PreferLocal | PreferRemote

  /** The random generator: what it picks from some candidates, given how many are wanted and how
      often it was used before. Nothing is assumed but that it picks as many as it can, each once. */
  type Sampler = (seq<Uuid>, nat, nat) -> seq<Uuid>

  function Min(a: nat, b: nat): nat {
    if a < b then a else b
  }

  function Minus(a: nat, b: nat): nat {
    if a < b then 0 else a - b
  }

  ghost predicate IsSampler(sample: Sampler) {
    forall xs: seq<Uuid>, n: nat, k: nat ::
      multiset(sample(xs, n, k)) <= multiset(xs) && |sample(xs, n, k)| == Min(n, |xs|)
  }

  function Ids(ps: seq<Peer>): seq<Uuid> {
    seq(|ps|, i requires 0 <= i < |ps| => ps[i].id)
  }

  function Others(ps: seq<Peer>, me: Uuid): seq<Peer> {
    if ps == [] then [] else Others(ps[..|ps| - 1], me) + if ps[|ps| - 1].id != me then [ps[|ps| - 1]] else []
  }

  function InZone(ps: seq<Peer>, zone: Option<string>): seq<Peer> {
    if ps == [] then [] else InZone(ps[..|ps| - 1], zone) + if ps[|ps| - 1].zone == zone then [ps[|ps| - 1]] else []
  }

  function OutsideZone(ps: seq<Peer>, zone: Option<string>): seq<Peer> {
    if ps == [] then []
    else OutsideZone(ps[..|ps| - 1], zone) + if ps[|ps| - 1].zone != zone then [ps[|ps| - 1]] else []
  }

  /** Maximal runs of neighbours in the same zone. */
  function Chunks(ps: seq<Peer>): (r: seq<seq<Peer>>)
    ensures ps != [] ==> r != []
    ensures forall i :: 0 <= i < |r| ==> r[i] != []
  {
    if ps == [] then []
    else
      var p, before := ps[|ps| - 1], Chunks(ps[..|ps| - 1]);
      if |ps| > 1 && ps[|ps| - 2].zone == p.zone
      then before[|before| - 1 := before[|before| - 1] + [p]]
      else before + [[p]]
  }

  /** One peer from each chunk. */
  function ChunkPicks(chunks: seq<seq<Peer>>, sample: Sampler): seq<Uuid> {
    if chunks == [] then []
    else ChunkPicks(chunks[..|chunks| - 1], sample) + sample(Ids(chunks[|chunks| - 1]), 1, |chunks| - 1)
  }

  /** `order` is the order in which the hash map yields the known peers, `n` how many subscriptions are wanted. */
  function ChoosePeers(strategy: Strategy, order: seq<Peer>, me: Uuid, zone: Option<string>, n: nat,
                       sample: Sampler): set<Uuid> {
    var peers := Others(order, me);
    if strategy.HubAndSpoke? then
      var picks := ChunkPicks(Chunks(OutsideZone(peers, zone)), sample);
      var rest := sample(Ids(InZone(peers, zone)), Minus(n, |picks|), |picks|);
      Elements(rest + picks)
    else Elements(sample(Ids(peers), n, 0))
  }

  // ---------------------------------------------------------------- nobody is invented, nobody chosen twice

  lemma {:induction false} OthersFacts(ps: seq<Peer>, me: Uuid)
    ensures multiset(Ids(Others(ps, me))) <= multiset(Ids(ps)) && me !in Ids(Others(ps, me))
    ensures forall p :: p in Others(ps, me) <==> p in ps && p.id != me
  {
    OthersAre(ps, me);
    OthersAreSome(ps, me);
  }

  lemma {:induction false} OthersAre(ps: seq<Peer>, me: Uuid)
    ensures forall p :: p in Others(ps, me) <==> p in ps && p.id != me
  {
    if ps != [] {
      OthersAre(ps[..|ps| - 1], me);
      assert ps == ps[..|ps| - 1] + [ps[|ps| - 1]];
    }
  }

  lemma {:induction false} OthersAreSome(ps: seq<Peer>, me: Uuid)
    ensures multiset(Ids(Others(ps, me))) <= multiset(Ids(ps))
  {
    hide Ids;
    if ps == [] {
      assert Others(ps, me) == ps;
    } else {
      var before, p := ps[..|ps| - 1], ps[|ps| - 1];
      OthersAreSome(before, me);
      assert ps == before + [p];
      IdsAppend(before, p);
      IdsAppend(Others(before, me), p);
      assert Others(before, me) + [] == Others(before, me);
    }
  }

  lemma IdsAppend(ps: seq<Peer>, p: Peer)
    ensures Ids(ps + [p]) == Ids(ps) + [p.id]
  {
  }

  lemma {:induction false} PartitionFacts(ps: seq<Peer>, zone: Option<string>)
    ensures multiset(Ids(InZone(ps, zone))) + multiset(Ids(OutsideZone(ps, zone))) == multiset(Ids(ps))
    ensures forall p :: p in InZone(ps, zone) <==> p in ps && p.zone == zone
    ensures forall p :: p in OutsideZone(ps, zone) <==> p in ps && p.zone != zone
  {
    PartitionMembers(ps, zone);
    PartitionCounts(ps, zone);
  }

  lemma {:induction false} PartitionMembers(ps: seq<Peer>, zone: Option<string>)
    ensures forall p :: p in InZone(ps, zone) <==> p in ps && p.zone == zone
    ensures forall p :: p in OutsideZone(ps, zone) <==> p in ps && p.zone != zone
  {
    if ps != [] {
      PartitionMembers(ps[..|ps| - 1], zone);
      assert ps == ps[..|ps| - 1] + [ps[|ps| - 1]];
    }
  }

  lemma {:induction false} PartitionCounts(ps: seq<Peer>, zone: Option<string>)
    ensures multiset(Ids(InZone(ps, zone))) + multiset(Ids(OutsideZone(ps, zone))) == multiset(Ids(ps))
  {
    hide Ids;
    if ps == [] {
      assert InZone(ps, zone) == ps && OutsideZone(ps, zone) == ps;
      assert Ids(ps) == [] by { IdsLength(ps); }
    } else {
      var before, p := ps[..|ps| - 1], ps[|ps| - 1];
      PartitionCounts(before, zone);
      assert ps == before + [p];
      IdsAppend(before, p);
      IdsAppend(InZone(before, zone), p);
      IdsAppend(OutsideZone(before, zone), p);
      assert InZone(before, zone) + [] == InZone(before, zone)
               && OutsideZone(before, zone) + [] == OutsideZone(before, zone);
    }
  }

  function Flatten(chunks: seq<seq<Peer>>): seq<Peer> {
    if chunks == [] then [] else Flatten(chunks[..|chunks| - 1]) + chunks[|chunks| - 1]
  }

  /** Chunking only draws boundaries. */
  lemma {:induction false} FlattenChunks(ps: seq<Peer>)
    ensures Flatten(Chunks(ps)) == ps
  {
    if ps != [] {
      var p, chunks, before := ps[|ps| - 1], Chunks(ps), Chunks(ps[..|ps| - 1]);
      FlattenChunks(ps[..|ps| - 1]);
      assert ps == ps[..|ps| - 1] + [p];
      if |ps| > 1 && ps[|ps| - 2].zone == p.zone {
        assert chunks[..|chunks| - 1] == before[..|before| - 1];
      } else {
        assert chunks[..|chunks| - 1] == before;
      }
    }
  }

  lemma PickOne(sample: Sampler, xs: seq<Uuid>, k: nat)
    requires IsSampler(sample) && xs != []
    ensures |sample(xs, 1, k)| == 1 && multiset(sample(xs, 1, k)) <= multiset(xs) && sample(xs, 1, k)[0] in xs
  {
    assert sample(xs, 1, k)[0] in multiset(sample(xs, 1, k));
  }

  lemma IdsConcat(a: seq<Peer>, b: seq<Peer>)
    ensures Ids(a + b) == Ids(a) + Ids(b)
  {
  }

  lemma {:induction false} PicksFacts(chunks: seq<seq<Peer>>, sample: Sampler)
    requires IsSampler(sample) && forall i :: 0 <= i < |chunks| ==> chunks[i] != []
    ensures |ChunkPicks(chunks, sample)| == |chunks|
    ensures multiset(ChunkPicks(chunks, sample)) <= multiset(Ids(Flatten(chunks)))
    ensures forall i :: 0 <= i < |chunks| ==> ChunkPicks(chunks, sample)[i] in Ids(chunks[i])
  {
    PickPerChunk(chunks, sample);
    PicksAreSome(chunks, sample);
  }

  lemma {:induction false} PickPerChunk(chunks: seq<seq<Peer>>, sample: Sampler)
    requires IsSampler(sample) && forall i :: 0 <= i < |chunks| ==> chunks[i] != []
    ensures |ChunkPicks(chunks, sample)| == |chunks|
    ensures forall i :: 0 <= i < |chunks| ==> ChunkPicks(chunks, sample)[i] in Ids(chunks[i])
  {
    hide IsSampler;
    if chunks != [] {
      PickPerChunk(chunks[..|chunks| - 1], sample);
      PickOne(sample, Ids(chunks[|chunks| - 1]), |chunks| - 1);
    }
  }

  lemma {:induction false} PicksAreSome(chunks: seq<seq<Peer>>, sample: Sampler)
    requires IsSampler(sample) && forall i :: 0 <= i < |chunks| ==> chunks[i] != []
    ensures multiset(ChunkPicks(chunks, sample)) <= multiset(Ids(Flatten(chunks)))
  {
    hide IsSampler, Ids;
    if chunks != [] {
      var before, last := chunks[..|chunks| - 1], chunks[|chunks| - 1];
      PicksAreSome(before, sample);
      assert |Ids(last)| == |last| by { IdsLength(last); }
      PickOne(sample, Ids(last), |chunks| - 1);
      IdsConcat(Flatten(before), last);
    }
  }

  lemma IdsLength(ps: seq<Peer>)
    ensures |Ids(ps)| == |ps|
  {
  }

  /** The peer follows one from another zone, or nobody. */
  predicate StartsZone(ps: seq<Peer>, i: nat)
    requires i < |ps|
  {
    i == 0 || ps[i - 1].zone != ps[i].zone
  }

  function ZoneStarts(ps: seq<Peer>): set<nat> {
    set i: nat | i < |ps| && StartsZone(ps, i)
  }

  lemma {:induction false} StartsGrow(ps: seq<Peer>)
    requires ps != []
    ensures var n := |ps| - 1;
            |ZoneStarts(ps)| == |ZoneStarts(ps[..n])| + if StartsZone(ps, n) then 1 else 0
  {
    var n := |ps| - 1;
    assert forall i: nat :: i < n ==> (StartsZone(ps, i) <==> StartsZone(ps[..n], i));
    if StartsZone(ps, n) {
      assert ZoneStarts(ps) == ZoneStarts(ps[..n]) + {n};
    } else {
      assert ZoneStarts(ps) == ZoneStarts(ps[..n]);
    }
  }

  /** There is a chunk for every place where the zone changes. */
  lemma {:induction false} ChunkPerStart(ps: seq<Peer>)
    ensures |Chunks(ps)| == |ZoneStarts(ps)|
  {
    if ps == [] {
      assert ZoneStarts(ps) == {};
    } else {
      hide ZoneStarts;
      ChunkPerStart(ps[..|ps| - 1]);
      StartsGrow(ps);
    }
  }

  /** Only known peers other than the node itself are chosen, under every strategy. */
  lemma {:induction false} ChosenAreKnown(strategy: Strategy, order: seq<Peer>, me: Uuid, zone: Option<string>, n: nat,
                                          sample: Sampler)
    requires IsSampler(sample)
    ensures me !in ChoosePeers(strategy, order, me, zone, n, sample)
    ensures ChoosePeers(strategy, order, me, zone, n, sample) <= Elements(Ids(order))
  {
    var picked := Picked(strategy, order, me, zone, n, sample);
    OthersFacts(order, me);
    forall x | x in ChoosePeers(strategy, order, me, zone, n, sample) ensures x != me && x in Elements(Ids(order)) {
      assert x in multiset(picked);
      assert x in multiset(Ids(Others(order, me)));
      assert x in multiset(Ids(order));
    }
  }

  /** The chosen peers, as the sequence in which they were drawn. */
  lemma {:induction false} Picked(strategy: Strategy, order: seq<Peer>, me: Uuid, zone: Option<string>, n: nat,
                                  sample: Sampler) returns (picked: seq<Uuid>)
    requires IsSampler(sample)
    ensures ChoosePeers(strategy, order, me, zone, n, sample) == Elements(picked)
    ensures multiset(picked) <= multiset(Ids(Others(order, me)))
    ensures |picked| == if strategy.HubAndSpoke?
                        then var r := |Chunks(OutsideZone(Others(order, me), zone))|;
                             r + Min(Minus(n, r), |InZone(Others(order, me), zone)|)
                        else Min(n, |Others(order, me)|)
  {
    var peers := Others(order, me);
    if strategy.HubAndSpoke? {
      var chunks := Chunks(OutsideZone(peers, zone));
      PartitionFacts(peers, zone);
      FlattenChunks(OutsideZone(peers, zone));
      PicksFacts(chunks, sample);
      var picks := ChunkPicks(chunks, sample);
      var rest := sample(Ids(InZone(peers, zone)), Minus(n, |picks|), |picks|);
      assert multiset(rest) <= multiset(Ids(InZone(peers, zone)));
      picked := rest + picks;
    } else {
      picked := sample(Ids(peers), n, 0);
    }
  }

  // ---------------------------------------------------------------- how many, told from the order alone

  /** A peer other than the node itself, in another zone. */
  predicate RemoteAt(order: seq<Peer>, me: Uuid, zone: Option<string>, i: nat) {
    i < |order| && order[i].id != me && order[i].zone != zone
  }

  predicate LocalAt(order: seq<Peer>, me: Uuid, zone: Option<string>, i: nat) {
    i < |order| && order[i].id != me && order[i].zone == zone
  }

  /** The zone of the last remote peer before position `i`, if there is one; local peers do not count. */
  function ZoneBefore(order: seq<Peer>, me: Uuid, zone: Option<string>, i: nat): Option<Option<string>>
    requires i <= |order|
  {
    if i == 0 then None
    else if RemoteAt(order, me, zone, i - 1) then Some(order[i - 1].zone)
    else ZoneBefore(order, me, zone, i - 1)
  }

  /** A remote peer that follows a remote peer of another zone, or none. */
  predicate StartsRun(order: seq<Peer>, me: Uuid, zone: Option<string>, i: nat)
    requires i < |order|
  {
    RemoteAt(order, me, zone, i) && ZoneBefore(order, me, zone, i) != Some(order[i].zone)
  }

  function RunStarts(order: seq<Peer>, me: Uuid, zone: Option<string>): set<nat> {
    set i: nat | i < |order| && StartsRun(order, me, zone, i)
  }

  function Locals(order: seq<Peer>, me: Uuid, zone: Option<string>): set<nat> {
    set i: nat | i < |order| && LocalAt(order, me, zone, i)
  }

  predicate OtherAt(order: seq<Peer>, me: Uuid, i: nat) {
    i < |order| && order[i].id != me
  }

  function Eligible(order: seq<Peer>, me: Uuid): set<nat> {
    set i: nat | i < |order| && OtherAt(order, me, i)
  }

  /** The remote peers, in order. */
  function Remote(order: seq<Peer>, me: Uuid, zone: Option<string>): seq<Peer> {
    OutsideZone(Others(order, me), zone)
  }

  lemma {:induction false} OneMore(order: seq<Peer>, me: Uuid, zone: Option<string>)
    requires order != []
    ensures var (before, p) := (order[..|order| - 1], order[|order| - 1]);
            && Others(order, me) == Others(before, me) + (if p.id != me then [p] else [])
            && Remote(order, me, zone)
               == Remote(before, me, zone) + (if p.id != me && p.zone != zone then [p] else [])
            && InZone(Others(order, me), zone)
               == InZone(Others(before, me), zone) + (if p.id != me && p.zone == zone then [p] else [])
  {
    var before, p := order[..|order| - 1], order[|order| - 1];
    if p.id != me {
      assert Others(order, me)[..|Others(order, me)| - 1] == Others(before, me);
    } else {
      assert Others(order, me) == Others(before, me);
    }
  }

  lemma {:induction false} SameBefore(order: seq<Peer>, me: Uuid, zone: Option<string>, i: nat)
    requires i < |order|
    ensures ZoneBefore(order, me, zone, i) == ZoneBefore(order[..|order| - 1], me, zone, i)
    ensures i + 1 < |order| ==>
              (StartsRun(order, me, zone, i) <==> StartsRun(order[..|order| - 1], me, zone, i))
  {
    if i > 0 { SameBefore(order, me, zone, i - 1); }
  }

  lemma {:induction false} LastZone(order: seq<Peer>, me: Uuid, zone: Option<string>)
    ensures var remote := Remote(order, me, zone);
            ZoneBefore(order, me, zone, |order|)
            == if remote == [] then None else Some(remote[|remote| - 1].zone)
  {
    if order != [] {
      hide Remote;
      OneMore(order, me, zone);
      LastZone(order[..|order| - 1], me, zone);
      SameBefore(order, me, zone, |order| - 1);
    } else {
      assert Remote(order, me, zone) == [];
    }
  }

  lemma {:induction false} RunsGrow(order: seq<Peer>, me: Uuid, zone: Option<string>)
    requires order != []
    ensures var n := |order| - 1;
            |RunStarts(order, me, zone)|
            == |RunStarts(order[..n], me, zone)| + if StartsRun(order, me, zone, n) then 1 else 0
  {
    hide StartsRun;
    var n := |order| - 1;
    forall i: nat | i < n ensures StartsRun(order, me, zone, i) <==> StartsRun(order[..n], me, zone, i) {
      SameBefore(order, me, zone, i);
    }
    if StartsRun(order, me, zone, n) {
      assert RunStarts(order, me, zone) == RunStarts(order[..n], me, zone) + {n};
    } else {
      assert RunStarts(order, me, zone) == RunStarts(order[..n], me, zone);
    }
  }

  /** Whether the last peer starts a run depends on the last remote peer before it. */
  lemma {:induction false} LastStarts(order: seq<Peer>, me: Uuid, zone: Option<string>)
    requires order != []
    ensures var (before, p) := (Remote(order[..|order| - 1], me, zone), order[|order| - 1]);
            StartsRun(order, me, zone, |order| - 1)
            <==> p.id != me && p.zone != zone && (before == [] || before[|before| - 1].zone != p.zone)
  {
    hide Remote;
    LastZone(order[..|order| - 1], me, zone);
    SameBefore(order, me, zone, |order| - 1);
  }

  lemma {:induction false} CountRuns(order: seq<Peer>, me: Uuid, zone: Option<string>)
    ensures |ZoneStarts(Remote(order, me, zone))| == |RunStarts(order, me, zone)|
  {
    if order == [] {
      assert ZoneStarts(Remote(order, me, zone)) == {} && RunStarts(order, me, zone) == {};
    } else {
      hide Remote, StartsRun, RunStarts, ZoneStarts;
      var before, p := order[..|order| - 1], order[|order| - 1];
      CountRuns(before, me, zone);
      RunsGrow(order, me, zone);
      LastStarts(order, me, zone);
      OneMore(order, me, zone);
      if p.id != me && p.zone != zone {
        StartsGrow(Remote(order, me, zone));
        assert Remote(order, me, zone)[..|Remote(before, me, zone)|] == Remote(before, me, zone);
      } else {
        assert Remote(order, me, zone) == Remote(before, me, zone);
      }
    }
  }

  lemma SamePeer(order: seq<Peer>, me: Uuid, zone: Option<string>, n: nat, i: nat)
    requires i < n <= |order|
    ensures LocalAt(order, me, zone, i) <==> LocalAt(order[..n], me, zone, i)
    ensures RemoteAt(order, me, zone, i) <==> RemoteAt(order[..n], me, zone, i)
    ensures OtherAt(order, me, i) <==> OtherAt(order[..n], me, i)
  {
  }

  lemma {:induction false} LocalsGrow(order: seq<Peer>, me: Uuid, zone: Option<string>)
    requires order != []
    ensures var n := |order| - 1;
            |Locals(order, me, zone)| == |Locals(order[..n], me, zone)| + if LocalAt(order, me, zone, n) then 1 else 0
  {
    hide LocalAt;
    var n := |order| - 1;
    forall i: nat | i < n ensures LocalAt(order, me, zone, i) <==> LocalAt(order[..n], me, zone, i) {
      SamePeer(order, me, zone, n, i);
    }
    if LocalAt(order, me, zone, n) {
      assert Locals(order, me, zone) == Locals(order[..n], me, zone) + {n};
    } else {
      assert Locals(order, me, zone) == Locals(order[..n], me, zone);
    }
  }

  lemma {:induction false} EligibleGrow(order: seq<Peer>, me: Uuid)
    requires order != []
    ensures var n := |order| - 1;
            |Eligible(order, me)| == |Eligible(order[..n], me)| + if OtherAt(order, me, n) then 1 else 0
  {
    hide OtherAt;
    var n := |order| - 1;
    forall i: nat | i < n ensures OtherAt(order, me, i) <==> OtherAt(order[..n], me, i) {
      SamePeer(order, me, None, n, i);
    }
    if OtherAt(order, me, n) {
      assert Eligible(order, me) == Eligible(order[..n], me) + {n};
    } else {
      assert Eligible(order, me) == Eligible(order[..n], me);
    }
  }

  lemma {:induction false} CountOthers(order: seq<Peer>, me: Uuid, zone: Option<string>)
    ensures |InZone(Others(order, me), zone)| == |Locals(order, me, zone)|
    ensures |Others(order, me)| == |Eligible(order, me)|
  {
    if order != [] {
      hide Others, InZone, Locals, Eligible;
      CountOthers(order[..|order| - 1], me, zone);
      OneMore(order, me, zone);
      LocalsGrow(order, me, zone);
      EligibleGrow(order, me);
    }
  }

  /** How many peers are chosen. A hub-and-spoke node may end up with more than it wanted: one for
      every run of remote neighbours, and local ones only to fill up. */
  lemma {:induction false} HowManyAreChosen(strategy: Strategy, order: seq<Peer>, me: Uuid, zone: Option<string>,
                                            n: nat, sample: Sampler)
    requires IsSampler(sample) && NoDuplicates(Ids(order))
    ensures |ChoosePeers(strategy, order, me, zone, n, sample)|
         == if strategy.HubAndSpoke?
            then var r := |RunStarts(order, me, zone)|;
                 r + Min(Minus(n, r), |Locals(order, me, zone)|)
            else Min(n, |Eligible(order, me)|)
  {
    var picked := Picked(strategy, order, me, zone, n, sample);
    hide ChoosePeers, IsSampler, RunStarts, Locals, Eligible, ZoneStarts, Chunks;
    ChunkPerStart(Remote(order, me, zone));
    CountRuns(order, me, zone);
    CountOthers(order, me, zone);
    OthersFacts(order, me);
    SelectionHasNoDuplicates(picked, Ids(order));
    SizeOfElements(picked);
  }

  // ---------------------------------------------------------------- who can be chosen

  /** The draw that takes `x` if it can, and otherwise whoever comes first. */
  function Favouring(x: Uuid): Sampler {
    (xs: seq<Uuid>, n: nat, k: nat) => Favour(x, xs, n)
  }

  function Favour(x: Uuid, xs: seq<Uuid>, n: nat): seq<Uuid> {
    if x in xs && n > 0 then [x] + Without(xs, x)[..Min(n, |xs|) - 1] else xs[..Min(n, |xs|)]
  }

  /** `xs` without the first `x`. */
  function Without(xs: seq<Uuid>, x: Uuid): (r: seq<Uuid>)
    requires x in xs
    ensures |r| == |xs| - 1 && multiset(r) + multiset{x} == multiset(xs)
  {
    assert xs == [xs[0]] + xs[1..];
    if xs[0] == x then xs[1..] else [xs[0]] + Without(xs[1..], x)
  }

  lemma {:induction false} FavouringSamples(x: Uuid)
    ensures IsSampler(Favouring(x))
  {
    forall xs: seq<Uuid>, n: nat, k: nat
      ensures multiset(Favouring(x)(xs, n, k)) <= multiset(xs) && |Favouring(x)(xs, n, k)| == Min(n, |xs|)
    {
      var m := Min(n, |xs|);
      if x in xs && n > 0 {
        var rest := Without(xs, x);
        assert rest == rest[..m - 1] + rest[m - 1..];
      } else {
        assert xs == xs[..m] + xs[m..];
      }
    }
  }

  /** Every other peer has a chance, under every strategy, as long as there is a place for it: if any are wanted;
      for a hub-and-spoke node, if it is remote or more are wanted than the remote runs take. */
  lemma {:induction false} AnybodyCanBeChosen(strategy: Strategy, order: seq<Peer>, me: Uuid, zone: Option<string>,
                                              n: nat, i: nat) returns (sample: Sampler)
    requires i < |order| && order[i].id != me
    requires if strategy.HubAndSpoke? then order[i].zone != zone || n > |RunStarts(order, me, zone)| else n > 0
    ensures IsSampler(sample) && order[i].id in ChoosePeers(strategy, order, me, zone, n, sample)
  {
    hide RunStarts, IsSampler, Chunks, ChunkPicks, Others, InZone, OutsideZone;
    var p := order[i];
    var peers := Others(order, me);
    sample := Favouring(p.id);
    FavouringSamples(p.id);
    OthersFacts(order, me);
    if !strategy.HubAndSpoke? {
      FavourFinds(peers, p, n);
    } else {
      var chunks := Chunks(OutsideZone(peers, zone));
      PartitionFacts(peers, zone);
      PickPerChunk(chunks, sample);
      if p.zone == zone {
        ChunkPerStart(Remote(order, me, zone));
        CountRuns(order, me, zone);
        FavourFinds(InZone(peers, zone), p, Minus(n, |chunks|));
      } else {
        FlattenChunks(OutsideZone(peers, zone));
        ChunkFinds(chunks, p);
      }
    }
  }

  lemma FavourFinds(ps: seq<Peer>, p: Peer, n: nat)
    requires p in ps && n > 0
    ensures p.id in Favour(p.id, Ids(ps), n)
  {
    var k :| 0 <= k < |ps| && ps[k] == p;
    assert Ids(ps)[k] == p.id;
  }

  lemma {:induction false} ChunkFinds(chunks: seq<seq<Peer>>, p: Peer)
    requires p in Flatten(chunks)
    ensures p.id in ChunkPicks(chunks, Favouring(p.id))
  {
    if p in chunks[|chunks| - 1] {
      FavourFinds(chunks[|chunks| - 1], p, 1);
    } else {
      ChunkFinds(chunks[..|chunks| - 1], p);
    }
  }

  /** No local peer is chosen when the remote runs take every place. */
  lemma {:induction false} NoPlaceForLocals(order: seq<Peer>, me: Uuid, zone: Option<string>, n: nat, sample: Sampler,
                                            i: nat)
    requires IsSampler(sample) && NoDuplicates(Ids(order)) && LocalAt(order, me, zone, i)
    requires n <= |RunStarts(order, me, zone)|
    ensures order[i].id !in ChoosePeers(HubAndSpoke, order, me, zone, n, sample)
  {
    hide RunStarts, Others, InZone, OutsideZone, Chunks, ChunkPicks, ZoneStarts, NoDuplicates;
    var peers := Others(order, me);
    var chunks := Chunks(OutsideZone(peers, zone));
    PickPerChunk(chunks, sample);
    ChunkPerStart(Remote(order, me, zone));
    CountRuns(order, me, zone);
    assert |sample(Ids(InZone(peers, zone)), Minus(n, |chunks|), |chunks|)| == 0;
    LocalsAreNoPicks(order, me, zone, sample, order[i]);
  }

  lemma {:induction false} LocalsAreNoPicks(order: seq<Peer>, me: Uuid, zone: Option<string>, sample: Sampler, p: Peer)
    requires IsSampler(sample) && NoDuplicates(Ids(order)) && p in order && p.zone == zone
    ensures p.id !in ChunkPicks(Chunks(OutsideZone(Others(order, me), zone)), sample)
  {
    hide Others, InZone, OutsideZone, Chunks, ChunkPicks, IsSampler, NoDuplicates, Flatten;
    var remote := OutsideZone(Others(order, me), zone);
    var picks := ChunkPicks(Chunks(remote), sample);
    OthersFacts(order, me);
    PartitionFacts(Others(order, me), zone);
    FlattenChunks(remote);
    PicksFacts(Chunks(remote), sample);
    if p.id in picks {
      assert p.id in multiset(picks) && p.id in multiset(Ids(remote));
      var k :| 0 <= k < |remote| && Ids(remote)[k] == p.id;
      SameIdSamePeer(order, p, remote[k]);
      assert false;
    }
  }

  // ---------------------------------------------------------------- what the choice depends on

  /** The same identifiers and zones in the same places; keys and addresses may differ. */
  ghost predicate SameShape(ps: seq<Peer>, qs: seq<Peer>) {
    |ps| == |qs| && forall i :: 0 <= i < |ps| ==> ps[i].id == qs[i].id && ps[i].zone == qs[i].zone
  }

  ghost predicate SameShapes(ps: seq<seq<Peer>>, qs: seq<seq<Peer>>) {
    |ps| == |qs| && forall i :: 0 <= i < |ps| ==> SameShape(ps[i], qs[i])
  }

  lemma SameIds(ps: seq<Peer>, qs: seq<Peer>)
    requires SameShape(ps, qs)
    ensures Ids(ps) == Ids(qs)
  {
  }

  lemma {:induction false} OthersSame(ps: seq<Peer>, qs: seq<Peer>, me: Uuid)
    requires SameShape(ps, qs)
    ensures SameShape(Others(ps, me), Others(qs, me))
  {
    if ps != [] { OthersSame(ps[..|ps| - 1], qs[..|qs| - 1], me); }
  }

  lemma {:induction false} PartitionSame(ps: seq<Peer>, qs: seq<Peer>, zone: Option<string>)
    requires SameShape(ps, qs)
    ensures SameShape(InZone(ps, zone), InZone(qs, zone)) && SameShape(OutsideZone(ps, zone), OutsideZone(qs, zone))
  {
    if ps != [] { PartitionSame(ps[..|ps| - 1], qs[..|qs| - 1], zone); }
  }

  lemma {:induction false} ChunksSame(ps: seq<Peer>, qs: seq<Peer>)
    requires SameShape(ps, qs)
    ensures SameShapes(Chunks(ps), Chunks(qs))
  {
    if ps != [] { ChunksSame(ps[..|ps| - 1], qs[..|qs| - 1]); }
  }

  lemma {:induction false} PicksSame(ps: seq<seq<Peer>>, qs: seq<seq<Peer>>, sample: Sampler)
    requires SameShapes(ps, qs)
    ensures ChunkPicks(ps, sample) == ChunkPicks(qs, sample)
  {
    if ps != [] {
      PicksSame(ps[..|ps| - 1], qs[..|qs| - 1], sample);
      SameIds(ps[|ps| - 1], qs[|qs| - 1]);
    }
  }

  /** The choice depends on the identifiers and zones of the known peers alone, so a handshake that only
      brings keys does not change it. */
  lemma {:induction false} ChoiceSame(strategy: Strategy, ps: seq<Peer>, qs: seq<Peer>, me: Uuid, zone: Option<string>,
                                      n: nat, sample: Sampler)
    requires SameShape(ps, qs)
    ensures ChoosePeers(strategy, ps, me, zone, n, sample) == ChoosePeers(strategy, qs, me, zone, n, sample)
  {
    hide SameShape, Others, InZone, OutsideZone, Chunks, ChunkPicks, Ids;
    var ps', qs' := Others(ps, me), Others(qs, me);
    OthersSame(ps, qs, me);
    SameIds(ps', qs');
    PartitionSame(ps', qs', zone);
    SameIds(InZone(ps', zone), InZone(qs', zone));
    ChunksSame(OutsideZone(ps', zone), OutsideZone(qs', zone));
    PicksSame(Chunks(OutsideZone(ps', zone)), Chunks(OutsideZone(qs', zone)), sample);
  }

  // ---------------------------------------------------------------- zones

  function Zones(chunks: seq<seq<Peer>>): seq<Option<string>>
    requires forall i :: 0 <= i < |chunks| ==> chunks[i] != []
  {
    seq(|chunks|, i requires 0 <= i < |chunks| => chunks[i][0].zone)
  }

  /** Peers of one zone come one after the other. */
  ghost predicate Grouped(ps: seq<Peer>) {
    forall i, j, k :: 0 <= i < j < k < |ps| && ps[i].zone == ps[k].zone ==> ps[j].zone == ps[i].zone
  }

  lemma {:induction false} ChunkZones(ps: seq<Peer>)
    ensures var chunks := Chunks(ps);
            && (forall i, p :: 0 <= i < |chunks| && p in chunks[i] ==> p.zone == Zones(chunks)[i])
            && (ps != [] ==> Zones(chunks)[|chunks| - 1] == ps[|ps| - 1].zone)
            && (forall z :: z in Zones(chunks) <==> exists p :: p in ps && p.zone == z)
  {
    if ps != [] {
      var before, p := ps[..|ps| - 1], ps[|ps| - 1];
      ChunkZones(before);
      var chunks, chunks0 := Chunks(ps), Chunks(before);
      assert ps == before + [p];
      if |ps| > 1 && ps[|ps| - 2].zone == p.zone {
        assert Zones(chunks) == Zones(chunks0);
        assert before[|before| - 1] in before;
      } else {
        assert Zones(chunks) == Zones(chunks0) + [p.zone];
      }
    }
  }

  /** The chunks have distinct zones exactly when the peers come grouped by zone. */
  lemma {:induction false} DistinctIffGrouped(ps: seq<Peer>)
    ensures NoDuplicates(Zones(Chunks(ps))) <==> Grouped(ps)
  {
    if ps != [] {
      var before, p := ps[..|ps| - 1], ps[|ps| - 1];
      DistinctIffGrouped(before);
      ChunkZones(before);
      var zones, zones0 := Zones(Chunks(ps)), Zones(Chunks(before));
      if |ps| > 1 && ps[|ps| - 2].zone == p.zone {
        assert zones == zones0;
        GroupedSame(ps);
      } else {
        assert zones == zones0 + [p.zone];
        GroupedNew(ps);
        NoDuplicatesAppend(zones0, p.zone);
      }
    }
  }

  lemma {:induction false} GroupedSame(ps: seq<Peer>)
    requires |ps| > 1 && ps[|ps| - 2].zone == ps[|ps| - 1].zone
    ensures Grouped(ps) <==> Grouped(ps[..|ps| - 1])
  {
    var before, n := ps[..|ps| - 1], |ps| - 1;
    if Grouped(before) {
      forall i, j, k | 0 <= i < j < k < |ps| && ps[i].zone == ps[k].zone ensures ps[j].zone == ps[i].zone {
        if k == n && j < n - 1 {
          assert before[i].zone == before[n - 1].zone;
        }
      }
    }
  }

  lemma {:induction false} GroupedNew(ps: seq<Peer>)
    requires ps != [] && (|ps| > 1 ==> ps[|ps| - 2].zone != ps[|ps| - 1].zone)
    ensures Grouped(ps) <==> Grouped(ps[..|ps| - 1]) && forall q :: q in ps[..|ps| - 1] ==> q.zone != ps[|ps| - 1].zone
  {
    var before, n := ps[..|ps| - 1], |ps| - 1;
    if Grouped(ps) && n > 0 {
      assert forall i :: 0 <= i < n - 1 ==> ps[i].zone != ps[n].zone || ps[n - 1].zone == ps[i].zone;
      assert forall i :: 0 <= i < n ==> before[i].zone != ps[n].zone;
    }
  }

  lemma {:induction false} InFlatten(chunks: seq<seq<Peer>>, i: nat, p: Peer)
    requires i < |chunks| && p in chunks[i]
    ensures p in Flatten(chunks)
  {
    if i < |chunks| - 1 { InFlatten(chunks[..|chunks| - 1], i, p); }
  }

  lemma {:induction false} SameIdSamePeer(ps: seq<Peer>, p: Peer, q: Peer)
    requires NoDuplicates(Ids(ps)) && p in ps && q in ps && p.id == q.id
    ensures p == q
  {
    var i :| 0 <= i < |ps| && ps[i] == p;
    var j :| 0 <= j < |ps| && ps[j] == q;
    assert Ids(ps)[i] == Ids(ps)[j];
  }

  ghost predicate IsRemote(order: seq<Peer>, me: Uuid, zone: Option<string>, p: Peer) {
    p in order && p.id != me && p.zone != zone
  }

  /** A remote peer is chosen exactly when it is the pick of a chunk. */
  lemma {:induction false} ChosenRemote(order: seq<Peer>, me: Uuid, zone: Option<string>, n: nat, sample: Sampler,
                                        p: Peer)
    requires IsSampler(sample) && NoDuplicates(Ids(order)) && IsRemote(order, me, zone, p)
    ensures var chunks := Chunks(OutsideZone(Others(order, me), zone));
            |ChunkPicks(chunks, sample)| == |chunks| &&
            (p.id in ChoosePeers(HubAndSpoke, order, me, zone, n, sample) <==>
             exists i :: 0 <= i < |chunks| && p in chunks[i] && ChunkPicks(chunks, sample)[i] == p.id)
  {
    hide Others, InZone, OutsideZone, Chunks, ChunkPicks, Flatten;
    var peers := Others(order, me);
    var remote := OutsideZone(peers, zone);
    var chunks, picks := Chunks(remote), ChunkPicks(Chunks(remote), sample);
    OthersFacts(order, me);
    PartitionFacts(peers, zone);
    FlattenChunks(remote);
    PicksFacts(chunks, sample);
    var rest := sample(Ids(InZone(peers, zone)), Minus(n, |picks|), |picks|);
    if p.id in rest {
      assert p.id in multiset(rest) && p.id in multiset(Ids(InZone(peers, zone)));
      var k :| 0 <= k < |InZone(peers, zone)| && Ids(InZone(peers, zone))[k] == p.id;
      SameIdSamePeer(order, p, InZone(peers, zone)[k]);
      assert false;
    }
    if p.id in picks {
      var i :| 0 <= i < |picks| && picks[i] == p.id;
      var k :| 0 <= k < |chunks[i]| && Ids(chunks[i])[k] == p.id;
      InFlatten(chunks, i, chunks[i][k]);
      SameIdSamePeer(order, p, chunks[i][k]);
    }
  }

  /** The peer picked from a chunk. */
  lemma {:induction false} PickedFrom(order: seq<Peer>, me: Uuid, zone: Option<string>, n: nat, sample: Sampler,
                                      i: nat) returns (p: Peer)
    requires IsSampler(sample) && NoDuplicates(Ids(order)) && i < |Chunks(OutsideZone(Others(order, me), zone))|
    ensures var chunks := Chunks(OutsideZone(Others(order, me), zone));
            && IsRemote(order, me, zone, p) && p.zone == Zones(chunks)[i]
            && |ChunkPicks(chunks, sample)| == |chunks| && p.id == ChunkPicks(chunks, sample)[i]
            && p.id in ChoosePeers(HubAndSpoke, order, me, zone, n, sample)
  {
    hide ChoosePeers, Others, InZone, OutsideZone, Chunks, ChunkPicks, Flatten;
    var remote := OutsideZone(Others(order, me), zone);
    var chunks := Chunks(remote);
    OthersFacts(order, me);
    PartitionFacts(Others(order, me), zone);
    FlattenChunks(remote);
    PicksFacts(chunks, sample);
    ChunkZones(remote);
    var k :| 0 <= k < |chunks[i]| && Ids(chunks[i])[k] == ChunkPicks(chunks, sample)[i];
    p := chunks[i][k];
    InFlatten(chunks, i, p);
    ChosenRemote(order, me, zone, n, sample, p);
  }

  /** A hub-and-spoke node subscribes to somebody in every remote zone. */
  lemma {:induction false} EveryRemoteZoneIsReached(order: seq<Peer>, me: Uuid, zone: Option<string>, n: nat,
                                                    sample: Sampler, p: Peer)
    requires IsSampler(sample) && NoDuplicates(Ids(order)) && IsRemote(order, me, zone, p)
    ensures exists q :: IsRemote(order, me, zone, q) && q.zone == p.zone
              && q.id in ChoosePeers(HubAndSpoke, order, me, zone, n, sample)
  {
    hide ChoosePeers, Others, InZone, OutsideZone, Chunks, ChunkPicks;
    var remote := OutsideZone(Others(order, me), zone);
    OthersFacts(order, me);
    PartitionFacts(Others(order, me), zone);
    ChunkZones(remote);
    assert p in remote;
    assert p.zone in Zones(Chunks(remote));
    var i :| 0 <= i < |Chunks(remote)| && Zones(Chunks(remote))[i] == p.zone;
    var q := PickedFrom(order, me, zone, n, sample, i);
  }

  ghost predicate OnePerRemoteZone(order: seq<Peer>, me: Uuid, zone: Option<string>, chosen: set<Uuid>) {
    forall p, q :: IsRemote(order, me, zone, p) && IsRemote(order, me, zone, q) ==>
      p.zone == q.zone && p.id in chosen && q.id in chosen ==> p == q
  }

  ghost predicate GroupedIn(order: seq<Peer>, me: Uuid, zone: Option<string>) {
    forall i: nat, j: nat, k: nat ::
      i < j < k && RemoteAt(order, me, zone, i) && RemoteAt(order, me, zone, j) && RemoteAt(order, me, zone, k) ==>
        order[i].zone == order[k].zone ==> order[j].zone == order[i].zone
  }

  ghost predicate Increasing(at: seq<nat>) {
    forall x, y :: 0 <= x < y < |at| ==> at[x] < at[y]
  }

  /** Position `at[x]` holds the remote peer number `x`, in order, and there are no others. */
  ghost predicate Locate(order: seq<Peer>, me: Uuid, zone: Option<string>, at: seq<nat>) {
    && Increasing(at) && |at| == |Remote(order, me, zone)|
    && (forall x :: 0 <= x < |at| ==> RemoteAt(order, me, zone, at[x]) && order[at[x]] == Remote(order, me, zone)[x])
    && (forall i: nat :: RemoteAt(order, me, zone, i) ==> i in at)
  }

  lemma {:induction false} LocateSame(order: seq<Peer>, me: Uuid, zone: Option<string>, n: nat, at: seq<nat>)
    requires |order| == n + 1 && Locate(order[..n], me, zone, at) && !RemoteAt(order, me, zone, n)
    requires Remote(order, me, zone) == Remote(order[..n], me, zone)
    ensures Locate(order, me, zone, at)
  {
    hide Remote;
    forall x | 0 <= x < |at|
      ensures RemoteAt(order, me, zone, at[x]) && order[at[x]] == Remote(order, me, zone)[x]
    {
      SamePeer(order, me, zone, n, at[x]);
    }
    forall i: nat | RemoteAt(order, me, zone, i) ensures i in at { SamePeer(order, me, zone, n, i); }
  }

  lemma {:induction false} LocateOne(order: seq<Peer>, me: Uuid, zone: Option<string>, n: nat, at: seq<nat>)
    requires |order| == n + 1 && Locate(order[..n], me, zone, at) && RemoteAt(order, me, zone, n)
    requires Remote(order, me, zone) == Remote(order[..n], me, zone) + [order[n]]
    ensures Locate(order, me, zone, at + [n])
  {
    hide Remote;
    forall x | 0 <= x < |at|
      ensures at[x] < n && RemoteAt(order, me, zone, at[x]) && order[at[x]] == Remote(order, me, zone)[x]
    {
      SamePeer(order, me, zone, n, at[x]);
    }
    forall i: nat | RemoteAt(order, me, zone, i) ensures i in at + [n] {
      if i < n { SamePeer(order, me, zone, n, i); }
    }
  }

  lemma {:induction false} Positions(order: seq<Peer>, me: Uuid, zone: Option<string>) returns (at: seq<nat>)
    ensures Locate(order, me, zone, at)
  {
    at := [];
    if order != [] {
      hide Locate, Remote;
      var n := |order| - 1;
      at := Positions(order[..n], me, zone);
      OneMore(order, me, zone);
      if RemoteAt(order, me, zone, n) {
        LocateOne(order, me, zone, n, at);
        at := at + [n];
      } else {
        LocateSame(order, me, zone, n, at);
      }
    }
  }

  lemma {:induction false} LocatedBetween(order: seq<Peer>, me: Uuid, zone: Option<string>, at: seq<nat>, i: nat,
                                          j: nat, k: nat)
    requires Locate(order, me, zone, at) && Grouped(Remote(order, me, zone)) && i < j < k
    requires RemoteAt(order, me, zone, i) && RemoteAt(order, me, zone, j) && RemoteAt(order, me, zone, k)
    requires order[i].zone == order[k].zone
    ensures order[j].zone == order[i].zone
  {
    hide Remote;
    var x :| 0 <= x < |at| && at[x] == i;
    var y :| 0 <= y < |at| && at[y] == j;
    var z :| 0 <= z < |at| && at[z] == k;
    assert x < y < z;
  }

  lemma {:induction false} GroupedAlike(order: seq<Peer>, me: Uuid, zone: Option<string>)
    ensures Grouped(Remote(order, me, zone)) <==> GroupedIn(order, me, zone)
  {
    hide Remote;
    var remote := Remote(order, me, zone);
    var at := Positions(order, me, zone);
    if GroupedIn(order, me, zone) {
      forall x, y, z | 0 <= x < y < z < |remote| && remote[x].zone == remote[z].zone
        ensures remote[y].zone == remote[x].zone
      {
        assert at[x] < at[y] < at[z];
      }
    }
    hide Locate, Grouped;
    if Grouped(remote) {
      forall i: nat, j: nat, k: nat
        | i < j < k && RemoteAt(order, me, zone, i) && RemoteAt(order, me, zone, j) && RemoteAt(order, me, zone, k)
          && order[i].zone == order[k].zone
        ensures order[j].zone == order[i].zone
      {
        LocatedBetween(order, me, zone, at, i, j, k);
      }
    }
  }

  /** It subscribes to only one in each, as promised, if and only if the hash map happens to yield
      its remote peers grouped by zone: between two remote peers of one zone there is none of a third. */
  lemma {:induction false} OnePerRemoteZoneIffGrouped(order: seq<Peer>, me: Uuid, zone: Option<string>, n: nat,
                                                      sample: Sampler)
    requires IsSampler(sample) && NoDuplicates(Ids(order))
    ensures OnePerRemoteZone(order, me, zone, ChoosePeers(HubAndSpoke, order, me, zone, n, sample))
       <==> GroupedIn(order, me, zone)
  {
    var remote := Remote(order, me, zone);
    hide ChoosePeers, IsSampler, OnePerRemoteZone, Chunks, Grouped, GroupedIn;
    DistinctIffGrouped(remote);
    GroupedAlike(order, me, zone);
    if Grouped(remote) {
      AtMostOnePerZone(order, me, zone, n, sample);
    } else {
      TwoFromOneZone(order, me, zone, n, sample);
    }
  }

  lemma {:induction false} AtMostOnePerZone(order: seq<Peer>, me: Uuid, zone: Option<string>, n: nat, sample: Sampler)
    requires IsSampler(sample) && NoDuplicates(Ids(order))
    requires NoDuplicates(Zones(Chunks(OutsideZone(Others(order, me), zone))))
    ensures OnePerRemoteZone(order, me, zone, ChoosePeers(HubAndSpoke, order, me, zone, n, sample))
  {
    hide ChoosePeers, Chunks, ChunkPicks, OutsideZone, Others;
    var chosen := ChoosePeers(HubAndSpoke, order, me, zone, n, sample);
    ChunkZones(OutsideZone(Others(order, me), zone));
    forall p, q | IsRemote(order, me, zone, p) && IsRemote(order, me, zone, q) &&
                  p.zone == q.zone && p.id in chosen && q.id in chosen
      ensures p == q
    {
      ChosenRemote(order, me, zone, n, sample, p);
      ChosenRemote(order, me, zone, n, sample, q);
      SameIdSamePeer(order, p, q);
    }
  }

  lemma {:induction false} TwoFromOneZone(order: seq<Peer>, me: Uuid, zone: Option<string>, n: nat, sample: Sampler)
    requires IsSampler(sample) && NoDuplicates(Ids(order))
    requires !NoDuplicates(Zones(Chunks(OutsideZone(Others(order, me), zone))))
    ensures !OnePerRemoteZone(order, me, zone, ChoosePeers(HubAndSpoke, order, me, zone, n, sample))
  {
    hide ChoosePeers, Chunks, ChunkPicks, OutsideZone, Others, Flatten;
    var chunks := Chunks(OutsideZone(Others(order, me), zone));
    var i, j :| 0 <= i < j < |chunks| && Zones(chunks)[i] == Zones(chunks)[j];
    var p := PickedFrom(order, me, zone, n, sample, i);
    var q := PickedFrom(order, me, zone, n, sample, j);
    PicksDistinct(order, me, zone, sample);
  }

  lemma {:induction false} PicksDistinct(order: seq<Peer>, me: Uuid, zone: Option<string>, sample: Sampler)
    requires IsSampler(sample) && NoDuplicates(Ids(order))
    ensures NoDuplicates(ChunkPicks(Chunks(OutsideZone(Others(order, me), zone)), sample))
  {
    var remote := OutsideZone(Others(order, me), zone);
    OthersFacts(order, me);
    PartitionFacts(Others(order, me), zone);
    FlattenChunks(remote);
    PicksFacts(Chunks(remote), sample);
    SelectionHasNoDuplicates(ChunkPicks(Chunks(remote), sample), Ids(order));
  }

  /** The smallest order that breaks the promise: two peers of a zone with another zone between them. */
  lemma {:induction false} InterleavedZones(p: Peer, q: Peer, r: Peer, me: Uuid, n: nat, sample: Sampler)
    requires IsSampler(sample) && p.id != q.id && q.id != r.id && p.id != r.id && me !in {p.id, q.id, r.id}
    requires p.zone == r.zone == Some("east") && q.zone == Some("west")
    ensures !OnePerRemoteZone([p, q, r], me, None, ChoosePeers(HubAndSpoke, [p, q, r], me, None, n, sample))
  {
    hide IsSampler, ChoosePeers, OnePerRemoteZone;
    var order := [p, q, r];
    assert RemoteAt(order, me, None, 0) && RemoteAt(order, me, None, 1) && RemoteAt(order, me, None, 2);
    assert !GroupedIn(order, me, None) by { assert order[0].zone == order[2].zone && order[1].zone != order[0].zone; }
    OnePerRemoteZoneIffGrouped(order, me, None, n, sample);
  }
}
