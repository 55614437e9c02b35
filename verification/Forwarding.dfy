/** Forwarding of a message for a cluster actor between nodes whose member views differ. */
module Forwarding {
  import opened Rendezvous

  /** Where a reference points: a fixed address, or the owner of (kind, name). */
  datatype Target = Direct(address: Bytes) | Cluster(kind: Bytes, name: Bytes)

  /** What one node does with a message in tellWithSender. */
  datatype Decision = Local | NoOwner | Forward(address: Bytes)

  /** One node handling the message: its own address, whether the actor is already registered
      there, and the member view that its resolver used. */
  datatype Hop = Hop(self: Bytes, registered: bool, view: seq<Node>)

  ghost function OwnerIn(view: seq<Node>, kind: Bytes, name: Bytes): Bytes {
    OwnerOf(Eligible(view, kind), name)
  }

  ghost function Decide(h: Hop, target: Target): Decision {
    match target
    case Direct(address) => if address == h.self then Local else Forward(address)
    case Cluster(kind, name) =>
      if h.registered then Local
      else
        var owner := OwnerIn(h.view, kind, name);
        if owner == [] then NoOwner else if owner == h.self then Local else Forward(owner)
  }

  /** What a node answers, exactly: it keeps the message when the actor is registered there or the node owns
      it, has no owner when nobody is eligible, and otherwise names the owner. */
  lemma DecidesExactly(h: Hop, kind: Bytes, name: Bytes, a: Bytes)
    ensures var d, eligible := Decide(h, Cluster(kind, name)), Eligible(h.view, kind);
            && (d == NoOwner <==> !h.registered && eligible == {})
            && (d == Local <==> h.registered || (h.self in eligible && IsOwner(eligible, name, h.self)))
            && (d == Forward(a) <==> !h.registered && a != h.self && a in eligible && IsOwner(eligible, name, a))
  {
    var eligible := Eligible(h.view, kind);
    if a in eligible && IsOwner(eligible, name, a) { OwnerIsUnique(eligible, name, a, OwnerIn(h.view, kind, name)); }
    if h.self in eligible && IsOwner(eligible, name, h.self) { OwnerIsUnique(eligible, name, h.self, OwnerIn(h.view, kind, name)); }
  }

  ghost predicate ForwardedTo(hops: seq<Hop>, target: Target, i: nat)
    requires 0 < i < |hops|
  {
    Decide(hops[i - 1], target) == Forward(hops[i].self)
  }

  /** A message's way through the cluster: each node but the last forwards to the next. */
  ghost predicate IsChain(hops: seq<Hop>, target: Target) {
    forall i :: 0 < i < |hops| ==> ForwardedTo(hops, target, i)
  }

  /** The node lists itself, with the kind, in the view it routes by. */
  predicate SeesItself(h: Hop, kind: Bytes) { h.self in Eligible(h.view, kind) }

  /** The hypothesis: every node that the message was forwarded to sees itself. */
  ghost predicate ForwardeesSeeThemselves(hops: seq<Hop>, kind: Bytes) {
    forall i :: 0 < i < |hops| ==> SeesItself(hops[i], kind)
  }

  /** A node that sees itself forwards only to a node that it prefers to itself. */
  lemma ForwardClimbs(h: Hop, kind: Bytes, name: Bytes)
    requires SeesItself(h, kind) && Decide(h, Cluster(kind, name)).Forward?
    ensures Beats(name, Decide(h, Cluster(kind, name)).address, h.self)
  {
    OwnerBeats(Eligible(h.view, kind), name, h.self);
  }

  lemma HopClimbs(hops: seq<Hop>, kind: Bytes, name: Bytes, j: nat)
    requires IsChain(hops, Cluster(kind, name)) && 0 < j < |hops| && SeesItself(hops[j - 1], kind)
    ensures Beats(name, hops[j].self, hops[j - 1].self)
  {
    assert ForwardedTo(hops, Cluster(kind, name), j);
    ForwardClimbs(hops[j - 1], kind, name);
  }

  /** A sequence that climbs at every step, in any transitive order, climbs over any distance. */
  lemma {:induction false} Climbs(xs: seq<Bytes>, above: (Bytes, Bytes) -> bool, i: nat, j: nat)
    requires i < j < |xs| && forall k :: i < k < |xs| ==> above(xs[k], xs[k - 1])
    requires forall a, b, c :: above(a, b) && above(b, c) ==> above(a, c)
    ensures above(xs[j], xs[i])
    decreases j
  {
    if i < j - 1 { Climbs(xs, above, i, j - 1); }
  }

  function Addresses(hops: seq<Hop>): seq<Bytes> { seq(|hops|, i requires 0 <= i < |hops| => hops[i].self) }

  lemma ChainClimbs(hops: seq<Hop>, kind: Bytes, name: Bytes, i: nat, j: nat)
    requires IsChain(hops, Cluster(kind, name)) && ForwardeesSeeThemselves(hops, kind)
    requires 0 < i < j < |hops|
    ensures Beats(name, hops[j].self, hops[i].self)
  {
    var xs := Addresses(hops);
    var above := (a, b) => Beats(name, a, b);
    forall k | i < k < |xs| ensures above(xs[k], xs[k - 1]) {
      assert SeesItself(hops[k - 1], kind);
      HopClimbs(hops, kind, name, k);
    }
    forall a, b, c | above(a, b) && above(b, c) ensures above(a, c) { BeatsTransitive(name, a, b, c); }
    Climbs(xs, above, i, j);
  }

  /** No node is forwarded to twice. */
  lemma NoNodeRepeats(hops: seq<Hop>, kind: Bytes, name: Bytes, i: nat, j: nat)
    requires IsChain(hops, Cluster(kind, name)) && ForwardeesSeeThemselves(hops, kind)
    requires 0 < i < j < |hops|
    ensures hops[i].self != hops[j].self
  {
    ChainClimbs(hops, kind, name, i, j);
    BeatsIsStrictTotalOrder(name, hops[i].self, hops[i].self, hops[i].self);
  }

  /** Every address after the first was the choice of the node before it. */
  lemma ForwardsToOwner(hops: seq<Hop>, kind: Bytes, name: Bytes, i: nat)
    requires IsChain(hops, Cluster(kind, name)) && 0 < i < |hops|
    ensures hops[i].self == OwnerIn(hops[i - 1].view, kind, name) && hops[i].self != hops[i - 1].self
    ensures hops[i].self in Eligible(hops[i - 1].view, kind)
  {
    assert ForwardedTo(hops, Cluster(kind, name), i);
  }

  lemma {:induction false} DistinctFit(xs: seq<Bytes>, universe: set<Bytes>)
    requires forall i :: 0 <= i < |xs| ==> xs[i] in universe
    requires forall i, j :: 0 <= i < j < |xs| ==> xs[i] != xs[j]
    ensures |xs| <= |universe|
  {
    if xs != [] {
      var last := xs[|xs| - 1];
      DistinctFit(xs[..|xs| - 1], universe - {last});
    }
  }

  /** Forwarding ends: with only the addresses of `universe` in any view, a message is handled by
      at most one more node than there are addresses, whatever each view holds. */
  lemma ChainIsShort(hops: seq<Hop>, kind: Bytes, name: Bytes, universe: set<Bytes>)
    requires IsChain(hops, Cluster(kind, name)) && ForwardeesSeeThemselves(hops, kind)
    requires forall i :: 0 <= i < |hops| ==> Eligible(hops[i].view, kind) <= universe
    ensures |hops| <= |universe| + 1
  {
    if hops != [] {
      var xs := seq(|hops| - 1, i requires 0 <= i < |hops| - 1 => hops[i + 1].self);
      forall i | 0 <= i < |xs| ensures xs[i] in universe { ForwardsToOwner(hops, kind, name, i + 1); }
      forall i, j | 0 <= i < j < |xs| ensures xs[i] != xs[j] { NoNodeRepeats(hops, kind, name, i + 1, j + 1); }
      DistinctFit(xs, universe);
    }
  }

  /** When the first node sees itself too, no node at all handles the message twice. */
  lemma NoNodeRepeatsFromStart(hops: seq<Hop>, kind: Bytes, name: Bytes, j: nat)
    requires IsChain(hops, Cluster(kind, name)) && ForwardeesSeeThemselves(hops, kind)
    requires 0 < j < |hops| && SeesItself(hops[0], kind)
    ensures hops[0].self != hops[j].self
  {
    HopClimbs(hops, kind, name, 1);
    if 1 < j {
      ChainClimbs(hops, kind, name, 1, j);
      BeatsTransitive(name, hops[j].self, hops[1].self, hops[0].self);
    }
    BeatsIsStrictTotalOrder(name, hops[0].self, hops[0].self, hops[0].self);
  }

  /** The way has ended: its last node does not forward. */
  ghost predicate Ended(hops: seq<Hop>, target: Target) { hops != [] && !Decide(hops[|hops| - 1], target).Forward? }

  /** Where a way ends the message is kept: at a registered actor or at a node that takes itself for the
      owner. The one exception is a first node that knows of nobody eligible. */
  lemma EndDelivers(hops: seq<Hop>, kind: Bytes, name: Bytes)
    requires IsChain(hops, Cluster(kind, name)) && ForwardeesSeeThemselves(hops, kind) && Ended(hops, Cluster(kind, name))
    ensures var last := hops[|hops| - 1]; var d := Decide(last, Cluster(kind, name));
            && (d == Local ==> last.registered || IsOwner(Eligible(last.view, kind), name, last.self))
            && (d == Local || (d == NoOwner && |hops| == 1 && !last.registered && Eligible(last.view, kind) == {}))
  {
    var last := hops[|hops| - 1];
    DecidesExactly(last, kind, name, last.self);
    if |hops| > 1 { assert SeesItself(last, kind); }
  }

  /** When all views agree on who is eligible, and somebody is, a message is forwarded at most once and
      ends where the actor is registered or on its owner. */
  lemma AgreementDelivers(hops: seq<Hop>, kind: Bytes, name: Bytes)
    requires IsChain(hops, Cluster(kind, name)) && hops != []
    requires forall i :: 0 <= i < |hops| ==> Eligible(hops[i].view, kind) == Eligible(hops[0].view, kind)
    ensures |hops| <= 2 && (|hops| == 2 ==> Ended(hops, Cluster(kind, name)))
    ensures Ended(hops, Cluster(kind, name)) && Eligible(hops[0].view, kind) != {} ==>
              var last := hops[|hops| - 1];
              && Decide(last, Cluster(kind, name)) == Local
              && (last.registered || IsOwner(Eligible(hops[0].view, kind), name, last.self))
  {
    var last := hops[|hops| - 1];
    if |hops| >= 2 { ForwardsToOwner(hops, kind, name, 1); }
    if |hops| > 2 {
      ForwardsToOwner(hops, kind, name, 2);
      assert false;
    }
    DecidesExactly(last, kind, name, last.self);
  }

  lemma DirectHop(hops: seq<Hop>, address: Bytes, i: nat)
    requires IsChain(hops, Direct(address)) && 0 < i < |hops|
    ensures hops[i].self == address != hops[i - 1].self
  {
    assert ForwardedTo(hops, Direct(address), i);
  }

  /** A message for a direct reference is forwarded at most once, and only to its address, which keeps it. */
  lemma DirectTakesOneHop(hops: seq<Hop>, address: Bytes)
    requires IsChain(hops, Direct(address))
    ensures |hops| <= 2 && (|hops| == 2 ==> hops[1].self == address)
    ensures hops != [] ==> (Ended(hops, Direct(address)) <==> hops[|hops| - 1].self == address)
    ensures Ended(hops, Direct(address)) ==> Decide(hops[|hops| - 1], Direct(address)) == Local
  {
    if |hops| >= 2 { DirectHop(hops, address, 1); }
    if |hops| > 2 { DirectHop(hops, address, 2); assert false; }
  }

  function Bounce(a: Bytes, b: Bytes, kind: Bytes, n: nat): (hops: seq<Hop>)
    ensures |hops| == n
  {
    seq(n, i requires i >= 0 =>
      if i % 2 == 0 then Hop(a, false, [Node(b, [kind])]) else Hop(b, false, [Node(a, [kind])]))
  }

  lemma SingleNodeOwns(a: Bytes, kind: Bytes, name: Bytes)
    requires a != []
    ensures Eligible([Node(a, [kind])], kind) == {a} && OwnerIn([Node(a, [kind])], kind, name) == a
  {
    var view := [Node(a, [kind])];
    assert view[0].kinds[0] == kind;
  }

  /** Without self-visibility forwarding can go on for ever: two nodes that list only each other
      pass a message to and fro any number of times. */
  lemma BlindNodesLoop(a: Bytes, b: Bytes, kind: Bytes, name: Bytes, n: nat)
    requires a != [] && b != [] && a != b
    ensures IsChain(Bounce(a, b, kind, n), Cluster(kind, name))
    ensures n > 1 ==> !ForwardeesSeeThemselves(Bounce(a, b, kind, n), kind)
  {
    var hops := Bounce(a, b, kind, n);
    forall i | 0 < i < n ensures ForwardedTo(hops, Cluster(kind, name), i) {
      SingleNodeOwns(hops[i].self, kind, name);
    }
    if n > 1 {
      SingleNodeOwns(a, kind, name);
      assert !SeesItself(hops[1], kind);
    }
  }
}
