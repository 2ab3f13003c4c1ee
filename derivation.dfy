/**
 * Connection derivation: the walk over the card list that produces the
 * ordered list of connection records (resolved links and dangling endpoint
 * stubs). The three flowchart components carry the same code; it is
 * modelled once here.
 */
module Derivation {
  import opened FlowTypes
  import opened SeqUtil

  /** Where a relation's line leaves its card: the bottom edge, at the centre for `next`, left of it for `yes`, right of it for `no`. */
  function SourceAnchor(n: Node, rel: Relation): Pos
  {
    match rel
    case Next => Pos(n.position.x + 150, n.position.y + 60)
    case Yes => Pos(n.position.x + 100, n.position.y + 60)
    case No => Pos(n.position.x + 200, n.position.y + 60)
  }

  /** Where a resolved line enters its target: the top edge, at the centre. */
  function TargetAnchor(t: Node): Pos
  {
    Pos(t.position.x + 150, t.position.y)
  }

  /** The free end of an endpoint stub, where the add button sits. */
  function StubTip(n: Node, rel: Relation): Pos
  {
    match rel
    case Next => Pos(n.position.x + 150, n.position.y + 120)
    case Yes => Pos(n.position.x + 50, n.position.y + 120)
    case No => Pos(n.position.x + 250, n.position.y + 120)
  }

  /** The record pushed for a relation of `n` that names the card `t`. */
  function Resolved(n: Node, t: Node, rel: Relation): Connection
  {
    Connection(n.id, Some(t.id), SourceAnchor(n, rel), TargetAnchor(t), rel, false)
  }

  /** The record pushed for an open relation of `n`. */
  function Endpoint(n: Node, rel: Relation): Connection
  {
    Connection(n.id, None, SourceAnchor(n, rel), StubTip(n, rel), rel, true)
  }

  /** What one relation id contributes: a resolved record when some card has that id, nothing otherwise. */
  function ResolveTo(all: seq<Node>, n: Node, rel: Relation, target: int): seq<Connection>
  {
    match Find(all, target)
    case Some(t) => [Resolved(n, t, rel)]
    case None => []
  }

  /** `ResolveTo` for the `next` entries of `n`, as a function of the entry. */
  function NextResolver(all: seq<Node>, n: Node): int -> seq<Connection>
  {
    target => ResolveTo(all, n, Next, target)
  }

  /** The records for the entries of a `next` list, in list order. */
  function NextTargets(all: seq<Node>, n: Node, ids: seq<int>): seq<Connection>
  {
    ConcatMap(ids, NextResolver(all, n))
  }

  /** `next` records: one per resolving entry, a stub for an empty list, nothing for an absent one. */
  function NextConnections(all: seq<Node>, n: Node): seq<Connection>
  {
    if n.next.Some? && |n.next.value| > 0 then NextTargets(all, n, n.next.value)
    else if n.next.Some? && |n.next.value| == 0 then [Endpoint(n, Next)]
    else []
  }

  /**
   * `yes`/`no` records for the branch field `field` of `n`: the resolved link
   * when the field is truthy, a stub for a condition card without it.
   */
  function BranchConnections(all: seq<Node>, n: Node, rel: Relation, field: Option<int>): seq<Connection>
  {
    if Truthy(field) then ResolveTo(all, n, rel, field.value)
    else if n.kind == Condition && !Truthy(field) then [Endpoint(n, rel)]
    else []
  }

  /** Everything one card contributes: its `next` records, then `yes`, then `no`. */
  function NodeConnections(all: seq<Node>, n: Node): seq<Connection>
  {
    NextConnections(all, n) + BranchConnections(all, n, Yes, n.yes) + BranchConnections(all, n, No, n.no)
  }

  /** `NodeConnections` over the list `all`, as a function of the card. */
  function Records(all: seq<Node>): Node -> seq<Connection>
  {
    n => NodeConnections(all, n)
  }

  /** The full derived connection list: every card's records, in card order. */
  function Derive(all: seq<Node>): seq<Connection>
  {
    ConcatMap(all, Records(all))
  }

  /**
   * The derivation loop: walks the cards in order, pushing each card's
   * records onto the growing list.
   */
  method DeriveConnections(nodes: seq<Node>) returns (conns: seq<Connection>)
    ensures conns == Derive(nodes)
  {
    conns := [];
    var i := 0;
    while i < |nodes|
      invariant 0 <= i <= |nodes|
      invariant conns == ConcatMap(nodes[..i], Records(nodes))
    {
      ConcatMapStep(nodes, Records(nodes), i);
      conns := PushNodeConnections(nodes, nodes[i], conns);
      i := i + 1;
    }
    assert nodes[..i] == nodes;
  }

  /** The body of the walk for one card: its `next` records, then `yes`, then `no`. */
  method PushNodeConnections(nodes: seq<Node>, node: Node, conns: seq<Connection>) returns (out: seq<Connection>)
    ensures out == conns + NodeConnections(nodes, node)
  {
    out := conns;
    if node.next.Some? && |node.next.value| > 0 {
      out := PushNextTargets(nodes, node, node.next.value, out);
    } else if node.next.Some? && |node.next.value| == 0 {
      out := out + [Endpoint(node, Next)];
    }
    out := PushBranch(nodes, node, Yes, node.yes, out);
    out := PushBranch(nodes, node, No, node.no, out);
  }

  /** The inner loop over a `next` list: one record per entry that names a card. */
  method PushNextTargets(nodes: seq<Node>, node: Node, ids: seq<int>, conns: seq<Connection>) returns (out: seq<Connection>)
    ensures out == conns + NextTargets(nodes, node, ids)
  {
    out := conns;
    var j := 0;
    while j < |ids|
      invariant 0 <= j <= |ids|
      invariant out == conns + ConcatMap(ids[..j], NextResolver(nodes, node))
    {
      ConcatMapStep(ids, NextResolver(nodes, node), j);
      var found := Find(nodes, ids[j]);
      if found.Some? {
        out := out + [Resolved(node, found.value, Next)];
      }
      j := j + 1;
    }
    assert ids[..j] == ids;
  }

  /** The `yes` or `no` step for one card. */
  method PushBranch(nodes: seq<Node>, node: Node, rel: Relation, field: Option<int>, conns: seq<Connection>)
    returns (out: seq<Connection>)
    ensures out == conns + BranchConnections(nodes, node, rel, field)
  {
    out := conns;
    if Truthy(field) {
      var found := Find(nodes, field.value);
      if found.Some? {
        out := out + [Resolved(node, found.value, rel)];
      }
    } else if node.kind == Condition && !Truthy(field) {
      out := out + [Endpoint(node, rel)];
    }
  }

  // ---------------------------------------------------------------------------
  // What a record means
  // ---------------------------------------------------------------------------

  /** `n` names `target` through relation `rel`, in the way derivation reads the field. */
  predicate Carries(n: Node, rel: Relation, target: int)
  {
    match rel
    case Next => n.next.Some? && target in n.next.value
    case Yes => Truthy(n.yes) && n.yes.value == target
    case No => Truthy(n.no) && n.no.value == target
  }

  /** Relation `rel` of `n` is open: an empty `next` list, or a missing branch of a condition card. */
  predicate Open(n: Node, rel: Relation)
  {
    match rel
    case Next => n.next == Some([])
    case Yes => n.kind == Condition && !Truthy(n.yes)
    case No => n.kind == Condition && !Truthy(n.no)
  }

  /**
   * Record `c` is justified by card `n`: it starts at `n`'s anchor for its
   * relation, and is either a stub for an open relation or a link to an
   * existing card that `n` names, ending at that card's top centre.
   */
  ghost predicate Explains(all: seq<Node>, n: Node, c: Connection)
  {
    && c.from == n.id
    && c.fromPos == SourceAnchor(n, c.rel)
    && (c.isEndpoint <==> c.to.None?)
    && (c.isEndpoint ==> Open(n, c.rel) && c.toPos == StubTip(n, c.rel))
    && (!c.isEndpoint ==>
          && Carries(n, c.rel, c.to.value)
          && c.to.value in Ids(all)
          && c.toPos == TargetAnchor(Find(all, c.to.value).value))
  }

  /** Every record a card contributes is justified by that card. */
  lemma NodeConnectionSound(all: seq<Node>, n: Node, c: Connection)
    requires c in NodeConnections(all, n)
    ensures Explains(all, n, c)
  {
    if c in NextConnections(all, n) && n.next.Some? && |n.next.value| > 0 {
      var k := ConcatMapMember(n.next.value, NextResolver(all, n), c);
      assert c in ResolveTo(all, n, Next, n.next.value[k]);
    }
  }

  /** Every open relation yields its stub, and every name that resolves yields its link. */
  lemma NodeConnectionComplete(all: seq<Node>, n: Node, rel: Relation, target: int)
    ensures Open(n, rel) ==> Endpoint(n, rel) in NodeConnections(all, n)
    ensures Carries(n, rel, target) && target in Ids(all) ==>
              Resolved(n, Find(all, target).value, rel) in NodeConnections(all, n)
  {
    if Carries(n, rel, target) && target in Ids(all) && rel == Next {
      var ids := n.next.value;
      var k :| 0 <= k < |ids| && ids[k] == target;
      assert Resolved(n, Find(all, target).value, rel) in NextResolver(all, n)(ids[k]);
      ConcatMapContains(ids, NextResolver(all, n), k, Resolved(n, Find(all, target).value, rel));
    }
  }

  /**
   * Soundness of derivation: every record comes from a listed card, and
   * every non-endpoint record names an existing card (a name that resolves
   * to nothing emits no record at all).
   */
  lemma DeriveSound(all: seq<Node>, c: Connection)
    requires c in Derive(all)
    ensures exists i :: 0 <= i < |all| && Explains(all, all[i], c)
    ensures !c.isEndpoint ==> c.to.Some? && c.to.value in Ids(all)
  {
    var i := ConcatMapMember(all, Records(all), c);
    NodeConnectionSound(all, all[i], c);
  }

  /**
   * Completeness of derivation: every open relation of a listed card has
   * its stub, and every relation naming an existing card has its link.
   */
  lemma DeriveComplete(all: seq<Node>, i: int, rel: Relation, target: int)
    requires 0 <= i < |all|
    ensures Open(all[i], rel) ==> Endpoint(all[i], rel) in Derive(all)
    ensures Carries(all[i], rel, target) && target in Ids(all) ==>
              Resolved(all[i], Find(all, target).value, rel) in Derive(all)
  {
    NodeConnectionComplete(all, all[i], rel, target);
    if Open(all[i], rel) {
      ConcatMapContains(all, Records(all), i, Endpoint(all[i], rel));
    }
    if Carries(all[i], rel, target) && target in Ids(all) {
      ConcatMapContains(all, Records(all), i, Resolved(all[i], Find(all, target).value, rel));
    }
  }

  // ---------------------------------------------------------------------------
  // Shape and order of one card's records
  // ---------------------------------------------------------------------------

  /** The entries of `ids` that name an existing card, in order. */
  function Resolving(all: seq<Node>, ids: seq<int>): seq<int>
    decreases |ids|
  {
    if |ids| == 0 then []
    else Resolving(all, ids[..|ids| - 1]) + (if ids[|ids| - 1] in Ids(all) then [ids[|ids| - 1]] else [])
  }

  /** The target ids of the resolved records of a list, in order. */
  function TargetIds(cs: seq<Connection>): seq<int>
  {
    if |cs| == 0 then []
    else TargetIds(cs[..|cs| - 1]) + (if cs[|cs| - 1].to.Some? then [cs[|cs| - 1].to.value] else [])
  }

  lemma {:induction false} TargetIdsAppend(a: seq<Connection>, b: seq<Connection>)
    ensures TargetIds(a + b) == TargetIds(a) + TargetIds(b)
    decreases |b|
  {
    if |b| == 0 {
      assert a + b == a;
    } else {
      assert (a + b)[..|a + b| - 1] == a + b[..|b| - 1];
      assert (a + b)[|a + b| - 1] == b[|b| - 1];
      TargetIdsAppend(a, b[..|b| - 1]);
    }
  }

  /**
   * The `next` records of a card are resolved links from that card, one per
   * entry that names an existing card, with targets in the order of the list.
   */
  lemma {:induction false} NextTargetsOrder(all: seq<Node>, n: Node, ids: seq<int>)
    ensures forall c :: c in NextTargets(all, n, ids) ==>
              c.to.Some? && !c.isEndpoint && c.rel == Next && c.from == n.id
    ensures TargetIds(NextTargets(all, n, ids)) == Resolving(all, ids)
    decreases |ids|
  {
    if |ids| > 0 {
      var last := |ids| - 1;
      NextTargetsOrder(all, n, ids[..last]);
      assert NextTargets(all, n, ids) == NextTargets(all, n, ids[..last]) + ResolveTo(all, n, Next, ids[last]);
      TargetIdsAppend(NextTargets(all, n, ids[..last]), ResolveTo(all, n, Next, ids[last]));
    }
  }

  /** Number of endpoint stubs in a list of records. */
  function EndpointCount(cs: seq<Connection>): nat
  {
    if |cs| == 0 then 0 else EndpointCount(cs[..|cs| - 1]) + (if cs[|cs| - 1].isEndpoint then 1 else 0)
  }

  lemma {:induction false} EndpointCountAppend(a: seq<Connection>, b: seq<Connection>)
    ensures EndpointCount(a + b) == EndpointCount(a) + EndpointCount(b)
    decreases |b|
  {
    if |b| == 0 {
      assert a + b == a;
    } else {
      assert (a + b)[..|a + b| - 1] == a + b[..|b| - 1];
      assert (a + b)[|a + b| - 1] == b[|b| - 1];
      EndpointCountAppend(a, b[..|b| - 1]);
    }
  }

  /** A list without stubs counts none. */
  lemma {:induction false} EndpointCountNone(cs: seq<Connection>)
    requires forall k :: 0 <= k < |cs| ==> !cs[k].isEndpoint
    ensures EndpointCount(cs) == 0
    decreases |cs|
  {
    if |cs| > 0 {
      EndpointCountNone(cs[..|cs| - 1]);
    }
  }

  /** A list of stubs counts them all. */
  lemma {:induction false} EndpointCountAll(cs: seq<Connection>)
    requires forall k :: 0 <= k < |cs| ==> cs[k].isEndpoint
    ensures EndpointCount(cs) == |cs|
    decreases |cs|
  {
    if |cs| > 0 {
      EndpointCountAll(cs[..|cs| - 1]);
    }
  }

  lemma {:induction false} NextTargetsNoEndpoint(all: seq<Node>, n: Node, ids: seq<int>)
    ensures EndpointCount(NextTargets(all, n, ids)) == 0
    decreases |ids|
  {
    if |ids| > 0 {
      var last := |ids| - 1;
      NextTargetsNoEndpoint(all, n, ids[..last]);
      assert NextTargets(all, n, ids) == NextTargets(all, n, ids[..last]) + ResolveTo(all, n, Next, ids[last]);
      EndpointCountAppend(NextTargets(all, n, ids[..last]), ResolveTo(all, n, Next, ids[last]));
    }
  }

  /**
   * `next` records by case: none when the list is absent, exactly the one
   * stub from (x+150, y+60) to (x+150, y+120) when it is empty, and one
   * resolved link per entry that names a card, in list order, otherwise.
   */
  lemma NextConnectionsShape(all: seq<Node>, n: Node)
    ensures n.next.None? ==> NextConnections(all, n) == []
    ensures n.next == Some([]) ==>
              NextConnections(all, n) == [Connection(n.id, None, Pos(n.position.x + 150, n.position.y + 60),
                                                     Pos(n.position.x + 150, n.position.y + 120), Next, true)]
    ensures n.next.Some? && |n.next.value| > 0 ==>
              && (forall c :: c in NextConnections(all, n) ==> c.to.Some? && !c.isEndpoint)
              && TargetIds(NextConnections(all, n)) == Resolving(all, n.next.value)
  {
    if n.next.Some? && |n.next.value| > 0 {
      NextTargetsOrder(all, n, n.next.value);
    }
  }

  /**
   * `yes`/`no` records by case: a card that is not a condition and lacks the
   * field yields none; a condition card lacking it yields exactly the stub;
   * a truthy field yields one link when it names a card and none otherwise.
   */
  lemma BranchConnectionsShape(all: seq<Node>, n: Node)
    ensures !Truthy(n.yes) ==> BranchConnections(all, n, Yes, n.yes) == (if n.kind == Condition then [Endpoint(n, Yes)] else [])
    ensures !Truthy(n.no) ==> BranchConnections(all, n, No, n.no) == (if n.kind == Condition then [Endpoint(n, No)] else [])
    ensures Truthy(n.yes) ==>
              BranchConnections(all, n, Yes, n.yes) == (if n.yes.value in Ids(all) then [Resolved(n, Find(all, n.yes.value).value, Yes)] else [])
    ensures Truthy(n.no) ==>
              BranchConnections(all, n, No, n.no) == (if n.no.value in Ids(all) then [Resolved(n, Find(all, n.no.value).value, No)] else [])
  {
  }

  /**
   * Stub count of one card: one for an empty `next` list, one for each
   * missing branch of a condition card, none otherwise. In particular a
   * condition card with neither branch has two stubs and one with both has none.
   */
  lemma NodeEndpointCount(all: seq<Node>, n: Node)
    ensures EndpointCount(NodeConnections(all, n)) ==
              (if n.next == Some([]) then 1 else 0)
              + (if n.kind == Condition && !Truthy(n.yes) then 1 else 0)
              + (if n.kind == Condition && !Truthy(n.no) then 1 else 0)
  {
    EndpointCountAppend(NextConnections(all, n), BranchConnections(all, n, Yes, n.yes));
    EndpointCountAppend(NextConnections(all, n) + BranchConnections(all, n, Yes, n.yes), BranchConnections(all, n, No, n.no));
    if n.next.Some? && |n.next.value| > 0 {
      NextTargetsNoEndpoint(all, n, n.next.value);
    }
    assert EndpointCount([Endpoint(n, Next)]) == 1;
  }

  /** Rank of a relation in the emission order: `next`, then `yes`, then `no`. */
  function RelRank(rel: Relation): int
  {
    match rel
    case Next => 0
    case Yes => 1
    case No => 2
  }

  /** Within one card's records, `next` records come first, then `yes`, then `no`. */
  lemma NodeConnectionsOrder(all: seq<Node>, n: Node)
    ensures forall i, j :: 0 <= i < j < |NodeConnections(all, n)| ==>
              RelRank(NodeConnections(all, n)[i].rel) <= RelRank(NodeConnections(all, n)[j].rel)
  {
    var nx, ys, ns := NextConnections(all, n), BranchConnections(all, n, Yes, n.yes), BranchConnections(all, n, No, n.no);
    if n.next.Some? && |n.next.value| > 0 {
      NextTargetsOrder(all, n, n.next.value);
    }
    assert forall k :: 0 <= k < |nx| ==> nx[k].rel == Next;
    assert forall k :: 0 <= k < |ys| ==> ys[k].rel == Yes;
    assert forall k :: 0 <= k < |ns| ==> ns[k].rel == No;
  }

  /**
   * Card order is emission order: card `k`'s records come right after the
   * records of the cards before it.
   */
  lemma DeriveOrder(all: seq<Node>, k: int)
    requires 0 <= k < |all|
    ensures ConcatMap(all[..k], Records(all)) + NodeConnections(all, all[k]) <= Derive(all)
  {
    ConcatMapStep(all, Records(all), k);
    ConcatMapPrefix(all, Records(all), k + 1);
  }

  // ---------------------------------------------------------------------------
  // Common card shapes
  // ---------------------------------------------------------------------------

  /** A non-condition card whose `next` list names one existing card contributes just that link. */
  lemma SingleNextRecords(all: seq<Node>, n: Node, t: Node)
    requires n.kind != Condition && n.yes.None? && n.no.None?
    requires n.next == Some([t.id]) && Find(all, t.id) == Some(t)
    ensures NodeConnections(all, n) == [Resolved(n, t, Next)]
  {
    ConcatMapStep([t.id], NextResolver(all, n), 0);
    assert [t.id][..0] == [] && [t.id][..1] == [t.id];
    assert NextResolver(all, n)(t.id) == [Resolved(n, t, Next)];
  }

  /** A condition card without `next` whose two branches name existing cards contributes the two links, `yes` first. */
  lemma BranchPairRecords(all: seq<Node>, n: Node, a: Node, b: Node)
    requires n.next.None? && n.yes == Some(a.id) && n.no == Some(b.id) && a.id != 0 && b.id != 0
    requires Find(all, a.id) == Some(a) && Find(all, b.id) == Some(b)
    ensures NodeConnections(all, n) == [Resolved(n, a, Yes), Resolved(n, b, No)]
  {
  }

  /** A non-condition card with an empty `next` list and no branches contributes just its `next` stub. */
  lemma LeafStubRecords(all: seq<Node>, n: Node)
    requires n.kind != Condition && n.yes.None? && n.no.None? && n.next == Some([])
    ensures NodeConnections(all, n) == [Endpoint(n, Next)]
  {
  }
}
