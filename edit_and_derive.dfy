/**
 * How the editing handlers and derivation fit together: what a new card
 * contributes, what a drag leaves alone, what the add button of a stub
 * does to the next derivation, and when removing a freshly added card
 * undoes the add.
 */
module EditAndDerive {
  import opened FlowTypes
  import opened SeqUtil
  import opened Derivation
  import opened GraphEdits
  import opened Widgets
  import opened Segments

  // ---------------------------------------------------------------------------
  // The new card's own records
  // ---------------------------------------------------------------------------

  /**
   * A card added through the selector contributes its `next` stub on the
   * next derivation and, when the selector chose a condition card, its
   * `yes` and `no` stubs as well.
   */
  lemma AddedCardRecords(nodes: seq<Node>, source: int, rel: Relation, anchor: Pos, kind: Kind)
    requires |nodes| > 0
    ensures var r := AddCard(nodes, source, rel, anchor, kind);
            var c := r[|nodes|];
            NodeConnections(r, c) ==
              [Endpoint(c, Next)] + (if kind == Condition then [Endpoint(c, Yes), Endpoint(c, No)] else [])
  {
    AddCardAt(nodes, source, rel, anchor, kind);
  }

  /**
   * A card added by the typed component contributes exactly one record on
   * the next derivation: its `next` stub, 60 below the centre of its bottom
   * edge. It never has `yes`/`no` stubs.
   */
  lemma AddedByRelationRecords(nodes: seq<Node>, source: int, rel: Relation, anchor: Pos)
    requires |nodes| > 0
    ensures var r := AddCardByRelation(nodes, source, rel, anchor);
            var c := r[|nodes|];
            && NodeConnections(r, c) == [Endpoint(c, Next)]
            && Endpoint(c, Next).toPos == Pos(anchor.x, anchor.y + 140)
  {
    AddedCardRecords(nodes, source, rel, anchor, KindFor(rel));
  }

  // ---------------------------------------------------------------------------
  // Drag and derivation
  // ---------------------------------------------------------------------------

  /** What a record says about the graph, leaving out its coordinates. */
  datatype Link = Link(from: int, to: Option<int>, rel: Relation, isEndpoint: bool)

  function LinkOf(c: Connection): Link
  {
    Link(c.from, c.to, c.rel, c.isEndpoint)
  }

  /** The links of a record list, in order. */
  function Links(cs: seq<Connection>): (r: seq<Link>)
    ensures |r| == |cs| && forall k :: 0 <= k < |cs| ==> r[k] == LinkOf(cs[k])
  {
    seq(|cs|, k requires 0 <= k < |cs| => LinkOf(cs[k]))
  }

  lemma LinksAppend(a: seq<Connection>, b: seq<Connection>)
    ensures Links(a + b) == Links(a) + Links(b)
  {
  }

  /** Two lists mapped element by element to records with equal links give equal links overall. */
  lemma {:induction false} LinksOfConcatMap<T>(xs: seq<T>, ys: seq<T>, f: T -> seq<Connection>, g: T -> seq<Connection>)
    requires |xs| == |ys|
    requires forall i :: 0 <= i < |xs| ==> Links(f(xs[i])) == Links(g(ys[i]))
    ensures Links(ConcatMap(xs, f)) == Links(ConcatMap(ys, g))
    decreases |xs|
  {
    if |xs| > 0 {
      var n := |xs| - 1;
      assert forall i :: 0 <= i < n ==> xs[..n][i] == xs[i] && ys[..n][i] == ys[i];
      LinksOfConcatMap(xs[..n], ys[..n], f, g);
      LinksAppend(ConcatMap(xs[..n], f), f(xs[n]));
      LinksAppend(ConcatMap(ys[..n], g), g(ys[n]));
    }
  }

  /** A single name resolves the same way before and after a drag. */
  lemma DragResolvesAlike(nodes: seq<Node>, id: int, p: Pos, n: Node, m: Node, rel: Relation, target: int)
    requires n.id == m.id
    ensures Links(ResolveTo(HandleDrag(nodes, id, p), n, rel, target)) == Links(ResolveTo(nodes, m, rel, target))
  {
    HandleDragOnlyMoves(nodes, id, p);
  }

  /** A card's `next` records have the same links before and after a drag. */
  lemma DragNextLinks(nodes: seq<Node>, id: int, p: Pos, n: Node, m: Node)
    requires n.id == m.id && n.next == m.next
    ensures Links(NextConnections(HandleDrag(nodes, id, p), n)) == Links(NextConnections(nodes, m))
  {
    if m.next.Some? && |m.next.value| > 0 {
      var d := HandleDrag(nodes, id, p);
      var ids := m.next.value;
      forall k | 0 <= k < |ids|
        ensures Links(NextResolver(d, n)(ids[k])) == Links(NextResolver(nodes, m)(ids[k]))
      {
        DragResolvesAlike(nodes, id, p, n, m, Next, ids[k]);
      }
      LinksOfConcatMap(ids, ids, NextResolver(d, n), NextResolver(nodes, m));
    }
  }

  /** A card's `yes` or `no` records have the same links before and after a drag. */
  lemma DragBranchLinks(nodes: seq<Node>, id: int, p: Pos, n: Node, m: Node, rel: Relation, field: Option<int>)
    requires n.id == m.id && n.kind == m.kind
    ensures Links(BranchConnections(HandleDrag(nodes, id, p), n, rel, field)) == Links(BranchConnections(nodes, m, rel, field))
  {
    if Truthy(field) {
      DragResolvesAlike(nodes, id, p, n, m, rel, field.value);
    }
  }

  /** One card's records have the same links before and after a drag. */
  lemma DragCardLinks(nodes: seq<Node>, id: int, p: Pos, i: int)
    requires 0 <= i < |nodes|
    ensures var d := HandleDrag(nodes, id, p);
            Links(NodeConnections(d, d[i])) == Links(NodeConnections(nodes, nodes[i]))
  {
    var d := HandleDrag(nodes, id, p);
    var n, m := d[i], nodes[i];
    DragNextLinks(nodes, id, p, n, m);
    DragBranchLinks(nodes, id, p, n, m, Yes, m.yes);
    DragBranchLinks(nodes, id, p, n, m, No, m.no);
    var a, b, c := NextConnections(d, n), BranchConnections(d, n, Yes, n.yes), BranchConnections(d, n, No, n.no);
    LinksAppend(a, b);
    LinksAppend(a + b, c);
    var a', b', c' := NextConnections(nodes, m), BranchConnections(nodes, m, Yes, m.yes), BranchConnections(nodes, m, No, m.no);
    LinksAppend(a', b');
    LinksAppend(a' + b', c');
  }

  /**
   * Dragging never changes which links and stubs are derived, nor their
   * order: only coordinates move.
   */
  lemma DragKeepsLinks(nodes: seq<Node>, id: int, p: Pos)
    ensures Links(Derive(HandleDrag(nodes, id, p))) == Links(Derive(nodes))
  {
    var d := HandleDrag(nodes, id, p);
    forall i | 0 <= i < |d| ensures Links(Records(d)(d[i])) == Links(Records(nodes)(nodes[i])) {
      DragCardLinks(nodes, id, p, i);
    }
    LinksOfConcatMap(d, nodes, Records(d), Records(nodes));
  }

  // ---------------------------------------------------------------------------
  // The add button
  // ---------------------------------------------------------------------------

  /**
   * Every add button the DOM renderers show belongs to an open relation of
   * a listed card and sits at that relation's stub tip, so using it adds
   * under that card and relation.
   */
  lemma ButtonsSitOnStubs(all: seq<Node>, e: Element) returns (i: int)
    requires e in Render(Derive(all)) && e.AddButton?
    ensures 0 <= i < |all| && e.source == all[i].id && Open(all[i], e.rel) && e.at == StubTip(all[i], e.rel)
  {
    var k := ConcatMapMember(Derive(all), ElementsFn(), e);
    var c := Derive(all)[k];
    assert c.isEndpoint;
    i := ConcatMapMember(all, Records(all), c);
    NodeConnectionSound(all, all[i], c);
  }

  /** The fields an add may fill without losing anything: a present `next` list, or an absent branch. */
  predicate Unset(n: Node, rel: Relation)
  {
    match rel
    case Next => n.next.Some?
    case Yes => n.yes.None?
    case No => n.no.None?
  }

  /** Wiring a positive id into a relation makes the relation name it, so it is no longer open. */
  lemma WireCloses(n: Node, rel: Relation, newId: int)
    requires newId > 0
    ensures Carries(Wire(n, rel, newId), rel, newId) && !Open(Wire(n, rel, newId), rel)
  {
  }

  /**
   * Using the add button of a stub of card `i`: on the next derivation the
   * stub is gone and in its place card `i` links through the same relation
   * to the new card, whose top centre lies 20 below the button.
   */
  lemma AddAtStub(all: seq<Node>, i: int, rel: Relation, kind: Kind)
    requires UniqueIds(all) && PositiveIds(all) && 0 <= i < |all|
    requires Open(all[i], rel)
    ensures var r := AddCard(all, all[i].id, rel, StubTip(all[i], rel), kind);
            var c := r[|all|];
            && Resolved(r[i], c, rel) in Derive(r)
            && !Open(r[i], rel)
            && TargetAnchor(c) == Pos(StubTip(all[i], rel).x, StubTip(all[i], rel).y + 20)
  {
    var tip := StubTip(all[i], rel);
    var r := AddCard(all, all[i].id, rel, tip, kind);
    var newId := FreshId(all);
    AddCardAt(all, all[i].id, rel, tip, kind);
    AddCardIds(all, all[i].id, rel, tip, kind);
    assert all[0].id > 0;
    WireCloses(all[i], rel, newId);
    FindAt(r, |all|);
    DeriveComplete(r, i, rel, newId);
  }

  // ---------------------------------------------------------------------------
  // Undoing an add
  // ---------------------------------------------------------------------------

  /** Stripping a fresh id that was wired into an unset field gives the card back. */
  lemma StripUndoesWire(n: Node, rel: Relation, newId: int)
    requires !RefersTo(n, newId) && Unset(n, rel)
    ensures StripReference(Wire(n, rel, newId), newId) == n
  {
    if rel == Next {
      var s := NextOrEmpty(n) + [newId];
      assert s[..|s| - 1] == NextOrEmpty(n);
      WithoutAbsent(NextOrEmpty(n), newId);
      assert Without(s, newId) == NextOrEmpty(n);
    }
  }

  /** Under referential integrity no card names the id an add would hand out. */
  lemma FreshUnreferenced(nodes: seq<Node>)
    requires |nodes| > 0 && Integrity(nodes)
    ensures forall i :: 0 <= i < |nodes| ==> !RefersTo(nodes[i], FreshId(nodes))
  {
  }

  /** The cards surviving removal of the last card's id, when no other card has it, are the rest. */
  lemma SurvivorsDropLast(nodes: seq<Node>, id: int)
    requires |nodes| > 0 && nodes[|nodes| - 1].id == id
    requires forall i :: 0 <= i < |nodes| - 1 ==> nodes[i].id != id
    ensures Survivors(nodes, id) == nodes[..|nodes| - 1]
  {
    SurvivorsAll(nodes[..|nodes| - 1], id);
  }

  /**
   * Removing the card an add just created gives back the list before the
   * add, provided the relation was unset on the source (a present `next`
   * list, an absent `yes`/`no`). An absent `next` list comes back as an
   * empty one, and an overwritten branch comes back absent, not as it was.
   */
  lemma RemoveUndoesAdd(nodes: seq<Node>, source: int, rel: Relation, anchor: Pos, kind: Kind)
    requires |nodes| > 0 && Integrity(nodes)
    requires forall i :: 0 <= i < |nodes| && nodes[i].id == source ==> Unset(nodes[i], rel)
    ensures RemoveCard(AddCard(nodes, source, rel, anchor, kind), FreshId(nodes)) == nodes
  {
    AddCardAt(nodes, source, rel, anchor, kind);
    FreshUnreferenced(nodes);
    RemoveUndoesWires(nodes, AddCard(nodes, source, rel, anchor, kind), source, rel, FreshId(nodes));
  }

  /**
   * The same over any list shaped like the add's result: the cards of
   * `nodes`, the source wired to `newId`, then one card with that id.
   */
  lemma RemoveUndoesWires(nodes: seq<Node>, r: seq<Node>, source: int, rel: Relation, newId: int)
    requires |r| == |nodes| + 1 && r[|nodes|].id == newId
    requires forall i :: 0 <= i < |nodes| ==>
               r[i] == if nodes[i].id == source then Wire(nodes[i], rel, newId) else nodes[i]
    requires forall i :: 0 <= i < |nodes| ==> nodes[i].id < newId && !RefersTo(nodes[i], newId)
    requires forall i :: 0 <= i < |nodes| && nodes[i].id == source ==> Unset(nodes[i], rel)
    ensures RemoveCard(r, newId) == nodes
  {
    SurvivorsDropLast(r, newId);
    var kept := Survivors(r, newId);
    forall i | 0 <= i < |nodes| ensures StripReference(kept[i], newId) == nodes[i] {
      StripUndoesEdit(nodes[i], kept[i], source, rel, newId);
    }
  }

  /** One card of the list after the add: stripping the new id gives back the card before it. */
  lemma StripUndoesEdit(n: Node, m: Node, source: int, rel: Relation, newId: int)
    requires !RefersTo(n, newId) && (n.id == source ==> Unset(n, rel))
    requires m == if n.id == source then Wire(n, rel, newId) else n
    ensures StripReference(m, newId) == n
  {
    if n.id == source {
      StripUndoesWire(n, rel, newId);
    }
  }

  // ---------------------------------------------------------------------------
  // Three end-to-end runs
  // ---------------------------------------------------------------------------

  /** A trigger whose `next` names a condition card that has neither branch (and no `next` list). */
  function StartGraph(): seq<Node>
  {
    [ Node(1, Trigger, "start", Pos(0, 0), Some([2]), None, None),
      Node(2, Condition, "check", Pos(0, 150), None, None, None) ]
  }

  /** Run 1: three records, the link from 1 to 2 and the two stubs of 2. */
  lemma StartDerivation(g: seq<Node>)
    requires g == StartGraph()
    ensures Derive(g) == [Resolved(g[0], g[1], Next), Endpoint(g[1], Yes), Endpoint(g[1], No)]
  {
    FindAt(g, 1);
    SingleNextRecords(g, g[0], g[1]);
    assert NodeConnections(g, g[1]) == [Endpoint(g[1], Yes), Endpoint(g[1], No)];
    ConcatMapTwo(g, Records(g));
  }

  /** Run 2, the edit: card 3 is appended and becomes the `yes` branch of 2. */
  lemma AddUnderYesGraph(g: seq<Node>)
    requires g == StartGraph()
    ensures AddCard(g, 2, Yes, Pos(50, 300), Email) ==
              [g[0], g[1].(yes := Some(3)), Node(3, Email, "New email card", Pos(-100, 320), Some([]), None, None)]
  {
    AddCardAt(g, 2, Yes, Pos(50, 300), Email);
    assert FreshId(g) == 3;
    NewCardLabels();
  }

  /**
   * A trigger leading to a condition whose `yes` names a fresh card with an
   * empty `next` list: a link, a link, the `no` stub, the fresh card's stub.
   */
  lemma YesBranchRecords(h: seq<Node>)
    requires |h| == 3 && UniqueIds(h) && PositiveIds(h)
    requires h[0].kind == Trigger && h[0].next == Some([h[1].id]) && h[0].yes.None? && h[0].no.None?
    requires h[1].kind == Condition && h[1].next.None? && h[1].yes == Some(h[2].id) && h[1].no.None?
    requires h[2].kind != Condition && h[2].next == Some([]) && h[2].yes.None? && h[2].no.None?
    ensures Derive(h) == [Resolved(h[0], h[1], Next), Resolved(h[1], h[2], Yes), Endpoint(h[1], No), Endpoint(h[2], Next)]
  {
    FindAt(h, 1);
    FindAt(h, 2);
    SingleNextRecords(h, h[0], h[1]);
    assert NodeConnections(h, h[1]) == [Resolved(h[1], h[2], Yes), Endpoint(h[1], No)];
    LeafStubRecords(h, h[2]);
    ConcatMapThree(h, Records(h));
  }

  /**
   * Run 2, the derivation after the edit: the link from 2 to 3 replaces the
   * `yes` stub, the `no` stub of 2 is still there, and card 3 brings its
   * `next` stub.
   */
  lemma AddUnderYesDerivation(g: seq<Node>, h: seq<Node>)
    requires g == StartGraph() && h == AddCard(g, 2, Yes, Pos(50, 300), Email)
    ensures Derive(h) == [Resolved(h[0], h[1], Next), Resolved(h[1], h[2], Yes), Endpoint(h[1], No), Endpoint(h[2], Next)]
  {
    AddUnderYesGraph(g);
    YesBranchRecords(h);
  }

  /** Run 3: removing card 3 again gives back the starting graph, with both stubs of 2. */
  lemma RemoveAgain(g: seq<Node>)
    requires g == StartGraph()
    ensures RemoveCard(AddCard(g, 2, Yes, Pos(50, 300), Email), 3) == g
  {
    assert Integrity(g) by {
      assert g[1] in g;
    }
    assert FreshId(g) == 3;
    RemoveUndoesAdd(g, 2, Yes, Pos(50, 300), Email);
  }
}
