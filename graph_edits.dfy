/**
 * The editing handlers of the flowchart components as functions from the
 * old card list to the new one: dragging a card, adding a card at an open
 * endpoint, and removing a card with its incoming references.
 */
module GraphEdits {
  import opened FlowTypes

  // ---------------------------------------------------------------------------
  // Drag
  // ---------------------------------------------------------------------------

  /** `handleDrag`: every card with the given id takes the new position. */
  function HandleDrag(nodes: seq<Node>, id: int, p: Pos): seq<Node>
  {
    seq(|nodes|, i requires 0 <= i < |nodes| => if nodes[i].id == id then nodes[i].(position := p) else nodes[i])
  }

  /**
   * Dragging changes positions only, and only of the card with that id:
   * count, order, ids, kinds, texts and relation fields are unchanged.
   */
  lemma HandleDragOnlyMoves(nodes: seq<Node>, id: int, p: Pos)
    ensures |HandleDrag(nodes, id, p)| == |nodes|
    ensures forall i :: 0 <= i < |nodes| ==>
              && HandleDrag(nodes, id, p)[i].(position := nodes[i].position) == nodes[i]
              && HandleDrag(nodes, id, p)[i].position == (if nodes[i].id == id then p else nodes[i].position)
    ensures Ids(HandleDrag(nodes, id, p)) == Ids(nodes)
  {
    var r := HandleDrag(nodes, id, p);
    forall x | x in Ids(nodes) ensures x in Ids(r) {
      var i := IdIndex(nodes, x);
      assert r[i].id == x;
    }
  }

  /** Repeating a drag event is harmless, and of two drags to different points the later one wins. */
  lemma HandleDragLastWriteWins(nodes: seq<Node>, id: int, p: Pos, q: Pos)
    ensures HandleDrag(HandleDrag(nodes, id, p), id, q) == HandleDrag(nodes, id, q)
    ensures HandleDrag(HandleDrag(nodes, id, p), id, p) == HandleDrag(nodes, id, p)
  {
  }

  /** Dragging preserves the graph invariant. */
  lemma HandleDragWellformed(nodes: seq<Node>, id: int, p: Pos)
    requires Wellformed(nodes)
    ensures Wellformed(HandleDrag(nodes, id, p))
  {
    HandleDragOnlyMoves(nodes, id, p);
    var r := HandleDrag(nodes, id, p);
    forall i, target | 0 <= i < |r| && RefersTo(r[i], target) ensures target in Ids(r) {
      assert RefersTo(nodes[i], target);
    }
  }

  // ---------------------------------------------------------------------------
  // Add
  // ---------------------------------------------------------------------------

  /** `Math.max` over the ids of a non-empty card list. */
  function MaxId(nodes: seq<Node>): (m: int)
    requires |nodes| > 0
    ensures exists i :: 0 <= i < |nodes| && nodes[i].id == m
    ensures forall i :: 0 <= i < |nodes| ==> nodes[i].id <= m
  {
    if |nodes| == 1 then nodes[0].id
    else
      var rest := MaxId(nodes[1..]);
      assert forall i :: 1 <= i < |nodes| ==> nodes[i] == nodes[1..][i - 1];
      if nodes[0].id >= rest then nodes[0].id else rest
  }

  /** The id the add handler gives the new card. */
  function FreshId(nodes: seq<Node>): (r: int)
    requires |nodes| > 0
    ensures r !in Ids(nodes)
    ensures forall i :: 0 <= i < |nodes| ==> nodes[i].id < r
  {
    MaxId(nodes) + 1
  }

  /** The card the add handler creates: labelled after its kind, placed at the endpoint, with an empty `next` list. */
  function NewCard(id: int, kind: Kind, anchor: Pos): Node
  {
    Node(id, kind, "New " + KindName(kind) + " card", Pos(anchor.x - 150, anchor.y + 20), Some([]), None, None)
  }

  /** The source card after wiring: `next` gains the new id at the end, or `yes`/`no` is set to it. */
  function Wire(n: Node, rel: Relation, newId: int): Node
  {
    match rel
    case Next => n.(next := Some(NextOrEmpty(n) + [newId]))
    case Yes => n.(yes := Some(newId))
    case No => n.(no := Some(newId))
  }

  /** `handleAddCard` of the components that take the new card's kind from a selector. */
  function AddCard(nodes: seq<Node>, source: int, rel: Relation, anchor: Pos, kind: Kind): seq<Node>
    requires |nodes| > 0
  {
    var newId := FreshId(nodes);
    seq(|nodes|, i requires 0 <= i < |nodes| => if nodes[i].id == source then Wire(nodes[i], rel, newId) else nodes[i])
    + [NewCard(newId, kind, anchor)]
  }

  /** The kind the typed component gives a new card: `email` under a decision branch, `action` otherwise. */
  function KindFor(rel: Relation): Kind
  {
    if rel == Yes || rel == No then Email else Action
  }

  /** `handleAddCard` of the typed component: the kind follows from the relation. */
  function AddCardByRelation(nodes: seq<Node>, source: int, rel: Relation, anchor: Pos): seq<Node>
    requires |nodes| > 0
  {
    AddCard(nodes, source, rel, anchor, KindFor(rel))
  }

  /** Reading the result of an add: old positions hold the old cards (the source wired), the last is the new card. */
  lemma AddCardAt(nodes: seq<Node>, source: int, rel: Relation, anchor: Pos, kind: Kind)
    requires |nodes| > 0
    ensures var r := AddCard(nodes, source, rel, anchor, kind);
            && |r| == |nodes| + 1
            && r[|nodes|] == NewCard(FreshId(nodes), kind, anchor)
            && (forall i :: 0 <= i < |nodes| ==>
                  r[i] == if nodes[i].id == source then Wire(nodes[i], rel, FreshId(nodes)) else nodes[i])
  {
  }

  /**
   * The new card: its id exceeds every existing id; it is appended after all
   * old cards, at (anchor.x - 150, anchor.y + 20), with `next = []` and no
   * branches; the list grows by exactly one.
   */
  lemma AddCardAppendsFresh(nodes: seq<Node>, source: int, rel: Relation, anchor: Pos, kind: Kind)
    requires |nodes| > 0
    ensures var r := AddCard(nodes, source, rel, anchor, kind);
            && |r| == |nodes| + 1
            && (forall i :: 0 <= i < |nodes| ==> nodes[i].id < r[|nodes|].id)
            && r[|nodes|].id !in Ids(nodes)
            && r[|nodes|].kind == kind
            && r[|nodes|].position == Pos(anchor.x - 150, anchor.y + 20)
            && r[|nodes|].next == Some([]) && r[|nodes|].yes.None? && r[|nodes|].no.None?
  {
  }

  /**
   * The source card (every card with the source id) is wired to the new id:
   * appended at the end of `next` (an absent list counts as empty), or
   * `yes`/`no` overwritten whatever it held. Every other card is unchanged,
   * so an unknown source leaves all old cards as they were.
   */
  lemma AddCardWiresSource(nodes: seq<Node>, source: int, rel: Relation, anchor: Pos, kind: Kind)
    requires |nodes| > 0
    ensures var r := AddCard(nodes, source, rel, anchor, kind);
            var newId := r[|nodes|].id;
            && (forall i :: 0 <= i < |nodes| && nodes[i].id != source ==> r[i] == nodes[i])
            && (forall i :: 0 <= i < |nodes| && nodes[i].id == source ==>
                  && r[i].(next := nodes[i].next, yes := nodes[i].yes, no := nodes[i].no) == nodes[i]
                  && r[i].next == (if rel == Next then Some(NextOrEmpty(nodes[i]) + [newId]) else nodes[i].next)
                  && r[i].yes == (if rel == Yes then Some(newId) else nodes[i].yes)
                  && r[i].no == (if rel == No then Some(newId) else nodes[i].no))
            && (source !in Ids(nodes) ==> r[..|nodes|] == nodes)
  {
    var r := AddCard(nodes, source, rel, anchor, kind);
    if source !in Ids(nodes) {
      assert forall i :: 0 <= i < |nodes| ==> nodes[i].id != source;
    }
  }

  /** A wired card names exactly what it named before, plus the new id, minus an overwritten branch. */
  lemma WireReferences(n: Node, rel: Relation, newId: int, target: int)
    ensures RefersTo(Wire(n, rel, newId), target) ==> target == newId || RefersTo(n, target)
    ensures RefersTo(Wire(n, rel, newId), newId)
  {
  }

  /**
   * Referential integrity survives an add: the only new reference is the new
   * id, and the card with that id is added.
   */
  lemma AddCardIntegrity(nodes: seq<Node>, source: int, rel: Relation, anchor: Pos, kind: Kind)
    requires |nodes| > 0 && Integrity(nodes)
    ensures Integrity(AddCard(nodes, source, rel, anchor, kind))
  {
    var r := AddCard(nodes, source, rel, anchor, kind);
    var newId := FreshId(nodes);
    assert r[|nodes|].id == newId;
    forall i, target | 0 <= i < |r| && RefersTo(r[i], target) ensures target in Ids(r) {
      if i < |nodes| {
        WireReferences(nodes[i], rel, newId, target);
        if target != newId {
          assert RefersTo(nodes[i], target);
          var j := IdIndex(nodes, target);
          assert r[j].id == target;
        }
      }
    }
  }

  /** Wiring a fresh id keeps a card free of double references. */
  lemma WireNoDouble(n: Node, rel: Relation, newId: int)
    requires NoDoubleReference(n) && !RefersTo(n, newId)
    ensures NoDoubleReference(Wire(n, rel, newId))
  {
    if rel == Next {
      var nx := NextOrEmpty(n) + [newId];
      assert forall a :: 0 <= a < |nx| - 1 ==> nx[a] == NextOrEmpty(n)[a];
    }
  }

  /** The whole graph invariant survives an add. */
  lemma AddCardWellformed(nodes: seq<Node>, source: int, rel: Relation, anchor: Pos, kind: Kind)
    requires |nodes| > 0 && Wellformed(nodes)
    ensures Wellformed(AddCard(nodes, source, rel, anchor, kind))
  {
    AddCardIntegrity(nodes, source, rel, anchor, kind);
    AddCardIds(nodes, source, rel, anchor, kind);
    AddCardAt(nodes, source, rel, anchor, kind);
    var r := AddCard(nodes, source, rel, anchor, kind);
    var newId := FreshId(nodes);
    forall i | 0 <= i < |nodes| ensures NoDoubleReference(r[i]) {
      if nodes[i].id == source {
        assert !RefersTo(nodes[i], newId);
        WireNoDouble(nodes[i], rel, newId);
      }
    }
  }

  /** An add keeps ids unique and positive: the fresh id exceeds every old id. */
  lemma AddCardIds(nodes: seq<Node>, source: int, rel: Relation, anchor: Pos, kind: Kind)
    requires |nodes| > 0 && UniqueIds(nodes) && PositiveIds(nodes)
    ensures UniqueIds(AddCard(nodes, source, rel, anchor, kind))
    ensures PositiveIds(AddCard(nodes, source, rel, anchor, kind))
  {
    AddCardAt(nodes, source, rel, anchor, kind);
    var r := AddCard(nodes, source, rel, anchor, kind);
    assert forall i :: 0 <= i < |nodes| ==> r[i].id == nodes[i].id;
    assert nodes[0].id > 0;
  }

  /**
   * The typed component's new card is an `action` card under `next` and an
   * `email` card under `yes`/`no`, never a trigger or a condition, and is
   * labelled "New action card" or "New email card" accordingly.
   */
  lemma AddCardByRelationKind(nodes: seq<Node>, source: int, rel: Relation, anchor: Pos)
    requires |nodes| > 0
    ensures var c := AddCardByRelation(nodes, source, rel, anchor)[|nodes|];
            && (rel == Next ==> c.kind == Action && c.text == "New action card")
            && (rel != Next ==> c.kind == Email && c.text == "New email card")
            && c.kind != Trigger && c.kind != Condition
            && c.id == MaxId(nodes) + 1
  {
    AddCardAt(nodes, source, rel, anchor, KindFor(rel));
    NewCardLabels();
  }

  /** The labels the add handler writes for the two kinds the typed component creates. */
  lemma NewCardLabels()
    ensures "New " + KindName(Action) + " card" == "New action card"
    ensures "New " + KindName(Email) + " card" == "New email card"
  {
  }

  // ---------------------------------------------------------------------------
  // Remove
  // ---------------------------------------------------------------------------

  /** `ids.filter(x => x !== id)`. */
  function Without(ids: seq<int>, id: int): (r: seq<int>)
    ensures forall x :: x in r <==> x in ids && x != id
    ensures multiset(r) == multiset(ids)[id := 0]
    decreases |ids|
  {
    if |ids| == 0 then []
    else
      var last := ids[|ids| - 1];
      assert ids == ids[..|ids| - 1] + [last];
      Without(ids[..|ids| - 1], id) + (if last == id then [] else [last])
  }

  /** Filtering a concatenation filters each part, so the kept ids stay in their order. */
  lemma {:induction false} WithoutAppend(a: seq<int>, b: seq<int>, id: int)
    ensures Without(a + b, id) == Without(a, id) + Without(b, id)
    decreases |b|
  {
    if |b| == 0 {
      assert a + b == a;
    } else {
      var n := |b| - 1;
      var tail := if b[n] == id then [] else [b[n]];
      assert (a + b)[..|a + b| - 1] == a + b[..n] && (a + b)[|a + b| - 1] == b[n];
      assert Without(a + b, id) == Without(a + b[..n], id) + tail;
      assert Without(b, id) == Without(b[..n], id) + tail;
      WithoutAppend(a, b[..n], id);
    }
  }

  /** Filtering a single id keeps it exactly when it is another id. */
  lemma WithoutSingle(x: int, id: int)
    ensures Without([x], id) == if x == id then [] else [x]
  {
    assert [x][..0] == [];
  }

  /** Filtering out an id that is not in the list changes nothing. */
  lemma {:induction false} WithoutAbsent(ids: seq<int>, id: int)
    requires id !in ids
    ensures Without(ids, id) == ids
    decreases |ids|
  {
    if |ids| > 0 {
      var init, last := ids[..|ids| - 1], ids[|ids| - 1];
      assert ids == init + [last];
      WithoutAbsent(init, id);
    }
  }

  /** `n` names `id` through two of its fields: `next` and a branch, or both branches. */
  predicate TwoFields(n: Node, id: int)
  {
    || (id in NextOrEmpty(n) && (n.yes == Some(id) || n.no == Some(id)))
    || (n.yes == Some(id) && n.no == Some(id))
  }

  /**
   * The per-card rewrite of the remove handler: the first of `next`, `yes`,
   * `no` that names the removed id is cleared, in that order of preference.
   */
  function StripReference(n: Node, id: int): Node
  {
    if n.next.Some? && id in n.next.value then n.(next := Some(Without(n.next.value, id)))
    else if n.yes == Some(id) then n.(yes := None)
    else if n.no == Some(id) then n.(no := None)
    else n
  }

  /** The cards whose id is not `id`, in their original order. */
  function Survivors(nodes: seq<Node>, id: int): (r: seq<Node>)
    ensures forall n :: n in r <==> n in nodes && n.id != id
    decreases |nodes|
  {
    if |nodes| == 0 then []
    else
      var last := nodes[|nodes| - 1];
      assert nodes == nodes[..|nodes| - 1] + [last];
      Survivors(nodes[..|nodes| - 1], id) + (if last.id == id then [] else [last])
  }

  /** Filtering a concatenation of card lists filters each part, so survivors keep their order. */
  lemma {:induction false} SurvivorsAppend(a: seq<Node>, b: seq<Node>, id: int)
    ensures Survivors(a + b, id) == Survivors(a, id) + Survivors(b, id)
    decreases |b|
  {
    if |b| == 0 {
      assert a + b == a;
    } else {
      var n := |b| - 1;
      assert (a + b)[..|a + b| - 1] == a + b[..n];
      assert b == b[..n] + [b[n]];
      SurvivorsAppend(a, b[..n], id);
    }
  }

  /** A single card survives exactly when it has another id. */
  lemma SurvivorsSingle(n: Node, id: int)
    ensures Survivors([n], id) == if n.id == id then [] else [n]
  {
    assert [n][..0] == [];
  }

  /** `handleRemoveCard`: drop the card, then strip references to it from the survivors. */
  function RemoveCard(nodes: seq<Node>, id: int): seq<Node>
  {
    var kept := Survivors(nodes, id);
    seq(|kept|, i requires 0 <= i < |kept| => StripReference(kept[i], id))
  }

  /**
   * Stripping keeps every other reference and the card's identity; it
   * removes the reference to `id` unless the card held it through two
   * fields, in which case the later field keeps it (the `else if` chain
   * clears one field only).
   */
  lemma StripReferenceEffect(n: Node, id: int, target: int)
    ensures var s := StripReference(n, id);
            && s.id == n.id && s.kind == n.kind && s.text == n.text && s.position == n.position
            && (target != id ==> (RefersTo(s, target) <==> RefersTo(n, target)))
            && (RefersTo(s, id) <==> TwoFields(n, id))
  {
  }

  /**
   * A stripped card's `next` list is the old one filtered: it loses exactly
   * the occurrences of the removed id, and the other ids keep their order.
   */
  lemma StripReferenceNext(n: Node, id: int)
    ensures NextOrEmpty(StripReference(n, id)) == Without(NextOrEmpty(n), id)
    ensures multiset(NextOrEmpty(StripReference(n, id))) == multiset(NextOrEmpty(n))[id := 0]
  {
    if id !in NextOrEmpty(n) {
      WithoutAbsent(NextOrEmpty(n), id);
    }
  }

  /**
   * After removal no card has the removed id, the survivors keep their
   * order, each is the stripped old card, and a survivor's `next` loses
   * exactly the occurrences of the removed id.
   */
  lemma RemoveCardShape(nodes: seq<Node>, id: int)
    ensures var r := RemoveCard(nodes, id);
            && |r| == |Survivors(nodes, id)|
            && (forall i :: 0 <= i < |r| ==> r[i].id != id && r[i] == StripReference(Survivors(nodes, id)[i], id))
            && (forall i :: 0 <= i < |r| ==>
                  && NextOrEmpty(r[i]) == Without(NextOrEmpty(Survivors(nodes, id)[i]), id)
                  && multiset(NextOrEmpty(r[i])) == multiset(NextOrEmpty(Survivors(nodes, id)[i]))[id := 0])
  {
    var kept := Survivors(nodes, id);
    forall i | 0 <= i < |kept|
      ensures && kept[i].id != id
              && NextOrEmpty(StripReference(kept[i], id)) == Without(NextOrEmpty(kept[i]), id)
              && multiset(NextOrEmpty(StripReference(kept[i], id))) == multiset(NextOrEmpty(kept[i]))[id := 0]
    {
      assert kept[i] in kept;
      StripReferenceNext(kept[i], id);
    }
  }

  /** With unique ids, removing a present id shrinks the list by exactly one card. */
  lemma RemoveCardCount(nodes: seq<Node>, id: int)
    requires UniqueIds(nodes) && id in Ids(nodes)
    ensures |RemoveCard(nodes, id)| == |nodes| - 1
  {
    var j := IdIndex(nodes, id);
    var a, b := nodes[..j], nodes[j + 1..];
    assert nodes == a + [nodes[j]] + b;
    assert forall k :: 0 <= k < |a| ==> a[k] == nodes[k];
    assert forall k :: 0 <= k < |b| ==> b[k] == nodes[j + 1 + k];
    SurvivorsAll(a, id);
    SurvivorsAll(b, id);
    SurvivorsSingle(nodes[j], id);
    SurvivorsAppend(a, [nodes[j]], id);
    SurvivorsAppend(a + [nodes[j]], b, id);
  }

  /** Removing an id that no card has and no card names leaves the list unchanged. */
  lemma {:induction false} RemoveCardAbsent(nodes: seq<Node>, id: int)
    requires id !in Ids(nodes)
    requires forall i :: 0 <= i < |nodes| ==> !RefersTo(nodes[i], id)
    ensures RemoveCard(nodes, id) == nodes
  {
    SurvivorsAll(nodes, id);
  }

  lemma {:induction false} SurvivorsAll(nodes: seq<Node>, id: int)
    requires forall i :: 0 <= i < |nodes| ==> nodes[i].id != id
    ensures Survivors(nodes, id) == nodes
    decreases |nodes|
  {
    if |nodes| > 0 {
      SurvivorsAll(nodes[..|nodes| - 1], id);
      assert nodes == nodes[..|nodes| - 1] + [nodes[|nodes| - 1]];
    }
  }

  /** Survivors keep their relative order and no two of them share an id when the old list did not. */
  lemma {:induction false} SurvivorsUnique(nodes: seq<Node>, id: int)
    requires UniqueIds(nodes)
    ensures UniqueIds(Survivors(nodes, id))
    decreases |nodes|
  {
    if |nodes| > 0 {
      var init := nodes[..|nodes| - 1];
      var last := nodes[|nodes| - 1];
      SurvivorsUnique(init, id);
      var s := Survivors(init, id);
      forall k | 0 <= k < |s| ensures s[k].id != last.id {
        assert s[k] in s;
        var j :| 0 <= j < |init| && init[j] == s[k];
      }
    }
  }

  /**
   * Removal restores referential integrity whenever no surviving card names
   * the removed id through two fields; every other reference stays intact.
   */
  lemma RemoveCardIntegrity(nodes: seq<Node>, id: int)
    requires Integrity(nodes)
    requires forall i :: 0 <= i < |nodes| && nodes[i].id != id ==> !TwoFields(nodes[i], id)
    ensures Integrity(RemoveCard(nodes, id))
  {
    var kept := Survivors(nodes, id);
    var r := RemoveCard(nodes, id);
    forall i, target | 0 <= i < |r| && RefersTo(r[i], target) ensures target in Ids(r) {
      var n := kept[i];
      var j := SurvivorIndex(nodes, id, i);
      assert n in kept;
      StripReferenceEffect(n, id, target);
      StripReferenceEffect(n, id, id);
      assert target != id;
      assert RefersTo(nodes[j], target);
      RemoveCardKeeps(nodes, id, target);
    }
  }

  /**
   * The converse: a surviving card that names the removed id through two
   * fields keeps one of them, which then names no card.
   */
  lemma RemoveCardBreaksIntegrity(nodes: seq<Node>, id: int, i: int)
    requires 0 <= i < |nodes| && nodes[i].id != id && TwoFields(nodes[i], id)
    ensures !Integrity(RemoveCard(nodes, id))
  {
    var kept := Survivors(nodes, id);
    var r := RemoveCard(nodes, id);
    assert nodes[i] in kept;
    var k :| 0 <= k < |kept| && kept[k] == nodes[i];
    StripReferenceEffect(nodes[i], id, id);
    assert RefersTo(r[k], id);
    RemoveCardShape(nodes, id);
    assert id !in Ids(r);
  }

  /** A card free of double references names no id through two fields. */
  lemma NoDoubleNotTwo(n: Node, id: int)
    requires NoDoubleReference(n)
    ensures !TwoFields(n, id)
  {
  }

  /** A card other than the removed one is still there after the removal. */
  lemma RemoveCardKeeps(nodes: seq<Node>, id: int, target: int)
    requires target in Ids(nodes) && target != id
    ensures target in Ids(RemoveCard(nodes, id))
  {
    var kept := Survivors(nodes, id);
    var k := IdIndex(nodes, target);
    assert nodes[k] in kept;
    var m :| 0 <= m < |kept| && kept[m] == nodes[k];
    StripReferenceEffect(kept[m], id, target);
    assert RemoveCard(nodes, id)[m].id == target;
  }

  /** Filtering keeps a list free of repetitions. */
  lemma {:induction false} WithoutDistinct(ids: seq<int>, id: int)
    requires Distinct(ids)
    ensures Distinct(Without(ids, id))
    decreases |ids|
  {
    if |ids| > 0 {
      var init := ids[..|ids| - 1];
      var last := ids[|ids| - 1];
      assert Distinct(init) by {
        assert forall a :: 0 <= a < |init| ==> init[a] == ids[a];
      }
      WithoutDistinct(init, id);
      var w0 := Without(init, id);
      assert last !in init by {
        assert forall a :: 0 <= a < |init| ==> init[a] == ids[a];
      }
      if last != id {
        var w := w0 + [last];
        assert Without(ids, id) == w;
        forall a, b | 0 <= a < b < |w| ensures w[a] != w[b] {
          if b == |w0| {
            assert w[a] == w0[a] && w0[a] in w0;
          } else {
            assert w[a] == w0[a] && w[b] == w0[b];
          }
        }
      }
    }
  }

  /** Stripping keeps a card free of double references. */
  lemma StripReferenceNoDouble(n: Node, id: int)
    requires NoDoubleReference(n)
    ensures NoDoubleReference(StripReference(n, id))
  {
    if n.next.Some? && id in n.next.value {
      assert NextOrEmpty(n) == n.next.value;
      WithoutDistinct(n.next.value, id);
      assert NextOrEmpty(StripReference(n, id)) == Without(n.next.value, id);
    }
  }

  /** Where a survivor came from. */
  lemma SurvivorIndex(nodes: seq<Node>, id: int, i: int) returns (j: int)
    requires 0 <= i < |Survivors(nodes, id)|
    ensures 0 <= j < |nodes| && nodes[j] == Survivors(nodes, id)[i]
  {
    assert Survivors(nodes, id)[i] in Survivors(nodes, id);
    j :| 0 <= j < |nodes| && nodes[j] == Survivors(nodes, id)[i];
  }

  /** The whole graph invariant survives a removal. */
  lemma RemoveCardWellformed(nodes: seq<Node>, id: int)
    requires Wellformed(nodes)
    ensures Wellformed(RemoveCard(nodes, id))
  {
    forall i | 0 <= i < |nodes| ensures !TwoFields(nodes[i], id) {
      NoDoubleNotTwo(nodes[i], id);
    }
    RemoveCardIntegrity(nodes, id);
    SurvivorsUnique(nodes, id);
    RemoveCardCards(nodes, id);
  }

  /** Each survivor keeps its id and stays free of double references. */
  lemma RemoveCardCards(nodes: seq<Node>, id: int)
    requires PositiveIds(nodes)
    requires forall i :: 0 <= i < |nodes| ==> NoDoubleReference(nodes[i])
    ensures var r := RemoveCard(nodes, id);
            forall i :: 0 <= i < |r| ==>
              r[i].id == Survivors(nodes, id)[i].id && r[i].id > 0 && NoDoubleReference(r[i])
  {
    var kept := Survivors(nodes, id);
    forall i | 0 <= i < |kept| ensures kept[i].id > 0 && NoDoubleReference(StripReference(kept[i], id)) {
      var j := SurvivorIndex(nodes, id, i);
      StripReferenceNoDouble(kept[i], id);
    }
  }

  /**
   * The `else if` chain at work: a condition card whose two branches both
   * lead to the removed card keeps its `no` branch, which then names a card
   * that no longer exists.
   */
  lemma RemoveCardLeavesSecondBranch()
    ensures var before := [Node(1, Condition, "c", Pos(0, 0), None, Some(2), Some(2)),
                           Node(2, Email, "e", Pos(0, 0), Some([]), None, None)];
            && Integrity(before)
            && RemoveCard(before, 2) == [Node(1, Condition, "c", Pos(0, 0), None, None, Some(2))]
            && !Integrity(RemoveCard(before, 2))
  {
    var before := [Node(1, Condition, "c", Pos(0, 0), None, Some(2), Some(2)),
                   Node(2, Email, "e", Pos(0, 0), Some([]), None, None)];
    assert Ids(before) == {1, 2} by {
      assert before[0] in before && before[1] in before;
    }
    var after := RemoveCard(before, 2);
    assert Survivors(before, 2) == [before[0]] by {
      assert before[..1] == [before[0]];
      assert Survivors([before[0]], 2) == Survivors([], 2) + [before[0]] by {
        assert [before[0]][..0] == [];
      }
    }
    assert RefersTo(after[0], 2);
    assert 2 !in Ids(after);
  }
}
