/**
 * The data model of the campaign flowchart: cards (nodes), their relation
 * fields, derived connection records, and the integrity predicates that the
 * editing handlers are proved to preserve.
 */
module FlowTypes {

  datatype Option<T> = None | Some(value: T)

  /** The four card kinds. */
  datatype Kind = Trigger | Condition | Action | Email

  /** The string a kind is written as in the card data (`'trigger'`, `'condition'`, ...). */
  function KindName(k: Kind): string
  {
    match k
    case Trigger => "trigger"
    case Condition => "condition"
    case Action => "action"
    case Email => "email"
  }

  /** The three relation kinds a card can carry. */
  datatype Relation = Next | Yes | No

  /** An on-screen point with integer coordinates (a card's top-left corner, an anchor). */
  datatype Pos = Pos(x: int, y: int)

  /**
   * One card. `next` is an optional list: an absent list and an empty list
   * behave differently during derivation. `yes`/`no` are optional ids.
   */
  datatype Node = Node(
    id: int,
    kind: Kind,
    text: string,
    position: Pos,
    next: Option<seq<int>>,
    yes: Option<int>,
    no: Option<int>)

  /**
   * A derived connection record. `to` is None exactly for the dangling
   * endpoint stubs, which also carry `isEndpoint`.
   */
  datatype Connection = Connection(
    from: int,
    to: Option<int>,
    fromPos: Pos,
    toPos: Pos,
    rel: Relation,
    isEndpoint: bool)

  /** JavaScript truthiness of an optional numeric field: present and non-zero. */
  predicate Truthy(o: Option<int>)
  {
    o.Some? && o.value != 0
  }

  /** The `next` list, or the empty list when the field is absent (`node.next || []`). */
  function NextOrEmpty(n: Node): (r: seq<int>)
    ensures n.next.Some? ==> r == n.next.value
    ensures n.next.None? ==> r == []
  {
    if n.next.Some? then n.next.value else []
  }

  /** The ids of all cards in the list. */
  function Ids(nodes: seq<Node>): set<int>
  {
    set n | n in nodes :: n.id
  }

  /** True when card `n` names `target` in any of its relation fields. */
  predicate RefersTo(n: Node, target: int)
  {
    target in NextOrEmpty(n) || n.yes == Some(target) || n.no == Some(target)
  }

  /** Referential integrity: every id named by a relation field is the id of a card in the list. */
  ghost predicate Integrity(nodes: seq<Node>)
  {
    forall i, target :: 0 <= i < |nodes| && RefersTo(nodes[i], target) ==> target in Ids(nodes)
  }

  /** No two cards share an id. */
  predicate UniqueIds(nodes: seq<Node>)
  {
    forall i, j :: 0 <= i < j < |nodes| ==> nodes[i].id != nodes[j].id
  }

  /** Every id is positive, so a present `yes`/`no` is also truthy. */
  predicate PositiveIds(nodes: seq<Node>)
  {
    forall i :: 0 <= i < |nodes| ==> nodes[i].id > 0
  }

  /** No id occurs twice in the list. */
  predicate Distinct(ids: seq<int>)
  {
    forall i, j :: 0 <= i < j < |ids| ==> ids[i] != ids[j]
  }

  /**
   * A card names any one id through at most one relation field and at most
   * once inside `next`.
   */
  predicate NoDoubleReference(n: Node)
  {
    var nx := NextOrEmpty(n);
    && Distinct(nx)
    && (n.yes.Some? ==> n.yes.value !in nx)
    && (n.no.Some? ==> n.no.value !in nx)
    && (n.yes.Some? && n.no.Some? ==> n.yes.value != n.no.value)
  }

  /** The graph invariant kept by every editing handler. */
  ghost predicate Wellformed(nodes: seq<Node>)
  {
    && Integrity(nodes)
    && UniqueIds(nodes)
    && PositiveIds(nodes)
    && (forall i :: 0 <= i < |nodes| ==> NoDoubleReference(nodes[i]))
  }

  /** `Array.prototype.find` by id: the first card in the list with that id. */
  function Find(nodes: seq<Node>, id: int): (r: Option<Node>)
    ensures r.Some? ==> r.value in nodes && r.value.id == id
    ensures r.None? <==> id !in Ids(nodes)
  {
    if |nodes| == 0 then None
    else if nodes[0].id == id then Some(nodes[0])
    else Find(nodes[1..], id)
  }

  /** An id in `Ids(nodes)` is the id of the card at some index. */
  lemma IdIndex(nodes: seq<Node>, id: int) returns (j: int)
    requires id in Ids(nodes)
    ensures 0 <= j < |nodes| && nodes[j].id == id
  {
    var m :| m in nodes && m.id == id;
    j :| 0 <= j < |nodes| && nodes[j] == m;
  }

  /** With positive ids, truthiness of a relation field coincides with its presence. */
  lemma PresentIsTruthy(nodes: seq<Node>, i: int)
    requires Integrity(nodes) && PositiveIds(nodes) && 0 <= i < |nodes|
    ensures Truthy(nodes[i].yes) <==> nodes[i].yes.Some?
    ensures Truthy(nodes[i].no) <==> nodes[i].no.Some?
  {
    var n := nodes[i];
    if n.yes.Some? {
      assert RefersTo(n, n.yes.value);
      var j := IdIndex(nodes, n.yes.value);
    }
    if n.no.Some? {
      assert RefersTo(n, n.no.value);
      var j := IdIndex(nodes, n.no.value);
    }
  }

  /** With unique ids, `Find` returns the card at the position holding that id. */
  lemma {:induction false} FindAt(nodes: seq<Node>, i: int)
    requires UniqueIds(nodes) && 0 <= i < |nodes|
    ensures Find(nodes, nodes[i].id) == Some(nodes[i])
    decreases |nodes|
  {
    if i > 0 {
      assert nodes[0].id != nodes[i].id;
      assert nodes[1..][i - 1] == nodes[i];
      FindAt(nodes[1..], i - 1);
    }
  }

  /** `Find` stops at the first card carrying the id, whatever comes after it. */
  lemma {:induction false} FindFirst(nodes: seq<Node>, id: int, i: int)
    requires 0 <= i < |nodes| && nodes[i].id == id
    requires forall j :: 0 <= j < i ==> nodes[j].id != id
    ensures Find(nodes, id) == Some(nodes[i])
    decreases |nodes|
  {
    if i > 0 {
      assert nodes[1..][i - 1] == nodes[i];
      FindFirst(nodes[1..], id, i - 1);
    }
  }
}
