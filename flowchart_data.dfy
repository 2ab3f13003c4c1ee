/**
 * The initial flowchart shipped with the application, as a constant, and
 * what the model says about it: its ids, its shape, its integrity, and the
 * exact connection list derivation produces for it.
 */
module FlowchartData {
  import opened FlowTypes
  import opened SeqUtil
  import opened Derivation
  import opened GraphEdits

  /** The stored graph payload: the cards, and a connection list the components never read. */
  datatype FlowchartData = FlowchartData(nodes: seq<Node>, connections: seq<Connection>)

  /** The nine cards of the sample campaign. */
  function InitialNodes(): seq<Node>
  {
    [ Node(1, Trigger, "When someone purchases any product", Pos(380, 50), Some([2]), None, None),
      Node(2, Condition, "Purchased a Product?", Pos(380, 150), None, Some(3), Some(6)),
      Node(3, Condition, "Filter by weather conditions in contact's location", Pos(250, 290), None, Some(4), Some(5)),
      Node(4, Action, "Wait a specific time interval", Pos(120, 430), Some([7]), None, None),
      Node(5, Action, "Wait a specific time interval", Pos(380, 430), Some([8]), None, None),
      Node(6, Action, "Wait a specific time interval", Pos(640, 290), Some([9]), None, None),
      Node(7, Email, "Then send email campaign", Pos(120, 530), Some([]), None, None),
      Node(8, Email, "Then send email campaign", Pos(380, 530), Some([]), None, None),
      Node(9, Email, "Then send email campaign", Pos(640, 430), Some([]), None, None) ]
  }

  /**
   * The records derivation produces for the sample: eight links (1 to 2,
   * the two branches of 2 and of 3, and the `next` links of 4, 5 and 6) and
   * the three `next` stubs of the email cards 7, 8 and 9.
   */
  function InitialConnections(): seq<Connection>
  {
    [ Connection(1, Some(2), Pos(530, 110), Pos(530, 150), Next, false),
      Connection(2, Some(3), Pos(480, 210), Pos(400, 290), Yes, false),
      Connection(2, Some(6), Pos(580, 210), Pos(790, 290), No, false),
      Connection(3, Some(4), Pos(350, 350), Pos(270, 430), Yes, false),
      Connection(3, Some(5), Pos(450, 350), Pos(530, 430), No, false),
      Connection(4, Some(7), Pos(270, 490), Pos(270, 530), Next, false),
      Connection(5, Some(8), Pos(530, 490), Pos(530, 530), Next, false),
      Connection(6, Some(9), Pos(790, 350), Pos(790, 430), Next, false),
      Connection(7, None, Pos(270, 590), Pos(270, 650), Next, true),
      Connection(8, None, Pos(530, 590), Pos(530, 650), Next, true),
      Connection(9, None, Pos(790, 490), Pos(790, 550), Next, true) ]
  }

  /** The initial payload: the cards above and an empty stored connection list. */
  function Initial(): FlowchartData
  {
    FlowchartData(InitialNodes(), [])
  }

  // The lemmas below speak of the sample through a parameter `f` equal to
  // it, which keeps the verifier from evaluating every function applied to
  // the literal list in full.

  /** The ids are 1 to 9 in list order, hence pairwise distinct and positive. */
  lemma InitialIds(f: seq<Node>)
    requires f == InitialNodes()
    ensures |f| == 9
    ensures forall i :: 0 <= i < |f| ==> f[i].id == i + 1
    ensures forall k :: k in Ids(f) <==> 1 <= k <= 9
    ensures UniqueIds(f) && PositiveIds(f)
  {
    assert |f| == 9;
    assert forall i :: 0 <= i < |f| ==> f[i].id == i + 1;
    forall k | 1 <= k <= 9 ensures k in Ids(f) {
      assert f[k - 1] in f;
    }
  }

  /** Exactly one card is a trigger: the one with id 1. */
  lemma InitialTrigger(f: seq<Node>)
    requires f == InitialNodes()
    ensures forall i :: 0 <= i < |f| ==> (f[i].kind == Trigger <==> f[i].id == 1)
  {
  }

  /**
   * The condition cards 2 and 3 carry both branches and no `next` list;
   * every other card carries a `next` list and neither branch. The stored
   * connection list is empty.
   */
  lemma InitialShape(f: seq<Node>)
    requires f == InitialNodes()
    ensures forall i :: 0 <= i < |f| ==>
              if f[i].id == 2 || f[i].id == 3 then f[i].kind == Condition && f[i].next.None? && f[i].yes.Some? && f[i].no.Some?
              else f[i].kind != Condition && f[i].next.Some? && f[i].yes.None? && f[i].no.None?
    ensures Initial().connections == [] && Initial().nodes == f
  {
  }

  /** Every relation field of the sample names one of its cards, and the whole graph invariant holds. */
  lemma InitialWellformed(f: seq<Node>)
    requires f == InitialNodes()
    ensures Wellformed(f)
  {
    InitialIds(f);
    forall i, target | 0 <= i < |f| && RefersTo(f[i], target) ensures target in Ids(f) {
      assert 1 <= target <= 9;
    }
  }

  /**
   * Derivation over the sample yields eleven records: eight links (1 to 2,
   * the two branches of 2 and of 3, and the `next` links of 4, 5 and 6)
   * followed by the three `next` stubs of the email cards 7, 8 and 9, at
   * the coordinates `InitialConnections()` lists.
   */
  lemma InitialDerivation(f: seq<Node>)
    requires f == InitialNodes()
    ensures Derive(f) == SampleRecords(f) == InitialConnections()
    ensures |Derive(f)| == 11 && EndpointCount(Derive(f)) == 3
    ensures forall k :: 0 <= k < 8 ==> !Derive(f)[k].isEndpoint && Derive(f)[k].to.Some?
    ensures forall k :: 8 <= k < 11 ==> Derive(f)[k].isEndpoint && Derive(f)[k].rel == Next && Derive(f)[k].from == k - 1
  {
    InitialIsSample(f);
    SampleDerivation(f);
    SampleCoordinates(f);
    SampleEndpointCount(f);
  }

  /** The records of a list that agrees with the sample card by card, in terms of its cards. */
  function SampleRecords(f: seq<Node>): seq<Connection>
    requires |f| == 9
  {
    [ Resolved(f[0], f[1], Next) ] + [ Resolved(f[1], f[2], Yes), Resolved(f[1], f[5], No) ]
    + [ Resolved(f[2], f[3], Yes), Resolved(f[2], f[4], No) ]
    + [ Resolved(f[3], f[6], Next), Resolved(f[4], f[7], Next), Resolved(f[5], f[8], Next) ]
    + [ Endpoint(f[6], Next), Endpoint(f[7], Next), Endpoint(f[8], Next) ]
  }

  /** The sample meets `SampleCards`. */
  lemma InitialIsSample(f: seq<Node>)
    requires f == InitialNodes()
    ensures SampleCards(f)
  {
  }

  /** Derivation over any list that agrees with the sample card by card. */
  lemma SampleDerivation(f: seq<Node>)
    requires SampleCards(f)
    ensures Derive(f) == SampleRecords(f)
  {
    InitialHead(f);
    InitialMiddle(f);
    InitialTail(f);
    ConcatMapByThrees(f, Records(f));
  }

  /** The coordinates of the sample's records. */
  lemma SampleCoordinates(f: seq<Node>)
    requires SampleCards(f)
    ensures SampleRecords(f) == InitialConnections()
  {
  }

  /** Eight links, then three stubs. */
  lemma SampleEndpointCount(f: seq<Node>)
    requires SampleCards(f)
    ensures EndpointCount(SampleRecords(f)) == 3
  {
    var s := SampleRecords(f);
    assert s == s[..8] + s[8..];
    EndpointCountAppend(s[..8], s[8..]);
    EndpointCountNone(s[..8]);
    EndpointCountAll(s[8..]);
  }

  /** The sample, card by card, stated without the list literal. */
  predicate SampleCards(f: seq<Node>)
  {
    && |f| == 9
    && (forall i :: 0 <= i < 9 ==> f[i].id == i + 1)
    && f[0].kind == Trigger && f[0].position == Pos(380, 50) && f[0].next == Some([2]) && f[0].yes.None? && f[0].no.None?
    && f[1].kind == Condition && f[1].position == Pos(380, 150) && f[1].next.None? && f[1].yes == Some(3) && f[1].no == Some(6)
    && f[2].kind == Condition && f[2].position == Pos(250, 290) && f[2].next.None? && f[2].yes == Some(4) && f[2].no == Some(5)
    && f[3].kind == Action && f[3].position == Pos(120, 430) && f[3].next == Some([7]) && f[3].yes.None? && f[3].no.None?
    && f[4].kind == Action && f[4].position == Pos(380, 430) && f[4].next == Some([8]) && f[4].yes.None? && f[4].no.None?
    && f[5].kind == Action && f[5].position == Pos(640, 290) && f[5].next == Some([9]) && f[5].yes.None? && f[5].no.None?
    && f[6].kind == Email && f[6].position == Pos(120, 530) && f[6].next == Some([]) && f[6].yes.None? && f[6].no.None?
    && f[7].kind == Email && f[7].position == Pos(380, 530) && f[7].next == Some([]) && f[7].yes.None? && f[7].no.None?
    && f[8].kind == Email && f[8].position == Pos(640, 430) && f[8].next == Some([]) && f[8].yes.None? && f[8].no.None?
  }

  /** The records of the trigger and the two condition cards. */
  lemma InitialHead(f: seq<Node>)
    requires SampleCards(f)
    ensures ConcatMap(f[..3], Records(f)) ==
              [ Resolved(f[0], f[1], Next) ] + [ Resolved(f[1], f[2], Yes), Resolved(f[1], f[5], No) ]
              + [ Resolved(f[2], f[3], Yes), Resolved(f[2], f[4], No) ]
  {
    SampleNextRecords(f, 0, 1);
    SampleBranchRecords(f, 1, 2, 5);
    SampleBranchRecords(f, 2, 3, 4);
    ConcatMapThree(f[..3], Records(f));
  }

  /** The records of the three action cards. */
  lemma InitialMiddle(f: seq<Node>)
    requires SampleCards(f)
    ensures ConcatMap(f[3..6], Records(f)) == [Resolved(f[3], f[6], Next), Resolved(f[4], f[7], Next), Resolved(f[5], f[8], Next)]
  {
    SampleFinds(f);
    assert f[3..6] == [f[3], f[4], f[5]];
    NextTripleRecords(f, f[3], f[4], f[5], f[6], f[7], f[8]);
  }

  /** Three cards, each linking through `next` to one card, give one record each, in card order. */
  lemma NextTripleRecords(all: seq<Node>, a: Node, b: Node, c: Node, ta: Node, tb: Node, tc: Node)
    requires a.kind != Condition && a.yes.None? && a.no.None? && a.next == Some([ta.id]) && Find(all, ta.id) == Some(ta)
    requires b.kind != Condition && b.yes.None? && b.no.None? && b.next == Some([tb.id]) && Find(all, tb.id) == Some(tb)
    requires c.kind != Condition && c.yes.None? && c.no.None? && c.next == Some([tc.id]) && Find(all, tc.id) == Some(tc)
    ensures ConcatMap([a, b, c], Records(all)) == [Resolved(a, ta, Next), Resolved(b, tb, Next), Resolved(c, tc, Next)]
  {
    SingleNextRecords(all, a, ta);
    SingleNextRecords(all, b, tb);
    SingleNextRecords(all, c, tc);
    ConcatMapThree([a, b, c], Records(all));
  }

  /** Looking up the id of any sample card finds that card. */
  lemma SampleFinds(f: seq<Node>)
    requires SampleCards(f)
    ensures forall j :: 0 <= j < 9 ==> Find(f, f[j].id) == Some(f[j])
  {
    assert UniqueIds(f);
    forall j | 0 <= j < 9 ensures Find(f, f[j].id) == Some(f[j]) {
      FindAt(f, j);
    }
  }

  /** The records of the three email cards: their `next` stubs. */
  lemma InitialTail(f: seq<Node>)
    requires SampleCards(f)
    ensures ConcatMap(f[6..], Records(f)) == [Endpoint(f[6], Next), Endpoint(f[7], Next), Endpoint(f[8], Next)]
  {
    LeafStubRecords(f, f[6]);
    LeafStubRecords(f, f[7]);
    LeafStubRecords(f, f[8]);
    ConcatMapThree(f[6..], Records(f));
  }

  /** Card `i` of the sample links through `next` to card `j` only. */
  lemma SampleNextRecords(f: seq<Node>, i: int, j: int)
    requires SampleCards(f) && 0 <= i < 9 && 0 <= j < 9
    requires f[i].kind != Condition && f[i].yes.None? && f[i].no.None? && f[i].next == Some([j + 1])
    ensures NodeConnections(f, f[i]) == [Resolved(f[i], f[j], Next)]
  {
    assert UniqueIds(f);
    FindAt(f, j);
    SingleNextRecords(f, f[i], f[j]);
  }

  /** Card `i` of the sample branches to card `a` on `yes` and to card `b` on `no`. */
  lemma SampleBranchRecords(f: seq<Node>, i: int, a: int, b: int)
    requires SampleCards(f) && 0 <= i < 9 && 0 <= a < 9 && 0 <= b < 9
    requires f[i].next.None? && f[i].yes == Some(a + 1) && f[i].no == Some(b + 1)
    ensures NodeConnections(f, f[i]) == [Resolved(f[i], f[a], Yes), Resolved(f[i], f[b], No)]
  {
    assert UniqueIds(f);
    FindAt(f, a);
    FindAt(f, b);
    BranchPairRecords(f, f[i], f[a], f[b]);
  }
}
