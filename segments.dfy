/**
 * The DOM renderers' drawing of the derived records (`renderConnections`
 * of the two `Flowchart` components): absolutely positioned line boxes,
 * dots, add buttons and decision markers, accumulated in record order.
 */
module Segments {
  import opened FlowTypes
  import opened SeqUtil
  import opened Derivation
  import opened Widgets
  import opened CanvasPaths

  /** The first box of a link: down from the source anchor by half the rise. */
  function Down(c: Connection): Element
  {
    Line(c.fromPos.y as real, c.fromPos.x as real, 2.0, Rise(c) / 2.0, Vertical)
  }

  /** The horizontal box of a link, at half the rise below the anchor, spanning the two columns. */
  function Across(c: Connection): Element
  {
    Line(c.fromPos.y as real + Rise(c) / 2.0, Min(c.fromPos.x, c.toPos.x) as real,
         Abs(c.toPos.x - c.fromPos.x) as real, 2.0, Horizontal)
  }

  /** The last box of a link: in the target's column, from half the rise below the anchor, half the rise high. */
  function Up(c: Connection): Element
  {
    Line(c.fromPos.y as real + Rise(c) / 2.0, c.toPos.x as real, 2.0, Rise(c) / 2.0, Vertical)
  }

  /** The single box of a stub: in the anchor's column, the full rise high. */
  function Stub(c: Connection): Element
  {
    Line(c.fromPos.y as real, c.fromPos.x as real, 2.0, Rise(c), Vertical)
  }

  /** The line boxes of a link: down, across when the columns differ, then up. */
  function LinkLines(c: Connection): seq<Element>
  {
    [Down(c)] + (if c.fromPos.x != c.toPos.x then [Across(c)] else []) + [Up(c)]
  }

  /** The decorations of a link: a dot at each anchor, then the marker of a decision branch. */
  function LinkMarks(c: Connection): seq<Element>
  {
    [Dot(c.fromPos), Dot(c.toPos)] + Markers(c)
  }

  /** The elements pushed for one record. */
  function ElementsOf(c: Connection): seq<Element>
  {
    if c.isEndpoint then [Stub(c), AddButton(c.toPos, c.from, c.rel)]
    else LinkLines(c) + LinkMarks(c)
  }

  function ElementsFn(): Connection -> seq<Element>
  {
    c => ElementsOf(c)
  }

  /** Every record's elements, in record order. */
  function Render(conns: seq<Connection>): seq<Element>
  {
    ConcatMap(conns, ElementsFn())
  }

  /** `renderConnections`: the loop that pushes each record's elements onto the growing list. */
  method RenderConnections(conns: seq<Connection>) returns (elements: seq<Element>)
    ensures elements == Render(conns)
  {
    elements := [];
    for i := 0 to |conns|
      invariant elements == ConcatMap(conns[..i], ElementsFn())
    {
      ConcatMapStep(conns, ElementsFn(), i);
      var conn := conns[i];
      if conn.isEndpoint {
        elements := PushStub(conn, elements);
      } else {
        elements := PushLink(conn, elements);
      }
    }
    assert conns[..|conns|] == conns;
  }

  /** The loop body for a stub: its vertical box, then its add button. */
  method PushStub(conn: Connection, elements: seq<Element>) returns (out: seq<Element>)
    requires conn.isEndpoint
    ensures out == elements + ElementsOf(conn)
  {
    out := elements + [Line(conn.fromPos.y as real, conn.fromPos.x as real, 2.0, Abs(conn.toPos.y - conn.fromPos.y) as real, Vertical)];
    out := out + [AddButton(conn.toPos, conn.from, conn.rel)];
  }

  /** The loop body for a link: its boxes, its two dots, then its decision marker. */
  method PushLink(conn: Connection, elements: seq<Element>) returns (out: seq<Element>)
    requires !conn.isEndpoint
    ensures out == elements + ElementsOf(conn)
  {
    var half := Abs(conn.toPos.y - conn.fromPos.y) as real / 2.0;
    out := elements + [Line(conn.fromPos.y as real, conn.fromPos.x as real, 2.0, half, Vertical)];
    if conn.fromPos.x != conn.toPos.x {
      out := out + [Line(conn.fromPos.y as real + half, Min(conn.fromPos.x, conn.toPos.x) as real,
                         Abs(conn.toPos.x - conn.fromPos.x) as real, 2.0, Horizontal)];
    }
    out := out + [Line(conn.fromPos.y as real + half, conn.toPos.x as real, 2.0, half, Vertical)];
    assert out == elements + LinkLines(conn);
    out := out + [Dot(conn.fromPos)];
    out := out + [Dot(conn.toPos)];
    var quarter := Abs(conn.toPos.y - conn.fromPos.y) as real / 4.0;
    if conn.rel == Yes {
      out := out + [Marker(conn.fromPos.y as real + quarter, (conn.fromPos.x - 30) as real, Yes)];
    } else if conn.rel == No {
      out := out + [Marker(conn.fromPos.y as real + quarter, (conn.fromPos.x - 30) as real, No)];
    }
    assert out == elements + LinkLines(conn) + LinkMarks(conn);
  }

  // ---------------------------------------------------------------------------
  // Geometry of a link
  // ---------------------------------------------------------------------------

  /**
   * The down box starts at the source anchor, the up box sits in the
   * target's column, both are half the rise high, and the up box starts
   * where the down box ends.
   */
  lemma LinkBoxesMeet(c: Connection)
    ensures var d, u := Down(c), Up(c);
            && d.top == c.fromPos.y as real && d.left == c.fromPos.x as real && d.dir == Vertical
            && u.left == c.toPos.x as real && u.dir == Vertical
            && d.height == u.height && d.height + u.height == Abs(c.toPos.y - c.fromPos.y) as real
            && d.top + d.height == u.top
  {
  }

  /**
   * A link has a horizontal box exactly when its two anchors are in
   * different columns; that box lies at the foot of the down box and spans
   * from the left one of the two columns to the right one.
   */
  lemma AcrossWhenColumnsDiffer(c: Connection)
    requires !c.isEndpoint
    ensures (exists e :: e in ElementsOf(c) && e.Line? && e.dir == Horizontal) <==> c.fromPos.x != c.toPos.x
    ensures forall e :: e in ElementsOf(c) && e.Line? && e.dir == Horizontal ==>
              && e.top == Down(c).top + Down(c).height
              && e.left == Min(c.fromPos.x, c.toPos.x) as real
              && e.left + e.width == (if c.fromPos.x < c.toPos.x then c.toPos.x else c.fromPos.x) as real
              && e.width > 0.0
  {
    if c.fromPos.x != c.toPos.x {
      assert ElementsOf(c)[1] == Across(c);
    }
  }

  /**
   * The boxes use the absolute rise, so the up box ends at the target
   * anchor exactly when the target is not above the source; only then do
   * the boxes retrace the canvas path.
   */
  lemma UpReachesTargetIffBelow(c: Connection)
    requires !c.isEndpoint
    ensures var u, p := Up(c), CanvasPath(c);
            (u.top + u.height == c.toPos.y as real) <==> c.toPos.y >= c.fromPos.y
    ensures c.toPos.y >= c.fromPos.y ==>
              var d, u, p := Down(c), Up(c), CanvasPath(c);
              && d.left == p[0].x && d.top == p[0].y && d.top + d.height == p[1].y
              && u.left == p[2].x && u.top == p[2].y && u.top + u.height == p[3].y
  {
  }

  /**
   * A decision marker is emitted for a record exactly when it is a resolved
   * `yes`/`no` link; it is labelled with that branch and sits 30 left of
   * the source anchor, a quarter of the rise below it, half-way along the
   * down box.
   */
  lemma MarkerPlacement(c: Connection)
    ensures (exists e :: e in ElementsOf(c) && e.Marker?) <==> !c.isEndpoint && c.rel != Next
    ensures forall e :: e in ElementsOf(c) && e.Marker? ==>
              && e.branch == c.rel
              && e.left == (c.fromPos.x - 30) as real
              && e.top == c.fromPos.y as real + Abs(c.toPos.y - c.fromPos.y) as real / 4.0
              && e.top == Down(c).top + Down(c).height / 2.0
  {
    if !c.isEndpoint && c.rel != Next {
      assert ElementsOf(c)[|ElementsOf(c)| - 1].Marker?;
    }
  }

  /**
   * A stub renders as one vertical box from its anchor, the full rise high,
   * and an add button at its tip that adds under the stub's card and relation.
   */
  lemma StubElements(c: Connection)
    requires c.isEndpoint
    ensures forall e :: e in ElementsOf(c) && e.Line? ==>
              e.dir == Vertical && e.left == c.fromPos.x as real && e.top == c.fromPos.y as real
              && e.height == Abs(c.toPos.y - c.fromPos.y) as real
    ensures AddButton(c.toPos, c.from, c.rel) in ElementsOf(c)
    ensures |ElementsOf(c)| == 2
  {
  }

  /**
   * For the stubs derivation emits, the box is 60 high; its foot is the add
   * button's position for the `next` stub only, while the `yes`/`no`
   * buttons sit 50 to the side of the box.
   */
  lemma DerivedStubBox(n: Node, rel: Relation)
    ensures var c := Endpoint(n, rel);
            && Stub(c).height == 60.0
            && (Stub(c).left == c.toPos.x as real && Stub(c).top + Stub(c).height == c.toPos.y as real <==> rel == Next)
  {
  }

  /** The canvas component's overlay is exactly the DOM renderers' output without its line boxes. */
  lemma {:induction false} OverlayIsRenderWithoutLines(conns: seq<Connection>)
    ensures Overlay(conns) == NonLines(Render(conns))
    decreases |conns|
  {
    if |conns| > 0 {
      var init, last := conns[..|conns| - 1], conns[|conns| - 1];
      OverlayIsRenderWithoutLines(init);
      NonLinesAppend(Render(init), ElementsOf(last));
      OverlayOfIsNonLines(last);
    }
  }

  /** The same for one record. */
  lemma OverlayOfIsNonLines(c: Connection)
    ensures OverlayOf(c) == NonLines(ElementsOf(c))
  {
    if c.isEndpoint {
      NonLinesAppend([Stub(c)], [AddButton(c.toPos, c.from, c.rel)]);
      assert ElementsOf(c) == [Stub(c)] + [AddButton(c.toPos, c.from, c.rel)];
    } else {
      NonLinesAppend(LinkLines(c), LinkMarks(c));
      NonLinesDrops(LinkLines(c));
      NonLinesKeeps(LinkMarks(c));
    }
  }

  /** A list of line boxes leaves nothing. */
  lemma NonLinesDrops(es: seq<Element>)
    requires forall e :: e in es ==> e.Line?
    ensures NonLines(es) == []
  {
  }

  /** A list without line boxes passes through unchanged. */
  lemma {:induction false} NonLinesKeeps(es: seq<Element>)
    requires forall i :: 0 <= i < |es| ==> !es[i].Line?
    ensures NonLines(es) == es
    decreases |es|
  {
    if |es| > 0 {
      var init, last := es[..|es| - 1], es[|es| - 1];
      assert es == init + [last];
      NonLinesKeeps(init);
    }
  }
}
