/**
 * The canvas component's drawing of the derived records: one polyline per
 * record (the vertices passed to `moveTo`/`lineTo`), and the dots, add
 * buttons and decision markers laid over the canvas.
 */
module CanvasPaths {
  import opened FlowTypes
  import opened SeqUtil
  import opened Derivation
  import opened Widgets

  /** A canvas vertex. */
  datatype Point = Point(x: real, y: real)

  function At(p: Pos): Point
  {
    Point(p.x as real, p.y as real)
  }

  /** The height of the horizontal run of a resolved link: `fromPos.y + (toPos.y - fromPos.y) / 2`. */
  function MidY(c: Connection): real
  {
    c.fromPos.y as real + (c.toPos.y - c.fromPos.y) as real / 2.0
  }

  /**
   * The vertices visited for one record: down from the source anchor to the
   * mid height, across to the target's column, down (or up) into the target;
   * a stub is the single segment from its anchor to its tip.
   */
  function CanvasPath(c: Connection): seq<Point>
  {
    if !c.isEndpoint then [At(c.fromPos), Point(c.fromPos.x as real, MidY(c)), Point(c.toPos.x as real, MidY(c)), At(c.toPos)]
    else [At(c.fromPos), At(c.toPos)]
  }

  /** `drawConnections`: one path per record, in record order. */
  method DrawConnections(conns: seq<Connection>) returns (paths: seq<seq<Point>>)
    ensures |paths| == |conns|
    ensures forall i :: 0 <= i < |conns| ==> paths[i] == CanvasPath(conns[i])
  {
    paths := [];
    for i := 0 to |conns|
      invariant |paths| == i
      invariant forall k :: 0 <= k < i ==> paths[k] == CanvasPath(conns[k])
    {
      var conn := conns[i];
      var path := [At(conn.fromPos)];
      if !conn.isEndpoint {
        var midY := conn.fromPos.y as real + (conn.toPos.y - conn.fromPos.y) as real / 2.0;
        path := path + [Point(conn.fromPos.x as real, midY)];
        path := path + [Point(conn.toPos.x as real, midY)];
        path := path + [At(conn.toPos)];
      } else {
        path := path + [At(conn.toPos)];
      }
      paths := paths + [path];
    }
  }

  /** Every segment of the path runs vertically or horizontally. */
  predicate AxisAligned(p: seq<Point>)
  {
    forall k :: 0 <= k < |p| - 1 ==> p[k].x == p[k + 1].x || p[k].y == p[k + 1].y
  }

  /**
   * A path joins its record's two anchors. A link's path is Manhattan-routed
   * (vertical, horizontal, vertical) with the horizontal run exactly half-way
   * down; when source and target share a column it is one straight vertical
   * line. A stub's path is the single segment between anchor and tip.
   */
  lemma CanvasPathGeometry(c: Connection)
    ensures var p := CanvasPath(c);
            && p[0] == At(c.fromPos) && p[|p| - 1] == At(c.toPos)
            && (!c.isEndpoint ==>
                  && |p| == 4 && AxisAligned(p)
                  && p[0].x == p[1].x && p[1].y == p[2].y && p[2].x == p[3].x
                  && p[1].y - p[0].y == p[3].y - p[2].y
                  && (c.fromPos.x == c.toPos.x ==> forall k :: 0 <= k < 4 ==> p[k].x == c.fromPos.x as real))
            && (c.isEndpoint ==> |p| == 2)
  {
  }

  /**
   * The stubs derivation emits drop 60 below their anchor; the `next` stub
   * is vertical, while the `yes` and `no` stubs slant 50 to the left and to
   * the right, so only the `next` stub is axis-aligned.
   */
  lemma StubPathSlant(n: Node, rel: Relation)
    ensures var p := CanvasPath(Endpoint(n, rel));
            && |p| == 2
            && p[1].y - p[0].y == 60.0
            && p[1].x - p[0].x == (match rel case Next => 0.0 case Yes => -50.0 case No => 50.0)
            && (AxisAligned(p) <==> rel == Next)
  {
  }

  /**
   * Each derived link is drawn from the bottom anchor of the card it comes
   * from to the top centre of the card it names, turning at half the height
   * between them.
   */
  lemma DerivedPathJoinsCards(all: seq<Node>, c: Connection) returns (i: int)
    requires c in Derive(all) && !c.isEndpoint
    ensures 0 <= i < |all| && all[i].id == c.from
    ensures c.to.Some? && c.to.value in Ids(all)
    ensures var p := CanvasPath(c);
            && p[0] == At(SourceAnchor(all[i], c.rel))
            && p[3] == At(TargetAnchor(Find(all, c.to.value).value))
            && p[1].y == (all[i].position.y + 60) as real + (Find(all, c.to.value).value.position.y - all[i].position.y - 60) as real / 2.0
  {
    i := ConcatMapMember(all, Records(all), c);
    NodeConnectionSound(all, all[i], c);
  }

  // ---------------------------------------------------------------------------
  // Overlay
  // ---------------------------------------------------------------------------

  /**
   * What the canvas component lays over one record: the add button at a
   * stub's tip, or the two dots of a link and, for a decision branch, its
   * marker.
   */
  function OverlayOf(c: Connection): seq<Element>
  {
    if c.isEndpoint then [AddButton(c.toPos, c.from, c.rel)]
    else [Dot(c.fromPos), Dot(c.toPos)] + Markers(c)
  }

  function OverlayFn(): Connection -> seq<Element>
  {
    c => OverlayOf(c)
  }

  /** The overlay for the whole record list, in record order. */
  function Overlay(conns: seq<Connection>): seq<Element>
  {
    ConcatMap(conns, OverlayFn())
  }

  /**
   * Every stub gets exactly its add button and every link its two dots; a
   * marker appears for a record exactly when it is a resolved `yes`/`no`
   * link, labelled with its branch.
   */
  lemma OverlayContents(c: Connection)
    ensures c.isEndpoint ==> OverlayOf(c) == [AddButton(c.toPos, c.from, c.rel)]
    ensures !c.isEndpoint ==> Dot(c.fromPos) in OverlayOf(c) && Dot(c.toPos) in OverlayOf(c)
    ensures (exists e :: e in OverlayOf(c) && e.Marker?) <==> !c.isEndpoint && c.rel != Next
    ensures forall e :: e in OverlayOf(c) && e.Marker? ==> e.branch == c.rel
  {
    if !c.isEndpoint && c.rel != Next {
      assert OverlayOf(c)[2].Marker?;
    }
  }
}
