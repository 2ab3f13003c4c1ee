/**
 * The screen elements both renderers place around the cards: line boxes,
 * connection dots, add-card buttons and decision markers, with the small
 * arithmetic they share.
 */
module Widgets {
  import opened FlowTypes

  datatype Direction = Vertical | Horizontal

  /**
   * One positioned element. A `Line` is an absolutely positioned box; its
   * coordinates are rational because the renderers halve and quarter
   * vertical distances. An `AddButton` sits at `at` and, when used, asks the
   * add handler for a card under relation `rel` of card `source`, anchored
   * at `at`. A `Marker` is the Yes/No label of a decision branch.
   */
  datatype Element =
    | Line(top: real, left: real, width: real, height: real, dir: Direction)
    | Dot(at: Pos)
    | AddButton(at: Pos, source: int, rel: Relation)
    | Marker(top: real, left: real, branch: Relation)

  /** `Math.abs`. */
  function Abs(v: int): (r: nat)
    ensures r == v || r == -v
  {
    if v < 0 then -v else v
  }

  /** `Math.min`. */
  function Min(a: int, b: int): (r: int)
    ensures r <= a && r <= b && (r == a || r == b)
  {
    if a <= b then a else b
  }

  /** The vertical distance between a record's two anchors, `|toPos.y - fromPos.y|`. */
  function Rise(c: Connection): real
  {
    Abs(c.toPos.y - c.fromPos.y) as real
  }

  /** The decision label drawn beside a `yes`/`no` link: a quarter of the rise below the source anchor, 30 to its left. */
  function Markers(c: Connection): seq<Element>
  {
    if c.rel == Yes || c.rel == No then [Marker(c.fromPos.y as real + Rise(c) / 4.0, (c.fromPos.x - 30) as real, c.rel)]
    else []
  }

  /** The elements of a list that are not line boxes, in order. */
  function NonLines(es: seq<Element>): (r: seq<Element>)
    ensures forall e :: e in r <==> e in es && !e.Line?
  {
    if |es| == 0 then []
    else NonLines(es[..|es| - 1]) + (if es[|es| - 1].Line? then [] else [es[|es| - 1]])
  }

  lemma {:induction false} NonLinesAppend(a: seq<Element>, b: seq<Element>)
    ensures NonLines(a + b) == NonLines(a) + NonLines(b)
    decreases |b|
  {
    if |b| == 0 {
      assert a + b == a;
    } else {
      var init, last := b[..|b| - 1], b[|b| - 1];
      var tail := if last.Line? then [] else [last];
      assert (a + b)[..|a + b| - 1] == a + init;
      assert (a + b)[|a + b| - 1] == last;
      NonLinesAppend(a, init);
      assert NonLines(a + b) == NonLines(a + init) + tail;
      assert NonLines(b) == NonLines(init) + tail;
    }
  }
}
