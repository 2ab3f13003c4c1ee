/**
 * The card component's pointer handling: a two-state drag machine held in
 * the `isDragging` flag and the `dragOffset` captured at the press, and the
 * remove control that trigger cards do not show. Pointer and bounding-box
 * coordinates are inputs; the calls a handler makes to the parent's
 * callbacks are returned as a list.
 */
module CardGesture {
  import opened FlowTypes

  /** A call the card makes to one of the callbacks its parent passed in. */
  datatype Callback =
    | DragStart(card: int)
    | Drag(card: int, to: Pos)
    | DragEnd(card: int)
    | Remove(card: int)

  /** Where the pointer grabbed the card, relative to the card's box: `clientX - rect.left`, `clientY - rect.top`. */
  function GrabOffset(pointer: Pos, box: Pos): Pos
  {
    Pos(pointer.x - box.x, pointer.y - box.y)
  }

  /** The card position reported for a pointer position: the pointer relative to the container, less the grab offset. */
  function DragPosition(pointer: Pos, container: Pos, offset: Pos): Pos
  {
    Pos(pointer.x - container.x - offset.x, pointer.y - container.y - offset.y)
  }

  /**
   * No jump: at the press point the reported position is the card's box
   * relative to the container, where the card already is.
   */
  lemma NoJump(press: Pos, box: Pos, container: Pos)
    ensures DragPosition(press, container, GrabOffset(press, box)) == Pos(box.x - container.x, box.y - container.y)
  {
  }

  /** With the offset fixed at the press, moving the pointer by (dx, dy) moves the card by exactly (dx, dy). */
  lemma FollowsPointer(press: Pos, box: Pos, container: Pos, pointer: Pos)
    ensures var p0 := DragPosition(press, container, GrabOffset(press, box));
            var p := DragPosition(pointer, container, GrabOffset(press, box));
            p.x - p0.x == pointer.x - press.x && p.y - p0.y == pointer.y - press.y
  {
  }

  class FlowchartCard {
    const card: Node
    // Which optional callbacks the parent passed in.
    const onRemove: bool
    const onDragStart: bool
    const onDrag: bool
    const onDragEnd: bool

    var isDragging: bool
    var dragOffset: Pos

    /** A freshly mounted card: not dragging, offset (0, 0). */
    constructor (card: Node, onRemove: bool, onDragStart: bool, onDrag: bool, onDragEnd: bool)
      ensures this.card == card && this.onRemove == onRemove && this.onDragStart == onDragStart
      ensures this.onDrag == onDrag && this.onDragEnd == onDragEnd
      ensures !isDragging && dragOffset == Pos(0, 0)
    {
      this.card := card;
      this.onRemove := onRemove;
      this.onDragStart := onDragStart;
      this.onDrag := onDrag;
      this.onDragEnd := onDragEnd;
      isDragging := false;
      dragOffset := Pos(0, 0);
    }

    /** The remove control is shown only when a remove callback was given and the card is not the trigger. */
    predicate RemoveControl()
    {
      onRemove && card.kind != Trigger
    }

    /** `handleRemove`: clicking the shown control asks the parent to remove this card. */
    method ClickRemove() returns (calls: seq<Callback>)
      requires RemoveControl()
      ensures calls == [Remove(card.id)] && card.kind != Trigger
    {
      calls := [];
      if onRemove {
        calls := calls + [Remove(card.id)];
      }
    }

    /**
     * `handleMouseDown`: on the trigger card nothing happens; otherwise the
     * grab offset is captured, dragging starts and the parent is told.
     */
    method MouseDown(pointer: Pos, box: Pos) returns (calls: seq<Callback>)
      modifies this
      ensures card.kind == Trigger ==> calls == [] && isDragging == old(isDragging) && dragOffset == old(dragOffset)
      ensures card.kind != Trigger ==>
                && isDragging && dragOffset == GrabOffset(pointer, box)
                && calls == (if onDragStart then [DragStart(card.id)] else [])
    {
      calls := [];
      if card.kind == Trigger {
        return;
      }
      dragOffset := Pos(pointer.x - box.x, pointer.y - box.y);
      isDragging := true;
      if onDragStart {
        calls := calls + [DragStart(card.id)];
      }
    }

    /**
     * `handleMouseMove`: reports a new position only while dragging,
     * translating the pointer by the captured offset; the state is left as it is.
     */
    method MouseMove(pointer: Pos, container: Pos) returns (calls: seq<Callback>)
      ensures !isDragging ==> calls == []
      ensures isDragging && onDrag ==> calls == [Drag(card.id, DragPosition(pointer, container, dragOffset))]
      ensures isDragging && !onDrag ==> calls == []
    {
      calls := [];
      if !isDragging {
        return;
      }
      var newX := pointer.x - container.x - dragOffset.x;
      var newY := pointer.y - container.y - dragOffset.y;
      if onDrag {
        calls := calls + [Drag(card.id, Pos(newX, newY))];
      }
    }

    /** `handleMouseUp`: dragging always stops and the parent is told; the offset is left as it was. */
    method MouseUp() returns (calls: seq<Callback>)
      modifies this
      ensures !isDragging && dragOffset == old(dragOffset)
      ensures calls == (if onDragEnd then [DragEnd(card.id)] else [])
    {
      isDragging := false;
      calls := [];
      if onDragEnd {
        calls := calls + [DragEnd(card.id)];
      }
    }
  }

  /**
   * One whole gesture on a freshly mounted card with every callback given:
   * the press, then each pointer move, then the release, which reach the
   * card only once a press on it has started a drag. A trigger card makes
   * no call at all. Any other card announces the drag, reports for each
   * move its box position shifted by the pointer's displacement since the
   * press, and announces the end.
   */
  method DragGesture(card: Node, press: Pos, box: Pos, container: Pos, moves: seq<Pos>) returns (calls: seq<Callback>)
    ensures card.kind == Trigger ==> calls == []
    ensures card.kind != Trigger ==>
              && |calls| == |moves| + 2
              && calls[0] == DragStart(card.id)
              && calls[|calls| - 1] == DragEnd(card.id)
              && forall k :: 0 <= k < |moves| ==>
                   calls[k + 1] == Drag(card.id, Pos(box.x - container.x + (moves[k].x - press.x),
                                                     box.y - container.y + (moves[k].y - press.y)))
  {
    var fc := new FlowchartCard(card, true, true, true, true);
    calls := fc.MouseDown(press, box);
    if !fc.isDragging {
      return;
    }
    for k := 0 to |moves|
      invariant fc.card == card && fc.onDrag
      invariant fc.isDragging && fc.dragOffset == GrabOffset(press, box)
      invariant |calls| == k + 1 && calls[0] == DragStart(card.id)
      invariant forall j :: 0 <= j < k ==>
                  calls[j + 1] == Drag(card.id, Pos(box.x - container.x + (moves[j].x - press.x),
                                                    box.y - container.y + (moves[j].y - press.y)))
    {
      var step := fc.MouseMove(moves[k], container);
      calls := calls + step;
    }
    var last := fc.MouseUp();
    calls := calls + last;
  }
}
