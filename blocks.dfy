/** The two draggable canvas entities: a lettered block and a straight line.
    A block is drawn as a square and a text item centred in it; both move together.
    Dragging keeps an anchor, the pointer position seen by the previous event. */
module Blocks {
  import opened Layout

  /** Offset from a block's top-left corner to the centre where its letter is drawn. */
  const LabelOffset := Point(BlockSize / 2, BlockSize / 2)

  /** Default distance of `move_up` and `move_down`. */
  const DefaultStep: int := 20

  /** Total displacement produced by drag events at `pointers`, when the anchor starts at
      `anchor`: each event moves by its pointer minus the anchor, then becomes the anchor. */
  function GestureDisplacement(anchor: Point, pointers: seq<Point>): Point
    decreases |pointers|
  {
    if pointers == [] then Origin
    else Add(Sub(pointers[0], anchor), GestureDisplacement(pointers[0], pointers[1..]))
  }

  /** The per-event deltas telescope: the total is the last pointer minus the first anchor. */
  lemma {:induction false} GestureTelescopes(anchor: Point, pointers: seq<Point>)
    requires pointers != []
    ensures GestureDisplacement(anchor, pointers) == Sub(pointers[|pointers| - 1], anchor)
    decreases |pointers|
  {
    if |pointers| > 1 {
      GestureTelescopes(pointers[0], pointers[1..]);
    }
  }

  /** A lettered square on the canvas. */
  class DraggableBlock {
    /** The letter, `self.text`. */
    const letter: char
    /** The slot the block was created at, `self.x` and `self.y`; never updated. */
    const origin: Point
    /** Top-left corner of the square on the canvas. */
    var shapePos: Point
    /** Centre of the letter on the canvas. */
    var labelPos: Point
    /** The drag anchor, `self.drag_data`. */
    var dragData: Point

    /** The letter is drawn at the centre of the square. */
    ghost predicate Valid()
      reads this
    {
      labelPos == Add(shapePos, LabelOffset)
    }

    constructor (at: Point, text: char)
      ensures Valid()
      ensures letter == text && origin == at && shapePos == at && dragData == Origin
    {
      letter := text;
      origin := at;
      shapePos := at;
      labelPos := Add(at, LabelOffset);
      dragData := Origin;
    }

    /** `move_up`: both canvas items go `distance` pixels up. */
    method MoveUp(distance: int := DefaultStep)
      requires Valid()
      modifies this`shapePos, this`labelPos
      ensures Valid()
      ensures shapePos == Point(old(shapePos).x, old(shapePos).y - distance)
      ensures labelPos == Point(old(labelPos).x, old(labelPos).y - distance)
    {
      shapePos := Add(shapePos, Point(0, -distance));
      labelPos := Add(labelPos, Point(0, -distance));
    }

    /** `move_down`: both canvas items go `distance` pixels down. */
    method MoveDown(distance: int := DefaultStep)
      requires Valid()
      modifies this`shapePos, this`labelPos
      ensures Valid()
      ensures shapePos == Point(old(shapePos).x, old(shapePos).y + distance)
      ensures labelPos == Point(old(labelPos).x, old(labelPos).y + distance)
    {
      shapePos := Add(shapePos, Point(0, distance));
      labelPos := Add(labelPos, Point(0, distance));
    }

    /** `on_start`: the pointer becomes the anchor; nothing moves. */
    method OnStart(pointer: Point)
      modifies this`dragData
      ensures dragData == pointer
    {
      dragData := pointer;
    }

    /** `on_drag`: the block follows the pointer from the anchor, and the pointer becomes
        the next anchor. */
    method OnDrag(pointer: Point)
      requires Valid()
      modifies this`shapePos, this`labelPos, this`dragData
      ensures Valid()
      ensures shapePos == Add(old(shapePos), Sub(pointer, old(dragData)))
      ensures dragData == pointer
    {
      var delta := Sub(pointer, dragData);
      shapePos := Add(shapePos, delta);
      labelPos := Add(labelPos, delta);
      dragData := pointer;
    }

    /** `on_drop`: the anchor is reset to (0, 0); nothing moves. */
    method OnDrop()
      modifies this`dragData
      ensures dragData == Origin
    {
      dragData := Origin;
    }

    /** A press at `press` followed by a motion event at each of `motions`, as the event
        loop delivers them: the block ends up displaced by the last pointer minus the press,
        and the anchor is the last pointer. */
    method PressAndDrag(press: Point, motions: seq<Point>)
      requires Valid()
      modifies this`shapePos, this`labelPos, this`dragData
      ensures Valid()
      ensures motions == [] ==> shapePos == old(shapePos) && dragData == press
      ensures motions != [] ==>
        shapePos == Add(old(shapePos), Sub(motions[|motions| - 1], press)) &&
        dragData == motions[|motions| - 1]
    {
      OnStart(press);
      var i := 0;
      while i < |motions|
        invariant 0 <= i <= |motions| && Valid()
        invariant dragData == if i == 0 then press else motions[i - 1]
        invariant Add(shapePos, GestureDisplacement(dragData, motions[i..]))
               == Add(old(shapePos), GestureDisplacement(press, motions))
      {
        assert motions[i..][1..] == motions[i + 1..];
        OnDrag(motions[i]);
        i := i + 1;
      }
      if motions != [] {
        GestureTelescopes(press, motions);
      }
    }
  }

  /** Moving up and then down by the same distance puts a block back where it was. */
  method UpThenDown(b: DraggableBlock, distance: int)
    requires b.Valid()
    modifies b`shapePos, b`labelPos
    ensures b.Valid() && b.shapePos == old(b.shapePos) && b.labelPos == old(b.labelPos)
  {
    b.MoveUp(distance);
    b.MoveDown(distance);
  }

  /** A straight line on the canvas, dragged as one item. */
  class DraggableLine {
    /** The canvas tag, `self.tag`. */
    const tag: string
    var start: Point
    var end: Point
    /** The drag anchor, `self.drag_data`. */
    var dragData: Point

    constructor (x1: int, y1: int, x2: int, y2: int, t: string)
      ensures tag == t && start == Point(x1, y1) && end == Point(x2, y2) && dragData == Origin
    {
      tag := t;
      start := Point(x1, y1);
      end := Point(x2, y2);
      dragData := Origin;
    }

    /** `on_start`: the pointer becomes the anchor. */
    method OnStart(pointer: Point)
      modifies this`dragData
      ensures dragData == pointer
    {
      dragData := pointer;
    }

    /** `on_drag`: both ends follow the pointer from the anchor; the line keeps its
        direction and length. */
    method OnDrag(pointer: Point)
      modifies this`start, this`end, this`dragData
      ensures start == Add(old(start), Sub(pointer, old(dragData)))
      ensures end == Add(old(end), Sub(pointer, old(dragData)))
      ensures Sub(end, start) == old(Sub(end, start))
      ensures dragData == pointer
    {
      var delta := Sub(pointer, dragData);
      start := Add(start, delta);
      end := Add(end, delta);
      dragData := pointer;
    }

    /** `on_drop`: the anchor is reset to (0, 0). */
    method OnDrop()
      modifies this`dragData
      ensures dragData == Origin
    {
      dragData := Origin;
    }
  }
}
