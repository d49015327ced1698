/** One browser client: its local copy of the board (`strokes`), its pan offset, the
    pointer state of the current gesture, the current tool settings, and everything it
    has emitted to the server. */
module ClientState {
  import opened Protocol
  import opened View

  datatype Tool = Pencil | Eraser | TextTool | Hand

  /** The eraser draws ordinary lines in the board's background colour. */
  const EraserColor: string := "#1e1e2e"

  /** Segments chain when each is a line that starts exactly where the previous one
      ended. */
  ghost predicate Chained(segs: seq<Event>)
    decreases |segs|
  {
    segs == [] ||
    var init, last := segs[..|segs| - 1], segs[|segs| - 1];
    last.Line? && Chained(init) &&
    (init != [] ==> init[|init| - 1].Line? && init[|init| - 1].x1 == last.x0 && init[|init| - 1].y1 == last.y0)
  }

  /** The segment a drawing mousemove to screen (x, y) emits from the world anchor
      (fromX, fromY) under pan offset (offsetX, offsetY): it ends at the world point under
      the pointer; the eraser paints in the background colour, every other tool in the
      current colour. */
  function StrokeSegment(fromX: int, fromY: int, x: int, y: int, offsetX: int, offsetY: int,
                         tool: Tool, color: string, size: int): (seg: Event)
    ensures seg.Line? && seg.x0 == fromX && seg.y0 == fromY && seg.size == size
    ensures ToScreen(seg.x1, offsetX) == x && ToScreen(seg.y1, offsetY) == y
    ensures seg.color == (if tool == Eraser then EraserColor else color)
  {
    Line(fromX, fromY, ToWorld(x, offsetX), ToWorld(y, offsetY), if tool == Eraser then EraserColor else color, size)
  }

  /** A line that starts where a chain ends extends the chain. */
  lemma ChainedSnoc(segs: seq<Event>, seg: Event)
    requires Chained(segs) && seg.Line?
    requires segs != [] ==> segs[|segs| - 1].Line? && segs[|segs| - 1].x1 == seg.x0 && segs[|segs| - 1].y1 == seg.y0
    ensures Chained(segs + [seg])
  {
  }

  class Client {
    /** The local copy of the board, redrawn on every change. */
    var strokes: seq<Event>
    var offsetX: int
    var offsetY: int
    /** The pointer anchor: the screen pointer while panning, a world point while drawing. */
    var lastX: int
    var lastY: int
    var isDrawing: bool
    var isPanning: bool
    var currentTool: Tool
    var currentColor: string
    var currentSize: int
    var currentFont: string
    /** Every message this client has emitted, oldest first. */
    var outbox: seq<Msg>

    /** The anchor and the offset as the last mousedown left them. */
    ghost var panX: int
    ghost var panY: int
    ghost var panOffsetX: int
    ghost var panOffsetY: int
    /** The segments emitted by mousemove since that mousedown. */
    ghost var segments: seq<Event>

    /** While panning, the offset has moved by exactly as much as the pointer since the
        mousedown; the segments of the current drag chain, and the last one ends at the
        anchor. */
    ghost predicate Valid()
      reads this`isPanning, this`offsetX, this`offsetY, this`lastX, this`lastY
      reads this`panX, this`panY, this`panOffsetX, this`panOffsetY, this`segments
    {
      (isPanning ==> offsetX - panOffsetX == lastX - panX && offsetY - panOffsetY == lastY - panY) &&
      Chained(segments) &&
      (segments != [] ==> segments[|segments| - 1].x1 == lastX && segments[|segments| - 1].y1 == lastY)
    }

    /** The client's state when the page loads. */
    constructor ()
      ensures Valid()
      ensures strokes == [] && outbox == []
      ensures offsetX == 0 && offsetY == 0 && lastX == 0 && lastY == 0
      ensures !isDrawing && !isPanning
      ensures currentTool == Pencil && currentColor == "#ffffff" && currentSize == 2 && currentFont == "Inter"
    {
      strokes, outbox := [], [];
      offsetX, offsetY, lastX, lastY := 0, 0, 0, 0;
      isDrawing, isPanning := false, false;
      currentTool, currentColor, currentSize, currentFont := Pencil, "#ffffff", 2, "Inter";
      panX, panY, panOffsetX, panOffsetY, segments := 0, 0, 0, 0, [];
    }

    /** Socket `draw`: another client's event goes at the end of the local copy. */
    method OnDraw(e: Event)
      modifies this`strokes
      ensures strokes == old(strokes) + [e]
    {
      strokes := strokes + [e];
    }

    /** Socket `history`: the snapshot replaces the local copy wholesale. */
    method OnHistory(h: seq<Event>)
      modifies this`strokes
      ensures strokes == h
    {
      strokes := h;
    }

    /** Socket `clear`: the local copy is emptied. */
    method OnClear()
      modifies this`strokes
      ensures strokes == []
    {
      strokes := [];
    }

    /** Hands a received message to its socket handler. */
    method Receive(m: Msg)
      modifies this`strokes
      ensures strokes == Apply(old(strokes), m)
    {
      match m
      case HistoryMsg(h) => OnHistory(h);
      case DrawMsg(e) => OnDraw(e);
      case ClearMsg => OnClear();
    }

    /** Paints a line; with `emit` it is also added to the local copy and sent. */
    method DrawLine(x0: int, y0: int, x1: int, y1: int, color: string, size: int, emit: bool)
      modifies this`strokes, this`outbox
      ensures var e := Line(x0, y0, x1, y1, color, size);
              if emit then strokes == old(strokes) + [e] && outbox == old(outbox) + [DrawMsg(e)]
              else strokes == old(strokes) && outbox == old(outbox)
    {
      if !emit {
        return;
      }
      var e := Line(x0, y0, x1, y1, color, size);
      strokes := strokes + [e];
      outbox := outbox + [DrawMsg(e)];
    }

    /** Paints text; with `emit` it is also added to the local copy and sent. */
    method DrawText(text: string, x: int, y: int, color: string, size: int, font: string, emit: bool)
      modifies this`strokes, this`outbox
      ensures var e := Text(text, x, y, color, size, font);
              if emit then strokes == old(strokes) + [e] && outbox == old(outbox) + [DrawMsg(e)]
              else strokes == old(strokes) && outbox == old(outbox)
    {
      if !emit {
        return;
      }
      var e := Text(text, x, y, color, size, font);
      strokes := strokes + [e];
      outbox := outbox + [DrawMsg(e)];
    }

    /** Mousedown at screen (x, y): the hand starts a pan anchored at the pointer, the
        text tool opens a text box there, any other tool starts a stroke anchored at the
        world point under the pointer. */
    method MouseDown(x: int, y: int) returns (box: TextInput?)
      requires Valid()
      modifies this`isPanning, this`isDrawing, this`lastX, this`lastY
      modifies this`panX, this`panY, this`panOffsetX, this`panOffsetY, this`segments
      ensures Valid()
      ensures currentTool == Hand ==>
                box == null && isPanning && isDrawing == old(isDrawing) && lastX == x && lastY == y
      ensures currentTool == TextTool ==>
                box != null && fresh(box) && box.Valid() && box.owner == this && box.x == x && box.y == y &&
                box.value == "" && !box.submitted &&
                isPanning == old(isPanning) && isDrawing == old(isDrawing) && lastX == old(lastX) && lastY == old(lastY)
      ensures currentTool == Pencil || currentTool == Eraser ==>
                box == null && isDrawing && isPanning == old(isPanning) &&
                lastX == ToWorld(x, offsetX) && lastY == ToWorld(y, offsetY)
    {
      if currentTool == Hand {
        isPanning := true;
        lastX, lastY := x, y;
        panX, panY, panOffsetX, panOffsetY, segments := x, y, offsetX, offsetY, [];
        return null;
      }
      if currentTool == TextTool {
        box := new TextInput(this, x, y);
        return;
      }
      isDrawing := true;
      lastX, lastY := ToWorld(x, offsetX), ToWorld(y, offsetY);
      panX, panY, panOffsetX, panOffsetY, segments := lastX, lastY, offsetX, offsetY, [];
      box := null;
    }

    /** Mousemove to screen (x, y): while panning the offset follows the pointer; while
        drawing a segment from the anchor to the world point under the pointer is drawn,
        stored and sent, and becomes the new anchor; otherwise nothing happens. */
    method MouseMove(x: int, y: int)
      requires Valid()
      modifies this`offsetX, this`offsetY, this`lastX, this`lastY, this`strokes, this`outbox, this`segments
      ensures Valid()
      ensures isPanning ==>
                offsetX == old(offsetX) + (x - old(lastX)) && offsetY == old(offsetY) + (y - old(lastY)) &&
                offsetX == panOffsetX + (x - panX) && offsetY == panOffsetY + (y - panY) &&
                lastX == x && lastY == y && strokes == old(strokes) && outbox == old(outbox)
      ensures !isPanning ==> offsetX == old(offsetX) && offsetY == old(offsetY)
      ensures !isPanning && (!isDrawing || currentTool == TextTool) ==>
                lastX == old(lastX) && lastY == old(lastY) && strokes == old(strokes) && outbox == old(outbox) &&
                segments == old(segments)
      ensures !isPanning && isDrawing && currentTool != TextTool ==>
                var seg := StrokeSegment(old(lastX), old(lastY), x, y, offsetX, offsetY, currentTool, currentColor, currentSize);
                strokes == old(strokes) + [seg] && outbox == old(outbox) + [DrawMsg(seg)] &&
                segments == old(segments) + [seg] && lastX == seg.x1 && lastY == seg.y1
    {
      if isPanning {
        PanTo(x, y);
        return;
      }
      if !isDrawing {
        return;
      }
      if currentTool == TextTool {
        return;
      }
      StrokeTo(x, y);
    }

    /** The panning branch of mousemove. */
    method PanTo(x: int, y: int)
      requires Valid() && isPanning
      modifies this`offsetX, this`offsetY, this`lastX, this`lastY, this`segments
      ensures Valid()
      ensures offsetX == old(offsetX) + (x - old(lastX)) && offsetY == old(offsetY) + (y - old(lastY))
      ensures offsetX == panOffsetX + (x - panX) && offsetY == panOffsetY + (y - panY)
      ensures lastX == x && lastY == y
    {
      var dx, dy := x - lastX, y - lastY;
      offsetX, offsetY := offsetX + dx, offsetY + dy;
      lastX, lastY := x, y;
      segments := [];
    }

    /** The drawing branch of mousemove. */
    method StrokeTo(x: int, y: int)
      requires Valid() && !isPanning
      modifies this`lastX, this`lastY, this`strokes, this`outbox, this`segments
      ensures Valid()
      ensures var seg := StrokeSegment(old(lastX), old(lastY), x, y, offsetX, offsetY, currentTool, currentColor, currentSize);
              strokes == old(strokes) + [seg] && outbox == old(outbox) + [DrawMsg(seg)] &&
              segments == old(segments) + [seg] && lastX == seg.x1 && lastY == seg.y1
    {
      var seg := StrokeSegment(lastX, lastY, x, y, offsetX, offsetY, currentTool, currentColor, currentSize);
      DrawLine(seg.x0, seg.y0, seg.x1, seg.y1, seg.color, seg.size, true);
      ChainedSnoc(segments, seg);
      lastX, lastY := seg.x1, seg.y1;
      segments := segments + [seg];
    }

    /** Mouseup or mouseout: the gesture ends, whatever it was. */
    method EndGesture()
      requires Valid()
      modifies this`isDrawing, this`isPanning
      ensures Valid()
      ensures !isDrawing && !isPanning
    {
      isDrawing, isPanning := false, false;
    }

    /** The clear button: the local copy is emptied at once and a clear is sent. */
    method ClearBoard()
      requires Valid()
      modifies this`strokes, this`outbox
      ensures Valid()
      ensures strokes == [] && outbox == old(outbox) + [ClearMsg]
    {
      strokes := [];
      outbox := outbox + [ClearMsg];
    }
  }

  /** A text box opened by the text tool at screen (x, y). It leaves the page exactly
      when `submitted` becomes true. */
  class TextInput {
    const owner: Client
    const x: int
    const y: int
    /** What the user has typed. */
    var value: string
    var submitted: bool
    /** How many text events this box has emitted. */
    ghost var emitted: nat

    /** A box emits at most once, and never before it is submitted. */
    ghost predicate Valid()
      reads this
    {
      emitted <= 1 && (!submitted ==> emitted == 0)
    }

    constructor (owner: Client, x: int, y: int)
      ensures Valid()
      ensures this.owner == owner && this.x == x && this.y == y
      ensures value == "" && !submitted && emitted == 0
    {
      this.owner, this.x, this.y := owner, x, y;
      value, submitted, emitted := "", false, 0;
    }

    /** The user edits the box. */
    method Edit(v: string)
      modifies this`value
      ensures value == v
    {
      value := v;
    }

    /** Enter, or the blur that follows leaving the box: the first call submits the box
        and, if it is not empty, draws, stores and sends its text at the world position
        under the box's baseline, using the owner's current colour, size and font. */
    method Finalize()
      requires Valid()
      modifies this`submitted, this`emitted, owner`strokes, owner`outbox
      ensures Valid() && submitted
      ensures var fires := !old(submitted) && value != "";
              var p := TextAnchor(x, y, owner.currentSize, owner.offsetX, owner.offsetY);
              var e := Text(value, p.0, p.1, owner.currentColor, owner.currentSize, owner.currentFont);
              if fires then
                owner.strokes == old(owner.strokes) + [e] && owner.outbox == old(owner.outbox) + [DrawMsg(e)] &&
                emitted == old(emitted) + 1
              else
                owner.strokes == old(owner.strokes) && owner.outbox == old(owner.outbox) && emitted == old(emitted)
    {
      if submitted {
        return;
      }
      submitted := true;
      if value != "" {
        var p := TextAnchor(x, y, owner.currentSize, owner.offsetX, owner.offsetY);
        owner.DrawText(value, p.0, p.1, owner.currentColor, owner.currentSize, owner.currentFont, true);
        emitted := emitted + 1;
      }
    }

    /** Escape: the box is closed without sending anything, now or later. */
    method Escape()
      requires Valid()
      modifies this`submitted
      ensures Valid() && submitted
    {
      submitted := true;
    }
  }
}
