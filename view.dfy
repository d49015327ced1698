/** The client's view of the board: the pan offset that maps world coordinates to the
    screen, and `redraw` as the ordered list of drawing commands it issues. */
module View {
  import opened Protocol

  /** Where a world coordinate appears on screen under pan offset `offset`. */
  function ToScreen(world: int, offset: int): (screen: int)
    ensures ToWorld(screen, offset) == world
  {
    world + offset
  }

  /** The world coordinate under screen coordinate `screen`: the inverse of `ToScreen`. */
  function ToWorld(screen: int, offset: int): (world: int)
  {
    screen - offset
  }

  /** The world point stored for a screen point is shown at that very screen point. */
  lemma ScreenWorldRoundTrip(screen: int, offset: int)
    ensures ToScreen(ToWorld(screen, offset), offset) == screen
  {
  }

  /** Font height in pixels for text of size `size`. */
  function FontPx(size: int): (px: int)
  {
    size * 10
  }

  /** The world position stored for text typed into a box whose top-left corner is at
      screen (x, y): its baseline one font height below the box's top. */
  function TextAnchor(x: int, y: int, size: int, offsetX: int, offsetY: int): (p: (int, int))
    ensures ToScreen(p.0, offsetX) == x && ToScreen(p.1, offsetY) == y + FontPx(size)
  {
    (ToWorld(x, offsetX), ToWorld(y + FontPx(size), offsetY))
  }

  /** One canvas drawing call, in screen coordinates. */
  datatype Cmd =
    | LineCmd(x0: int, y0: int, x1: int, y1: int, color: string, width: int)
    | TextCmd(text: string, x: int, y: int, color: string, px: int, font: string)

  predicate Drawable(e: Event)
  {
    e.Line? || e.Text?
  }

  /** The call that paints a line or text event under pan offset (offsetX, offsetY). */
  function Command(e: Event, offsetX: int, offsetY: int): (c: Cmd)
    requires Drawable(e)
    ensures c.LineCmd? <==> e.Line?
    ensures e.Line? ==>
              ToWorld(c.x0, offsetX) == e.x0 && ToWorld(c.y0, offsetY) == e.y0 &&
              ToWorld(c.x1, offsetX) == e.x1 && ToWorld(c.y1, offsetY) == e.y1 &&
              c.color == e.color && c.width == e.size
    ensures e.Text? ==>
              ToWorld(c.x, offsetX) == e.x && ToWorld(c.y, offsetY) == e.y &&
              c.text == e.text && c.color == e.color && c.px == FontPx(e.size) && c.font == e.font
  {
    match e
    case Line(x0, y0, x1, y1, color, size) =>
      LineCmd(ToScreen(x0, offsetX), ToScreen(y0, offsetY), ToScreen(x1, offsetX), ToScreen(y1, offsetY), color, size)
    case Text(text, x, y, color, size, font) =>
      TextCmd(text, ToScreen(x, offsetX), ToScreen(y, offsetY), color, FontPx(size), font)
  }

  /** The calls `redraw` makes for `strokes`, walking them in stored order. Reading the
      `type` of a null entry throws, which ends the walk: nothing after it is painted. */
  function Render(strokes: seq<Event>, offsetX: int, offsetY: int): (r: seq<Cmd>)
    ensures |r| == |Drawables(strokes)| <= |strokes|
    decreases |strokes|
  {
    if strokes == [] || strokes[0].Null? then []
    else
      (if Drawable(strokes[0]) then [Command(strokes[0], offsetX, offsetY)] else [])
      + Render(strokes[1..], offsetX, offsetY)
  }

  /** The line and text events of `strokes` before its first null entry, in stored order. */
  function Drawables(strokes: seq<Event>): (d: seq<Event>)
    ensures |d| <= |strokes|
    ensures forall i :: 0 <= i < |d| ==> Drawable(d[i])
    decreases |strokes|
  {
    if strokes == [] || strokes[0].Null? then []
    else (if Drawable(strokes[0]) then [strokes[0]] else []) + Drawables(strokes[1..])
  }

  /** Up to the first null entry, `redraw` paints every line and text event exactly once,
      in stored order, and skips everything else. */
  lemma {:induction false} RenderInOrder(strokes: seq<Event>, offsetX: int, offsetY: int)
    ensures |Render(strokes, offsetX, offsetY)| == |Drawables(strokes)|
    ensures forall k :: 0 <= k < |Drawables(strokes)| ==>
              Render(strokes, offsetX, offsetY)[k] == Command(Drawables(strokes)[k], offsetX, offsetY)
    decreases |strokes|
  {
    if strokes != [] {
      RenderInOrder(strokes[1..], offsetX, offsetY);
    }
  }

  /** `strokes` holds no null entry. */
  predicate NullFree(strokes: seq<Event>)
  {
    forall i :: 0 <= i < |strokes| ==> !strokes[i].Null?
  }

  /** Later events are painted after earlier ones: rendering a concatenation is
      rendering each part in turn, unless the first part holds a null entry, after
      which nothing is painted. */
  lemma {:induction false} RenderConcat(a: seq<Event>, b: seq<Event>, offsetX: int, offsetY: int)
    ensures Render(a + b, offsetX, offsetY) ==
              Render(a, offsetX, offsetY) + (if NullFree(a) then Render(b, offsetX, offsetY) else [])
    decreases |a|
  {
    if a == [] {
      assert a + b == b;
    } else if a[0].Null? {
      assert (a + b)[0] == a[0];
    } else {
      assert (a + b)[0] == a[0];
      assert (a + b)[1..] == a[1..] + b;
      RenderConcat(a[1..], b, offsetX, offsetY);
      assert NullFree(a) <==> NullFree(a[1..]) by {
        if NullFree(a[1..]) {
          forall i | 0 <= i < |a| ensures !a[i].Null? {
            if i > 0 { assert a[i] == a[1..][i - 1]; }
          }
        }
        if NullFree(a) {
          forall i | 0 <= i < |a[1..]| ensures !a[1..][i].Null? {
            assert a[1..][i] == a[i + 1];
          }
        }
      }
    }
  }

  /** A null entry ends the painting: whatever is stored after it never reaches the
      screen until a clear. The server keeps the null in its history, so a later
      snapshot still holds it unless a clear has reached the server since. */
  lemma RenderStopsAtNull(a: seq<Event>, b: seq<Event>, offsetX: int, offsetY: int)
    ensures Render(a + [Null] + b, offsetX, offsetY) == Render(a, offsetX, offsetY)
  {
    RenderConcat(a, [Null] + b, offsetX, offsetY);
    assert a + [Null] + b == a + ([Null] + b);
  }

  /** `c` moved by (dx, dy) on screen. */
  function Shift(c: Cmd, dx: int, dy: int): (moved: Cmd)
  {
    match c
    case LineCmd(x0, y0, x1, y1, color, width) => LineCmd(x0 + dx, y0 + dy, x1 + dx, y1 + dy, color, width)
    case TextCmd(text, x, y, color, px, font) => TextCmd(text, x + dx, y + dy, color, px, font)
  }

  /** Panning by (dx, dy) moves the whole picture rigidly by (dx, dy) and changes
      nothing else about it. */
  lemma RenderPan(strokes: seq<Event>, offsetX: int, offsetY: int, dx: int, dy: int)
    ensures |Render(strokes, offsetX + dx, offsetY + dy)| == |Render(strokes, offsetX, offsetY)|
    ensures forall k :: 0 <= k < |Render(strokes, offsetX, offsetY)| ==>
              Render(strokes, offsetX + dx, offsetY + dy)[k] == Shift(Render(strokes, offsetX, offsetY)[k], dx, dy)
  {
    RenderInOrder(strokes, offsetX, offsetY);
    RenderInOrder(strokes, offsetX + dx, offsetY + dy);
  }
}
