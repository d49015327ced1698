/** The events and socket messages exchanged between the whiteboard server and its
    clients, and what a received message does to a client's local copy of the board. */
module Protocol {

  /** One drawing event, in world coordinates. The server stores and relays any payload
      unchecked; a payload whose `type` is neither "line" nor "text" is `Other`, and a
      `draw` sent without data is `Null` (it arrives at the clients as JSON null).
      Coordinates and sizes are integers (the browser's numbers are doubles). */
  datatype Event =
    | Line(x0: int, y0: int, x1: int, y1: int, color: string, size: int)
    | Text(text: string, x: int, y: int, color: string, size: int, font: string)
    | Other(kind: string)
    | Null

  /** A socket message: `history` goes from server to client, `draw` and `clear`
      go both ways. */
  datatype Msg =
    | HistoryMsg(events: seq<Event>)
    | DrawMsg(event: Event)
    | ClearMsg

  /** What a client's socket handlers do to its `strokes` on receiving `m`: a draw is
      appended, a history snapshot replaces everything, a clear empties it. */
  function Apply(strokes: seq<Event>, m: Msg): (r: seq<Event>)
    ensures m.DrawMsg? ==> |r| == |strokes| + 1 && r[..|strokes|] == strokes && r[|strokes|] == m.event
    ensures m.HistoryMsg? ==> r == m.events
    ensures m.ClearMsg? ==> r == []
  {
    match m
    case HistoryMsg(h) => h
    case DrawMsg(e) => strokes + [e]
    case ClearMsg => []
  }

  /** A client's `strokes` after it has handled every message of `pending`, in order. */
  function Replay(strokes: seq<Event>, pending: seq<Msg>): (r: seq<Event>)
    decreases |pending|
  {
    if pending == [] then strokes else Replay(Apply(strokes, pending[0]), pending[1..])
  }

  /** Handling a queue in two parts is handling it in one go. */
  lemma {:induction false} ReplayConcat(strokes: seq<Event>, a: seq<Msg>, b: seq<Msg>)
    ensures Replay(strokes, a + b) == Replay(Replay(strokes, a), b)
    decreases |a|
  {
    if a == [] {
      assert a + b == b;
    } else {
      assert (a + b)[0] == a[0];
      assert (a + b)[1..] == a[1..] + b;
      ReplayConcat(Apply(strokes, a[0]), a[1..], b);
    }
  }

  /** A draw queued behind `pending` ends up at the very end of the client's copy. */
  lemma ReplayDraw(strokes: seq<Event>, pending: seq<Msg>, e: Event)
    ensures Replay(strokes, pending + [DrawMsg(e)]) == Replay(strokes, pending) + [e]
  {
    ReplayConcat(strokes, pending, [DrawMsg(e)]);
  }

  /** A clear queued behind `pending` leaves the client's copy empty, whatever came before. */
  lemma ReplayClear(strokes: seq<Event>, pending: seq<Msg>)
    ensures Replay(strokes, pending + [ClearMsg]) == []
  {
    ReplayConcat(strokes, pending, [ClearMsg]);
  }

  /** Once a history snapshot is handled, nothing the client held or received before it
      matters any more. */
  lemma ReplayFromSnapshot(strokes: seq<Event>, before: seq<Msg>, h: seq<Event>, after: seq<Msg>)
    ensures Replay(strokes, before + [HistoryMsg(h)] + after) == Replay(h, after)
  {
    ReplayConcat(strokes, before + [HistoryMsg(h)], after);
    ReplayConcat(strokes, before, [HistoryMsg(h)]);
  }
}
