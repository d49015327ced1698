/** How the server's queues keep a client in step with the shared history. A client
    is in step when handling everything still queued for it would turn its copy of the
    board into the server's history. The methods below show this for a connect, a draw
    or disconnect of another session, a clear from anyone, a delivery to this or another
    client, and a gesture or text box of this client that sends nothing. A draw or clear
    that the client itself sends breaks it for a while: the client applies those to its
    own copy before the server has ordered them, and the server's clear restores it. */
module Sync {
  import opened Protocol
  import opened Server
  import opened ClientState

  /** Client `c` on session `s` is in step with board `b`. */
  ghost predicate Mirrors(b: Board, c: Client, s: SessionId)
    reads b, c
  {
    s in b.outbox && Replay(c.strokes, b.outbox[s]) == b.history
  }

  /** A client is in step as soon as its socket connects, whatever it held before. */
  method ConnectSyncs(b: Board, c: Client, s: SessionId)
    requires b.Valid() && s !in b.sessions
    modifies b`sessions, b`outbox
    ensures b.Valid() && Mirrors(b, c, s)
  {
    b.Connect(s);
    assert b.outbox[s][1..] == [];
  }

  method ConnectOtherKeeps(b: Board, c: Client, s: SessionId, t: SessionId)
    requires b.Valid() && Mirrors(b, c, s) && t !in b.sessions
    modifies b`sessions, b`outbox
    ensures b.Valid() && Mirrors(b, c, s)
  {
    b.Connect(t);
  }

  method DrawOtherKeeps(b: Board, c: Client, s: SessionId, t: SessionId, e: Event)
    requires b.Valid() && Mirrors(b, c, s) && t in b.sessions && t != s
    modifies b`history, b`outbox, b`log
    ensures b.Valid() && Mirrors(b, c, s)
  {
    ReplayDraw(c.strokes, b.outbox[s], e);
    b.Draw(t, e);
  }

  /** A clear from anybody, this client included, puts every connected client in step,
      whatever its copy held: in particular the sender, which emptied its own copy before
      the server handled the clear. */
  method ClearSyncs(b: Board, c: Client, s: SessionId, t: SessionId)
    requires b.Valid() && s in b.sessions && t in b.sessions
    modifies b`history, b`outbox, b`log
    ensures b.Valid() && Mirrors(b, c, s)
  {
    ReplayClear(c.strokes, b.outbox[s]);
    b.Clear(t);
  }

  method DisconnectOtherKeeps(b: Board, c: Client, s: SessionId, t: SessionId)
    requires b.Valid() && Mirrors(b, c, s) && t in b.sessions && t != s
    modifies b`sessions, b`outbox
    ensures b.Valid() && Mirrors(b, c, s)
  {
    b.Disconnect(t);
  }

  /** The oldest queued message reaches the client and its socket handler runs. */
  method DeliverKeeps(b: Board, c: Client, s: SessionId)
    requires b.Valid() && Mirrors(b, c, s) && b.outbox[s] != []
    modifies b`outbox, c`strokes
    ensures b.Valid() && Mirrors(b, c, s)
  {
    var m := b.Take(s);
    c.Receive(m);
  }

  /** A message queued for another session reaches that session's client: this one
      stays in step. */
  method OtherDeliveryKeeps(b: Board, c: Client, d: Client, s: SessionId, t: SessionId)
    requires b.Valid() && Mirrors(b, c, s) && t in b.sessions && t != s && b.outbox[t] != [] && d != c
    modifies b`outbox, d`strokes
    ensures b.Valid() && Mirrors(b, c, s)
  {
    var m := b.Take(t);
    d.Receive(m);
  }

  /** A pointer event on the client's canvas. */
  datatype Gesture = Down(x: int, y: int) | Move(x: int, y: int) | Release

  /** A pointer event that sends nothing leaves the client in step. */
  method GestureKeeps(b: Board, c: Client, s: SessionId, g: Gesture)
    requires b.Valid() && c.Valid() && Mirrors(b, c, s)
    modifies c`isPanning, c`isDrawing, c`lastX, c`lastY, c`offsetX, c`offsetY, c`strokes, c`outbox
    modifies c`panX, c`panY, c`panOffsetX, c`panOffsetY, c`segments
    ensures c.Valid()
    ensures c.outbox == old(c.outbox) ==> Mirrors(b, c, s)
  {
    match g
    case Down(x, y) =>
      var box := c.MouseDown(x, y);
    case Move(x, y) =>
      c.MouseMove(x, y);
    case Release =>
      c.EndGesture();
  }

  /** Closing a text box without sending anything leaves its owner in step. */
  method FinalizeKeeps(b: Board, box: TextInput, s: SessionId)
    requires b.Valid() && box.Valid() && box.owner.Valid() && Mirrors(b, box.owner, s)
    modifies box`submitted, box`emitted, box.owner`strokes, box.owner`outbox
    ensures box.Valid() && box.owner.Valid()
    ensures box.owner.outbox == old(box.owner.outbox) ==> Mirrors(b, box.owner, s)
  {
    box.Finalize();
  }
}
