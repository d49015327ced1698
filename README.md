# Shared whiteboard: synchronization protocol and client state

This project models the synchronization core of a real-time shared whiteboard in Dafny.

The server (`server.js`) keeps one drawing history for the single shared board. When a
socket connects, the server sends that socket alone a `history` snapshot. When a socket
sends a `draw`, the server appends the event to the history and forwards it to every
other socket. When a socket sends a `clear`, the server empties the history and sends
`clear` to every socket, the sender included.

Each browser client (`client.js`) keeps:

- `strokes`, its local copy of the board;
- a pan offset that maps world coordinates to the screen;
- the pointer state of the gesture in progress;
- the current tool settings.

The client paints the board by walking `strokes` in stored order. Its own input is
converted to world coordinates, pushed onto `strokes` at once, and only then sent.

The model is in five modules:

- `Protocol` (protocol.dfy) holds the `Event` and `Msg` datatypes. It also defines
  `Apply` and `Replay`: what a client's socket handlers do to `strokes` for one message
  and for a queue of messages.
- `Server` (server.dfy) holds the class `Board`. Its fields are the history, the set of
  connected sessions and, for each session, a FIFO queue of messages sent to it and not
  yet delivered. These queues stand in for the socket transport. `Board.Take` is that
  transport handing the oldest queued message to its client. A ghost log of every
  handled request ties the history to a reference definition, `SinceLastClear`.
- `View` (view.dfy) holds the pure parts of `client.js`. These are the screen/world
  conversion, the world position of typed text, and `redraw` as `Render`: a function
  from `strokes` and the offset to the ordered list of drawing calls.
- `ClientState` (client.dfy) holds the class `Client`, with the module-level state of
  `client.js` as fields and its handlers as methods. It also holds the class
  `TextInput`, one text box with its `submitted` flag. Ghost fields record the pan
  anchor and the segments drawn in the current drag. They let `Valid()` state two
  facts: the pan offset moves exactly with the pointer, and the segments of a drag
  chain together.
- `Sync` (sync.dfy) states the system invariant `Mirrors(b, c, s)`: if client `c` on
  session `s` handled every message still queued for it, its `strokes` would equal the
  server's history. Each method there runs one whole handler and proves the invariant
  holds afterwards. The covered steps are:
  - a connect, a draw from another session and a disconnect of another session;
  - a clear from anyone, which restores the invariant whatever the client held;
  - a delivery to this client or to another one;
  - any gesture or text box of this client that sends nothing.

Coordinates and sizes are modelled as `int`. The connection and disconnection
signals, message delivery and user input are the inputs of the methods.

Two points where the code is looser than a stricter design would be; the model follows
the code:

- The server validates nothing. Any payload is stored and relayed, so there is no
  invalid-event path. A payload whose type is neither line nor text is `Event.Other`,
  and `redraw` skips it. A `draw` sent without data is stored as well and reaches the
  clients as null (`Event.Null`). Reading its `type` in `redraw` throws, so nothing
  stored after it is painted until a clear; `Render` stops there. A later `history`
  snapshot still holds the null, unless a clear reached the server after it was stored,
  because only the server's clear handler empties the history.
- The disconnect handler only logs. The socket library is what drops the socket from
  the broadcast set, and `Board.Disconnect` models that effect.

## Model

| member | source | states |
|---|---|---|
| Protocol.Apply | client.js:59-73 | A received draw keeps the whole copy and adds its event last; a history snapshot becomes the copy; a clear empties it |
| Protocol.ReplayConcat | client.js:59-73 | Handling a message queue in two parts gives the same `strokes` as handling it in one go |
| Protocol.ReplayDraw | client.js:59-63 | A `draw` queued behind any messages ends up as the last element of the client's copy, after everything the earlier messages produce |
| Protocol.ReplayClear | client.js:70-73 | A `clear` queued behind any messages leaves the client's copy empty, whatever came before |
| Protocol.ReplayFromSnapshot | client.js:65-68 | Once a `history` snapshot is handled, neither the client's previous copy nor any message before the snapshot affects the result |
| Server.HistoryGrowsByDraws | server.js:24-26 | Without a clear, the history only grows: later draws are appended in arrival order, and no earlier entry is reordered or removed |
| Server.HistoryAfterClear | server.js:33-34 | After a clear, the history is exactly the draws received since, in arrival order |
| Server.Board.constructor | server.js:15 | The server starts with an empty history and no connected sessions |
| Server.Board.Connect | server.js:17-21 | Only the new session is sent one `history` message holding the current history; no other session's queue changes, nor the history |
| Server.Board.Draw | server.js:24-30 | The event is appended to the history and queued at the end for every other session; the sender's queue is unchanged; the history keeps equal to the draws since the last clear |
| Server.Board.Clear | server.js:33-36 | The history becomes empty and `clear` is queued at the end for every session, the sender included |
| Server.Board.Disconnect | server.js:38-40 | The session leaves the broadcast set; the history and every other session's queue are unchanged |
| View.ToScreen | client.js:82 | The view transform is undone by the screen-to-world conversion: world to screen and back gives the same world point, for every offset |
| View.ScreenWorldRoundTrip | client.js:156-157 | The world point `ToWorld` stores for a screen point is shown by the view transform at that very screen point |
| View.TextAnchor | client.js:287-288 | Typed text is stored at the world point that appears on screen at the box's left edge, one font height (`size * 10`) below its top |
| View.Command | client.js:82-90 | A line event becomes a line call and a text event a text call; the call's screen coordinates map back to the event's world coordinates under the offset; colour, width, text and font are kept, and the text's pixel height is `size * 10` |
| View.Render | client.js:85-91 | `redraw` makes exactly one call per line or text event before the first null entry, never more calls than there are stored events |
| View.RenderInOrder | client.js:85-91 | Up to the first null entry, `redraw` issues one call per line or text event, in stored order: a line call for a line, a text call for text; every other event is skipped |
| View.RenderConcat | client.js:85-91 | Events later in `strokes` are painted after earlier ones: rendering a concatenation renders each part in turn, unless the first part holds a null entry |
| View.RenderStopsAtNull | client.js:85-86 | A null entry ends the painting: nothing stored after it reaches the screen |
| View.RenderPan | client.js:76-92 | Changing the offset by (dx, dy) moves every drawing call by exactly (dx, dy) and changes nothing else about the picture |
| ClientState.StrokeSegment | client.js:175-194 | A drag segment starts at the given anchor and ends at the world point under the pointer; the eraser uses `#1e1e2e`, every other tool the current colour |
| ClientState.Client.constructor | client.js:7-19 | Initial client state: empty board copy, zero offset and anchor, no gesture, pencil, white, size 2, font Inter, nothing sent |
| ClientState.Client.OnDraw | client.js:59-63 | A received draw is appended at the end of `strokes` |
| ClientState.Client.OnHistory | client.js:65-68 | A received snapshot replaces `strokes` wholesale |
| ClientState.Client.OnClear | client.js:70-73 | A received clear empties `strokes` |
| ClientState.Client.Receive | client.js:59-73 | Handling any received message changes `strokes` exactly as `Apply` says |
| ClientState.Client.DrawLine | client.js:95-116 | With `emit`, exactly one line event is pushed onto `strokes` and the same event is sent; without, neither changes |
| ClientState.Client.DrawText | client.js:118-137 | With `emit`, exactly one text event is pushed onto `strokes` and the same event is sent; without, neither changes |
| ClientState.Client.MouseDown | client.js:140-158 | The hand starts a pan at the screen pointer; the text tool opens a fresh, empty, unsubmitted box at the pointer; any other tool starts drawing with the anchor at the world point under the pointer; nothing is stored or sent |
| ClientState.Client.MouseMove | client.js:160-197 | While panning, the offset changes by exactly the pointer's movement since the mousedown, and nothing is stored or sent. While drawing with a non-text tool, one chained segment is stored and sent. Otherwise nothing changes |
| ClientState.Client.PanTo | client.js:161-170 | The offset changes by the pointer delta and the pointer becomes the anchor |
| ClientState.Client.StrokeTo | client.js:175-196 | One segment from the anchor to the pointer's world point is stored and sent; its end becomes the new anchor, so successive segments chain |
| ClientState.Client.EndGesture | client.js:199-209 | Mouseup and mouseout both clear `isDrawing` and `isPanning` |
| ClientState.Client.ClearBoard | client.js:247-251 | The local copy is emptied and one `clear` is sent |
| ClientState.TextInput.constructor | client.js:254-279 | A new text box at the pointer is empty and not yet submitted |
| ClientState.TextInput.Finalize | client.js:281-304 | Only the first call can emit. It emits one text event at `TextAnchor` with the owner's current colour, size and font, and only if the box is not empty. A box emits at most one event in all |
| ClientState.TextInput.Escape | client.js:310-313 | The box is marked submitted, so no later finalize emits anything |
| Sync.ConnectSyncs | server.js:17-21 | A newly connected client is in step with the history, whatever its copy held before |
| Sync.ConnectOtherKeeps | server.js:17-21 | Another socket connecting keeps a client in step |
| Sync.DrawOtherKeeps | server.js:24-30 | A draw from another session keeps a client in step |
| Sync.ClearSyncs | server.js:33-36 | A clear from any session, the client's own included, puts a connected client in step whatever its copy held, so it also restores the sender, which emptied its copy first (client.js:248) |
| Sync.DisconnectOtherKeeps | server.js:38-40 | Another socket disconnecting keeps a client in step |
| Sync.DeliverKeeps | client.js:59-73 | Delivering the oldest queued message and running its handler keeps a client in step |
| Sync.OtherDeliveryKeeps | client.js:59-73 | Delivering a message to another session's client keeps this client in step |
| Sync.GestureKeeps | client.js:140-209 | A mousedown, mousemove, mouseup or mouseout that sends nothing keeps a client in step |
| Sync.FinalizeKeeps | client.js:281-304 | Closing a text box without sending anything keeps its owner in step |

## Left out

- The socket transport is replaced by the per-session FIFO queues and `Board.Take`. Also out are static file serving, `server.listen` and console logging (server.js:1-11, 43-46; client.js:55-57). They are I/O plumbing.
- Canvas painting (`ctx` calls, line caps, composite mode, `clearRect`) is left out. `Render` gives only the ordered list of drawing calls.
- The welcome modal, `resize`, the tool/colour/size/font buttons and cursor styles are left out (client.js:36-52, 212-244). So are the styling of the text box and its font-name quote stripping (client.js:255-275). The tool settings are plain fields that a caller may assign. `TextInput.Edit` stands in for the user typing.
- Timing is left out: the modal timeout, focusing the box, and the delayed finalize on blur (client.js:40, 277, 316-318). `Finalize` and `Escape` may be called any number of times, in any order.
- `TextInput.Escape` does not model the browser error of removing a box that is already gone. The browser only delivers key presses to a box that is still on the page.
- Coordinates and sizes are `int`, not IEEE doubles. Rounding and the string-to-number coercion of the size input (client.js:238) are not modelled.
- `Server.Board.Connect` requires a session id that is not already connected. The socket library gives every connection a fresh id.
- Aliasing of the received history array by `strokes` (client.js:66) is not modelled. Events are values, and a received snapshot is a fresh array.
- Concurrency is modelled only as interleaving of whole handler runs.
- The in-step invariant in `Sync` is not claimed for a client's own draws, nor between its own clear and the server handling that clear. The client applies them to its copy (client.js:114, 135, 248) before the server has ordered them. Its copy can disagree with the history until then; `Sync.ClearSyncs` shows the server's clear restores it.
