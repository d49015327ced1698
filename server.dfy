/** The whiteboard server: one shared drawing history, the set of connected sessions,
    and for each session the FIFO queue of messages sent to it and not yet delivered. */
module Server {
  import opened Protocol

  /** The id of one connected socket. */
  type SessionId = nat

  /** A request the server has handled: a `draw` or a `clear` from some session. */
  datatype Request = DrawReq(sender: SessionId, event: Event) | ClearReq(sender: SessionId)

  /** The history a sequence of handled requests leaves behind, read from the most recent
      request backwards: everything up to the last clear is gone. */
  function SinceLastClear(log: seq<Request>): (h: seq<Event>)
    decreases |log|
  {
    if log == [] then []
    else match log[|log| - 1]
      case ClearReq(_) => []
      case DrawReq(_, e) => SinceLastClear(log[..|log| - 1]) + [e]
  }

  /** The events of the draw requests of `log`, first to last. */
  function DrawsOf(log: seq<Request>): (d: seq<Event>)
    decreases |log|
  {
    if log == [] then []
    else (match log[0] case DrawReq(_, e) => [e] case ClearReq(_) => []) + DrawsOf(log[1..])
  }

  predicate ClearFree(log: seq<Request>)
  {
    forall i :: 0 <= i < |log| ==> log[i].DrawReq?
  }

  lemma {:induction false} DrawsOfConcat(a: seq<Request>, b: seq<Request>)
    ensures DrawsOf(a + b) == DrawsOf(a) + DrawsOf(b)
    decreases |a|
  {
    if a == [] {
      assert a + b == b;
    } else {
      assert (a + b)[0] == a[0];
      assert (a + b)[1..] == a[1..] + b;
      DrawsOfConcat(a[1..], b);
    }
  }

  /** Without a clear, history only grows: the draws are appended at the end, in the
      order they arrived, and nothing already there is reordered or removed. */
  lemma {:induction false} HistoryGrowsByDraws(log: seq<Request>, more: seq<Request>)
    requires ClearFree(more)
    ensures SinceLastClear(log + more) == SinceLastClear(log) + DrawsOf(more)
    decreases |more|
  {
    if more == [] {
      assert log + more == log;
    } else {
      var init, last := more[..|more| - 1], more[|more| - 1];
      assert more == init + [last];
      assert log + more == (log + init) + [last];
      assert last.DrawReq?;
      HistoryGrowsByDraws(log, init);
      DrawsOfConcat(init, [last]);
      assert DrawsOf([last]) == [last.event];
    }
  }

  /** After a clear, history is exactly the draws received since, in arrival order. */
  lemma HistoryAfterClear(before: seq<Request>, s: SessionId, after: seq<Request>)
    requires ClearFree(after)
    ensures SinceLastClear(before + [ClearReq(s)] + after) == DrawsOf(after)
  {
    HistoryGrowsByDraws(before + [ClearReq(s)], after);
  }

  class Board {
    /** The shared drawing history. */
    var history: seq<Event>
    /** The sockets currently connected. */
    var sessions: set<SessionId>
    /** Per session, the messages sent to it and not yet delivered, oldest first. */
    var outbox: map<SessionId, seq<Msg>>
    /** Every draw and clear handled so far, in the order the server handled them. */
    ghost var log: seq<Request>

    ghost predicate Valid()
      reads this
    {
      outbox.Keys == sessions && history == SinceLastClear(log)
    }

    /** The board at server start: empty history, nobody connected. */
    constructor ()
      ensures Valid()
      ensures history == [] && sessions == {} && outbox == map[] && log == []
    {
      history, sessions, outbox, log := [], {}, map[], [];
    }

    /** A socket connects: it alone is sent a snapshot of the history. */
    method Connect(s: SessionId)
      requires Valid() && s !in sessions
      modifies this`sessions, this`outbox
      ensures Valid()
      ensures sessions == old(sessions) + {s}
      ensures outbox[s] == [HistoryMsg(history)]
      ensures forall t :: t in old(sessions) ==> outbox[t] == old(outbox[t])
    {
      sessions := sessions + {s};
      outbox := outbox[s := [HistoryMsg(history)]];
    }

    /** A `draw` from `sender`: the event goes at the end of the history and is queued
        for every other session; the sender is sent nothing. */
    method Draw(sender: SessionId, e: Event)
      requires Valid() && sender in sessions
      modifies this`history, this`outbox, this`log
      ensures Valid()
      ensures history == old(history) + [e]
      ensures log == old(log) + [DrawReq(sender, e)]
      ensures outbox.Keys == old(outbox.Keys)
      ensures outbox[sender] == old(outbox[sender])
      ensures forall t :: t in sessions && t != sender ==> outbox[t] == old(outbox[t]) + [DrawMsg(e)]
    {
      history := history + [e];
      log := log + [DrawReq(sender, e)];
      outbox := map t | t in outbox :: if t == sender then outbox[t] else outbox[t] + [DrawMsg(e)];
    }

    /** A `clear` from `sender`: the history is emptied and every session, the sender
        included, is sent a clear. */
    method Clear(sender: SessionId)
      requires Valid() && sender in sessions
      modifies this`history, this`outbox, this`log
      ensures Valid()
      ensures history == []
      ensures log == old(log) + [ClearReq(sender)]
      ensures outbox.Keys == old(outbox.Keys)
      ensures forall t :: t in sessions ==> outbox[t] == old(outbox[t]) + [ClearMsg]
    {
      history := [];
      log := log + [ClearReq(sender)];
      outbox := map t | t in outbox :: outbox[t] + [ClearMsg];
    }

    /** A socket disconnects: it leaves the broadcast set; nothing else changes. */
    method Disconnect(s: SessionId)
      requires Valid() && s in sessions
      modifies this`sessions, this`outbox
      ensures Valid()
      ensures sessions == old(sessions) - {s}
      ensures forall t :: t in sessions ==> outbox[t] == old(outbox[t])
    {
      sessions := sessions - {s};
      outbox := outbox - {s};
    }

    /** The transport hands the oldest pending message of session `s` to its client. */
    method Take(s: SessionId) returns (m: Msg)
      requires Valid() && s in sessions && outbox[s] != []
      modifies this`outbox
      ensures Valid()
      ensures outbox.Keys == old(outbox.Keys)
      ensures m == old(outbox[s])[0] && outbox[s] == old(outbox[s])[1..]
      ensures forall t :: t in sessions && t != s ==> outbox[t] == old(outbox[t])
    {
      m := outbox[s][0];
      outbox := outbox[s := outbox[s][1..]];
    }
  }
}
