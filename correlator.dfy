/**
 * Properties of the request correlator (`_send`, lines 77-99) and of the
 * receive loop (`_listener_thread`, lines 60-75).
 */
module Correlator {
  import opened Protocol
  import opened ClientModel

  /** The reply slot of `n`. */
  function Slot(s: ClientState, n: nat): Option<Msg> {
    if n in s.replyMsgs then Some(s.replyMsgs[n]) else None
  }

  /** The first message of `msgs` that carries sequence number `n`. */
  function FirstWithSn(msgs: seq<Msg>, n: nat): (r: Option<Msg>)
    ensures r.Some? ==> r.value in msgs && r.value.sn == n
    ensures r.None? ==> forall m :: m in msgs ==> m.sn != n
  {
    if msgs == [] then None
    else if msgs[0].sn == n then Some(msgs[0])
    else FirstWithSn(msgs[1..], n)
  }

  // ---------------------------------------------------------------------
  // Sending

  /**
   * Each send raises the counter by exactly one, writes one frame carrying
   * the new number, and files the callback and the reply event under it.
   */
  lemma SendIssuesNextNumber(s: ClientState, cmd: Command, dataType: DataType, name: string, body: string,
                             callback: Option<Callback>, wait: bool)
    requires Valid(s)
    requires callback.Some? ==> AllocatedBefore(callback.value, s.closures)
    ensures var r := Send(s, cmd, dataType, name, body, callback, wait);
      && Valid(r)
      && r.snCounter == s.snCounter + 1
      && r.outbox == s.outbox + [Frame(r.snCounter, cmd, dataType, name, body)]
      && s.snCounter + 1 !in s.snCallbacks && s.snCounter + 1 !in s.replyEvents
      && (callback.Some? <==> r.snCounter in r.snCallbacks)
      && (callback.Some? ==> r.snCallbacks == s.snCallbacks[r.snCounter := callback.value])
      && (wait <==> r.snCounter in r.replyEvents)
      && r.subscribers == s.subscribers && r.dispatched == s.dispatched
  {
  }

  /** The numbers on the wire are at least 1 and strictly increasing in send order. */
  lemma NumbersIncrease(s: ClientState, i: nat, j: nat)
    requires Valid(s)
    requires i < j < |s.outbox|
    ensures 1 <= s.outbox[i].sn < s.outbox[j].sn <= s.snCounter
  {
  }

  /** Waiting for a reply leaves no entry behind for that number. */
  lemma AwaitReplyCleansUp(s: ClientState, n: nat)
    requires Valid(s)
    ensures var (r, reply) := AwaitReply(s, n);
      && Valid(r)
      && n !in r.replyEvents && n !in r.replyMsgs
      && reply == Slot(s, n)
      && r.snCallbacks == s.snCallbacks && r.subscribers == s.subscribers && r.outbox == s.outbox
  {
  }

  // ---------------------------------------------------------------------
  // One message

  /** The threads `Dispatch` starts for the event part of `msg` (lines 64-68). */
  function EventCalls(s: ClientState, msg: Msg): seq<Spawn> {
    if msg.cmd == Event && msg.name in s.subscribers then Calls(s.subscribers[msg.name], msg) else []
  }

  /** The thread `Dispatch` starts for the reply part of `msg` (lines 70-71). */
  function ReplyCalls(s: ClientState, msg: Msg): seq<Spawn> {
    if msg.sn > 0 && msg.sn in s.snCallbacks then [Call(s.snCallbacks[msg.sn], msg)] else []
  }

  /** One message starts the event threads, then the reply thread. */
  lemma DispatchLog(s: ClientState, msg: Msg)
    ensures Dispatch(s, msg).dispatched == s.dispatched + EventCalls(s, msg) + ReplyCalls(s, msg)
  {
    var s1 := DeliverEvent(s, msg);
    assert s1.dispatched == s.dispatched + EventCalls(s, msg);
    assert s1.snCallbacks == s.snCallbacks;
    if msg.sn > 0 && msg.sn in s1.snCallbacks {
      assert Dispatch(s, msg).dispatched == s1.dispatched + [Call(s1.snCallbacks[msg.sn], msg)];
    } else {
      assert Dispatch(s, msg) == s1;
      assert ReplyCalls(s, msg) == [];
    }
  }

  lemma DispatchEventPartValid(s: ClientState, msg: Msg)
    requires Valid(s)
    ensures Valid(if msg.cmd == Event && msg.name in s.subscribers then
                    s.(subLastMsg := s.subLastMsg[msg.name := msg],
                       dispatched := s.dispatched + Calls(s.subscribers[msg.name], msg))
                  else s)
  {
  }

  lemma DispatchReplyPartValid(s1: ClientState, msg: Msg)
    requires Valid(s1)
    requires msg.sn > 0 && msg.sn in s1.snCallbacks
    ensures Valid(var s2 := s1.(dispatched := s1.dispatched + [Call(s1.snCallbacks[msg.sn], msg)]);
                  var s3 :=
                    if msg.sn in s2.replyEvents then
                      s2.(replyEvents := s2.replyEvents[msg.sn := true], replyMsgs := s2.replyMsgs[msg.sn := msg])
                    else s2;
                  s3.(snCallbacks := s3.snCallbacks - {msg.sn}))
  {
  }

  /** The receive loop keeps the invariant. */
  lemma DispatchPreservesValid(s: ClientState, msg: Msg)
    requires Valid(s)
    ensures Valid(Dispatch(s, msg))
  {
    DispatchEventPartValid(s, msg);
    var s1 := if msg.cmd == Event && msg.name in s.subscribers then
                s.(subLastMsg := s.subLastMsg[msg.name := msg],
                   dispatched := s.dispatched + Calls(s.subscribers[msg.name], msg))
              else s;
    if msg.sn > 0 && msg.sn in s1.snCallbacks {
      DispatchReplyPartValid(s1, msg);
    }
  }

  /**
   * A reply to a pending number starts its callback once, after the event
   * callbacks, fills the slot if someone waits on it, and retires the number.
   */
  lemma DispatchPendingReply(s: ClientState, msg: Msg)
    requires msg.sn > 0 && msg.sn in s.snCallbacks
    ensures var r := Dispatch(s, msg);
      var events := if msg.cmd == Event && msg.name in s.subscribers then Calls(s.subscribers[msg.name], msg) else [];
      && r.dispatched == s.dispatched + events + [Call(s.snCallbacks[msg.sn], msg)]
      && r.snCallbacks == s.snCallbacks - {msg.sn}
      && (msg.sn in s.replyEvents ==> r.replyEvents == s.replyEvents[msg.sn := true] && r.replyMsgs == s.replyMsgs[msg.sn := msg])
      && (msg.sn !in s.replyEvents ==> r.replyEvents == s.replyEvents && r.replyMsgs == s.replyMsgs)
  {
  }

  /**
   * A reply can be delivered at most once: once its number is retired, a
   * further message with that number that is not an event changes nothing.
   */
  lemma {:induction false} DispatchAtMostOnce(s: ClientState, msg: Msg, again: Msg)
    requires msg.sn > 0 && msg.sn in s.snCallbacks
    requires again.sn == msg.sn && again.cmd != Event
    ensures var r := Dispatch(s, msg);
      Dispatch(r, again) == r
  {
    var r := Dispatch(s, msg);
    DispatchPendingReply(s, msg);
    assert again.sn !in r.snCallbacks;
  }

  /**
   * A message with number 0, or with a number nothing waits for, leaves the
   * correlator's tables alone; when it is not an event it changes nothing.
   */
  lemma DispatchUntracked(s: ClientState, msg: Msg)
    requires msg.sn == 0 || msg.sn !in s.snCallbacks
    ensures var r := Dispatch(s, msg);
      && r.snCallbacks == s.snCallbacks && r.replyEvents == s.replyEvents && r.replyMsgs == s.replyMsgs
      && (msg.cmd != Event ==> r == s)
  {
  }

  /**
   * An event for a subscribed property becomes its last message and starts
   * every callback of the property once, in list order; any other message
   * leaves the subscriber and last-message tables alone.
   */
  lemma DispatchEvent(s: ClientState, msg: Msg)
    ensures var r := Dispatch(s, msg);
      && r.subscribers == s.subscribers
      && (msg.cmd == Event && msg.name in s.subscribers ==>
            && r.subLastMsg == s.subLastMsg[msg.name := msg]
            && r.dispatched[..|s.dispatched| + |s.subscribers[msg.name]|] == s.dispatched + Calls(s.subscribers[msg.name], msg))
      && (!(msg.cmd == Event && msg.name in s.subscribers) ==> r.subLastMsg == s.subLastMsg)
  {
    var r := Dispatch(s, msg);
    if msg.cmd == Event && msg.name in s.subscribers {
      var k := |s.dispatched| + |s.subscribers[msg.name]|;
      var s1 := s.(subLastMsg := s.subLastMsg[msg.name := msg],
                   dispatched := s.dispatched + Calls(s.subscribers[msg.name], msg));
      assert r.dispatched == s1.dispatched || r.dispatched == s1.dispatched + [Call(s1.snCallbacks[msg.sn], msg)];
      assert r.dispatched[..k] == s1.dispatched;
    }
  }

  // ---------------------------------------------------------------------
  // The loop over many messages

  lemma {:induction false} ListenPreservesValid(s: ClientState, msgs: seq<Msg>)
    requires Valid(s)
    ensures Valid(Listen(s, msgs))
    decreases |msgs|
  {
    if msgs != [] {
      DispatchPreservesValid(s, msgs[0]);
      ListenPreservesValid(Dispatch(s, msgs[0]), msgs[1..]);
    }
  }

  /** Once nothing waits for `n` any more, the loop never writes its slot. */
  lemma {:induction false} ListenKeepsRetiredSlot(s: ClientState, msgs: seq<Msg>, n: nat)
    requires n !in s.snCallbacks
    ensures Slot(Listen(s, msgs), n) == Slot(s, n)
    decreases |msgs|
  {
    if msgs != [] {
      var s1 := Dispatch(s, msgs[0]);
      assert Slot(s1, n) == Slot(s, n);
      ListenKeepsRetiredSlot(s1, msgs[1..], n);
    }
  }

  /**
   * With a reply event for `n`, the slot ends up holding the first message
   * numbered `n`, provided a callback is also pending under `n`; without a
   * callback it stays empty whatever arrives (the test at line 70).
   */
  lemma {:induction false} ListenFillsSlot(s: ClientState, msgs: seq<Msg>, n: nat)
    requires n > 0 && n in s.replyEvents && n !in s.replyMsgs
    ensures Slot(Listen(s, msgs), n) == if n in s.snCallbacks then FirstWithSn(msgs, n) else None
    decreases |msgs|
  {
    if msgs == [] {
    } else {
      var s1 := Dispatch(s, msgs[0]);
      if n in s.snCallbacks && msgs[0].sn == n {
        assert Slot(s1, n) == Some(msgs[0]);
        ListenKeepsRetiredSlot(s1, msgs[1..], n);
      } else if n !in s.snCallbacks {
        ListenKeepsRetiredSlot(s, msgs, n);
      } else {
        assert n in s1.snCallbacks && n in s1.replyEvents && n !in s1.replyMsgs;
        ListenFillsSlot(s1, msgs[1..], n);
      }
    }
  }

  /**
   * A waiting send returns the first message carrying its number when it
   * registered a callback, and None when it did not, whatever arrives.
   */
  lemma SendAndWaitReturns(s: ClientState, cmd: Command, dataType: DataType, name: string, body: string,
                           callback: Option<Callback>, during: seq<Msg>)
    requires Valid(s)
    requires callback.Some? ==> AllocatedBefore(callback.value, s.closures)
    ensures var (r, reply) := SendAndWait(s, cmd, dataType, name, body, callback, during);
      && Valid(r)
      && reply == (if callback.Some? then FirstWithSn(during, s.snCounter + 1) else None)
      && r.outbox == s.outbox + [Frame(s.snCounter + 1, cmd, dataType, name, body)]
      && r.snCounter == s.snCounter + 1
      && s.snCounter + 1 !in r.replyEvents && s.snCounter + 1 !in r.replyMsgs
      && r.subscribers == s.subscribers && r.watchValues == s.watchValues && r.watchers == s.watchers
  {
    var s1 := Send(s, cmd, dataType, name, body, callback, true);
    SendIssuesNextNumber(s, cmd, dataType, name, body, callback, true);
    ListenFillsSlot(s1, during, s1.snCounter);
    ListenPreservesValid(s1, during);
    AwaitReplyCleansUp(Listen(s1, during), s1.snCounter);
  }

  // ---------------------------------------------------------------------
  // Which threads the loop starts

  /** The first thread for `cb` in a concatenation is found in its first part if there. */
  lemma {:induction false} FirstCallToAppend(a: seq<Spawn>, b: seq<Spawn>, cb: Callback)
    ensures FirstCallTo(a + b, cb) == if FirstCallTo(a, cb).Some? then FirstCallTo(a, cb) else FirstCallTo(b, cb)
  {
    if a != [] {
      assert (a + b)[1..] == a[1..] + b;
      FirstCallToAppend(a[1..], b, cb);
    } else {
      assert a + b == b;
    }
  }

  lemma {:induction false} FirstCallToCalls(cbs: seq<Callback>, msg: Msg, cb: Callback)
    requires cb !in cbs
    ensures FirstCallTo(Calls(cbs, msg), cb).None?
  {
    if cbs != [] {
      assert Calls(cbs, msg)[1..] == Calls(cbs[1..], msg);
      FirstCallToCalls(cbs[1..], msg, cb);
    }
  }

  lemma {:induction false} FirstCallToIn(log: seq<Spawn>, cb: Callback)
    requires FirstCallTo(log, cb).Some?
    ensures Call(cb, FirstCallTo(log, cb).value) in log
  {
    if !(log[0].Call? && log[0].cb == cb) {
      FirstCallToIn(log[1..], cb);
    }
  }

  /** `cb` is stored in no subscriber list. */
  ghost predicate Unsubscribed(s: ClientState, cb: Callback) {
    forall p :: p in s.subscribers ==> cb !in s.subscribers[p]
  }

  /** `cb` is pending under `n` and under no other number. */
  ghost predicate PendingOnlyUnder(s: ClientState, cb: Callback, n: nat) {
    n in s.snCallbacks && s.snCallbacks[n] == cb
    && forall k :: k in s.snCallbacks && k != n ==> s.snCallbacks[k] != cb
  }

  /** The new part of the log after one message, followed by the rest of the loop. */
  lemma {:induction false} ListenLogSplit(s: ClientState, msgs: seq<Msg>)
    requires msgs != []
    ensures var s1 := Dispatch(s, msgs[0]);
      var r := Listen(s, msgs);
      r.dispatched[|s.dispatched|..] == EventCalls(s, msgs[0]) + ReplyCalls(s, msgs[0]) + r.dispatched[|s1.dispatched|..]
  {
    var s1 := Dispatch(s, msgs[0]);
    var r := Listen(s1, msgs[1..]);
    assert Listen(s, msgs) == r;
    DispatchLog(s, msgs[0]);
    SuffixAfterPrefix(s.dispatched, s1.dispatched, r.dispatched, EventCalls(s, msgs[0]) + ReplyCalls(s, msgs[0]));
  }

  /** What follows a prefix of a log is its known extension, then whatever came after. */
  lemma SuffixAfterPrefix<T>(d0: seq<T>, d1: seq<T>, d2: seq<T>, mid: seq<T>)
    requires d1 == d0 + mid && d1 <= d2
    ensures d2[|d0|..] == mid + d2[|d1|..]
  {
    assert d2 == d0 + mid + d2[|d1|..];
  }

  /**
   * The first thread the loop starts for a one-shot request callback runs
   * on the first message carrying the request's number.
   */
  lemma {:induction false} ListenFirstCallToReplyCallback(s: ClientState, msgs: seq<Msg>, cb: Callback, n: nat)
    requires n > 0 && PendingOnlyUnder(s, cb, n) && Unsubscribed(s, cb)
    ensures var r := Listen(s, msgs);
      FirstCallTo(r.dispatched[|s.dispatched|..], cb) == FirstWithSn(msgs, n)
    decreases |msgs|
  {
    var r := Listen(s, msgs);
    if msgs == [] {
      assert r.dispatched[|s.dispatched|..] == [];
    } else {
      var m := msgs[0];
      var s1 := Dispatch(s, m);
      var events := EventCalls(s, m);
      var tail := r.dispatched[|s1.dispatched|..];
      ListenLogSplit(s, msgs);
      FirstCallToCalls(if m.cmd == Event && m.name in s.subscribers then s.subscribers[m.name] else [], m, cb);
      assert FirstCallTo(events, cb).None?;
      FirstCallToAppend(events, ReplyCalls(s, m), cb);
      FirstCallToAppend(events + ReplyCalls(s, m), tail, cb);
      if m.sn == n {
        assert ReplyCalls(s, m) == [Call(cb, m)];
      } else {
        assert FirstCallTo(ReplyCalls(s, m), cb).None?;
        DispatchPendingOrUntracked(s, m, cb, n);
        ListenFirstCallToReplyCallback(s1, msgs[1..], cb, n);
      }
    }
  }

  /** One message numbered other than `n` keeps `cb` pending under `n` alone. */
  lemma DispatchPendingOrUntracked(s: ClientState, m: Msg, cb: Callback, n: nat)
    requires n > 0 && PendingOnlyUnder(s, cb, n) && Unsubscribed(s, cb) && m.sn != n
    ensures PendingOnlyUnder(Dispatch(s, m), cb, n) && Unsubscribed(Dispatch(s, m), cb)
  {
    if m.sn > 0 && m.sn in s.snCallbacks {
      DispatchPendingReply(s, m);
    } else {
      DispatchUntracked(s, m);
    }
  }

  /** An event for a subscribed property becomes that property's last message. */
  lemma DispatchRecordsEvent(s: ClientState, m: Msg)
    requires m.cmd == Event && m.name in s.subscribers
    ensures m.name in Dispatch(s, m).subLastMsg
  {
  }

  /** A message only retires pending numbers. */
  lemma DispatchCallbacksShrink(s: ClientState, m: Msg)
    ensures forall k :: k in Dispatch(s, m).snCallbacks ==> k in s.snCallbacks && Dispatch(s, m).snCallbacks[k] == s.snCallbacks[k]
  {
    if m.sn > 0 && m.sn in s.snCallbacks {
      DispatchPendingReply(s, m);
    } else {
      DispatchUntracked(s, m);
    }
  }

  /** A thread started for an event runs a callback of the event's property. */
  lemma EventCallsFrom(s: ClientState, m0: Msg, cb: Callback, m: Msg)
    requires Call(cb, m) in EventCalls(s, m0)
    ensures m == m0 && m.cmd == Event && m.name in s.subscribers && cb in s.subscribers[m.name]
  {
    var events := EventCalls(s, m0);
    var i :| 0 <= i < |events| && events[i] == Call(cb, m);
    assert s.subscribers[m0.name][i] == cb;
  }

  /**
   * A thread the loop starts for a callback that no request is waiting with
   * ran on an event of a property whose list holds the callback; that
   * property then has a last message.
   */
  lemma {:induction false} ListenEventCall(s: ClientState, msgs: seq<Msg>, cb: Callback, m: Msg)
    requires forall k :: k in s.snCallbacks ==> s.snCallbacks[k] != cb
    requires Call(cb, m) in Listen(s, msgs).dispatched[|s.dispatched|..]
    ensures m.cmd == Event && m.name in s.subscribers && cb in s.subscribers[m.name]
    ensures m.name in Listen(s, msgs).subLastMsg
    decreases |msgs|
  {
    if msgs != [] {
      var r := Listen(s, msgs);
      var m0 := msgs[0];
      var s1 := Dispatch(s, m0);
      assert r == Listen(s1, msgs[1..]);
      ListenLogSplit(s, msgs);
      ListenKeepsLastKeys(s1, msgs[1..]);
      DispatchCallbacksShrink(s, m0);
      var tail := r.dispatched[|s1.dispatched|..];
      assert r.dispatched[|s.dispatched|..] == EventCalls(s, m0) + ReplyCalls(s, m0) + tail;
      if Call(cb, m) in EventCalls(s, m0) {
        EventCallsFrom(s, m0, cb, m);
        DispatchRecordsEvent(s, m0);
      } else {
        assert s1.subscribers == s.subscribers;
        assert Call(cb, m) !in ReplyCalls(s, m0);
        assert Call(cb, m) in tail;
        ListenEventCall(s1, msgs[1..], cb, m);
      }
    }
  }

  /** The loop never forgets that a property had a last message. */
  lemma {:induction false} ListenKeepsLastKeys(s: ClientState, msgs: seq<Msg>)
    ensures s.subLastMsg.Keys <= Listen(s, msgs).subLastMsg.Keys
    decreases |msgs|
  {
    if msgs != [] {
      ListenKeepsLastKeys(Dispatch(s, msgs[0]), msgs[1..]);
    }
  }
}
