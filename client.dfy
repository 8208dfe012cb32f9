/**
 * pycertifspec's `Client` as an object whose tables are fields updated in
 * place. Every method is proved to leave the object in the state, and to
 * return the value, that the corresponding function of `ClientModel` gives;
 * the properties of those functions are the lemmas of the other modules.
 */
module SpecClient {
  import opened Protocol
  import M = ClientModel
  import C = Correlator
  import R = Registry
  import W = WatchCache
  import CR = ConsoleRun
  import K = CountScalers

  class Client {
    var snCounter: nat
    var snCallbacks: map<nat, Callback>
    var replyEvents: map<nat, bool>
    var replyMsgs: map<nat, Msg>
    var subscribers: map<string, seq<Callback>>
    var subLastMsg: map<string, Msg>
    var watchers: map<string, Callback>
    var watchValues: map<string, Msg>
    var lastConsolePrint: string
    var consolePrintLines: seq<string>
    var closures: nat
    var outbox: seq<Frame>
    var dispatched: seq<Spawn>

    /** The tables as one value of the model. */
    ghost function Abs(): M.ClientState
      reads this
    {
      M.ClientState(snCounter, snCallbacks, replyEvents, replyMsgs, subscribers, subLastMsg,
                    watchers, watchValues, lastConsolePrint, consolePrintLines, closures, outbox, dispatched)
    }

    ghost predicate Valid()
      reads this
    {
      M.Valid(Abs())
    }

    /** The tables of lines 36-50, all empty. */
    constructor()
      ensures Abs() == M.Empty
    {
      snCounter, snCallbacks, replyEvents, replyMsgs := 0, map[], map[], map[];
      subscribers, subLastMsg, watchers, watchValues := map[], map[], map[], map[];
      lastConsolePrint, consolePrintLines := "", [];
      closures, outbox, dispatched := 0, [], [];
    }

    /**
     * `Client(...)`: the empty tables, the standing "error" subscription
     * without waiting (line 34), then the console subscription, which waits
     * during `ttyWait` (line 51). An exception of that subscription leaves
     * the constructor, so no client is returned; a timeout is ignored.
     */
    static method Connect(ttyWait: seq<Msg>) returns (r: Result<Client>)
      ensures r.Ok? <==> M.Init(ttyWait).1.Ok?
      ensures r.Err? ==> r.error == M.Init(ttyWait).1.error
      ensures r.Ok? ==> fresh(r.value) && r.value.Abs() == M.Init(ttyWait).0 && r.value.Valid()
    {
      var c := new Client();
      var _ := c.Subscribe("error", NoCallback, true, []);
      var res := c.Subscribe("output/tty", Console, false, ttyWait);
      if res.Err? {
        r := Err(res.error);
      } else {
        r := Ok(c);
      }
    }

    // -------------------------------------------------------------------
    // Request correlator

    /**
     * `_send`: take the next number, file the callback and (when the caller
     * waits) the reply event under it, write the frame; a waiting caller then
     * lets `during` arrive and takes the reply slot.
     */
    method Send(cmd: Command, dataType: DataType, name: string, body: string,
                callback: Option<Callback>, wait: bool, during: seq<Msg>) returns (reply: Option<Msg>)
      modifies this
      ensures wait ==> (Abs(), reply) == M.SendAndWait(old(Abs()), cmd, dataType, name, body, callback, during)
      ensures !wait ==> Abs() == M.Send(old(Abs()), cmd, dataType, name, body, callback, false) && reply.None?
    {
      Post(cmd, dataType, name, body, callback, wait);
      reply := None;
      if wait {
        var n := snCounter;
        Listen(during);
        reply := AwaitReply(n);
      }
    }

    /** Lines 88-93: number the request, file what waits for its reply, write the frame. */
    method Post(cmd: Command, dataType: DataType, name: string, body: string, callback: Option<Callback>, wait: bool)
      modifies this
      ensures Abs() == M.Send(old(Abs()), cmd, dataType, name, body, callback, wait)
    {
      var n := snCounter + 1;
      SetCounter(n);
      FileCallback(n, callback);
      FileReplyEvent(n, wait);
      Emit(Frame(n, cmd, dataType, name, body));
    }

    /** Line 88: the shared counter takes its next value. */
    method SetCounter(n: nat)
      modifies this
      ensures Abs() == old(Abs()).(snCounter := n)
    {
      snCounter := n;
    }

    /** Lines 89-90: file the callback, if any, under the request's number. */
    method FileCallback(n: nat, callback: Option<Callback>)
      modifies this
      ensures Abs() == old(Abs()).(snCallbacks := if callback.Some? then old(Abs()).snCallbacks[n := callback.value]
                                                  else old(Abs()).snCallbacks)
    {
      if callback.Some? {
        snCallbacks := snCallbacks[n := callback.value];
      }
    }

    /** Lines 91-92: file an unset reply event under the number of a waiting request. */
    method FileReplyEvent(n: nat, wait: bool)
      modifies this
      ensures Abs() == old(Abs()).(replyEvents := if wait then old(Abs()).replyEvents[n := false]
                                                  else old(Abs()).replyEvents)
    {
      if wait {
        replyEvents := replyEvents[n := false];
      }
    }

    /** Line 93: write one frame to the socket. */
    method Emit(frame: Frame)
      modifies this
      ensures Abs() == old(Abs()).(outbox := old(Abs()).outbox + [frame])
    {
      outbox := outbox + [frame];
    }

    /** Lines 96-99: take the reply slot of `n` and drop its event and slot. */
    method AwaitReply(n: nat) returns (reply: Option<Msg>)
      modifies this
      ensures (Abs(), reply) == M.AwaitReply(old(Abs()), n)
    {
      reply := if n in replyMsgs then Some(replyMsgs[n]) else None;
      replyEvents := replyEvents - {n};
      replyMsgs := replyMsgs - {n};
    }

    // -------------------------------------------------------------------
    // Receive loop

    /** One pass of the body of `_listener_thread`. */
    method Dispatch(msg: Msg)
      modifies this
      ensures Abs() == M.Dispatch(old(Abs()), msg)
      ensures old(Valid()) ==> Valid()
    {
      ghost var s0 := Abs();
      if Valid() {
        C.DispatchPreservesValid(s0, msg);
      }
      DeliverEvent(msg);
      DeliverReply(msg);
    }

    /** Lines 70-75: start the callback of a pending number, fill a waited-for slot, retire the number. */
    method DeliverReply(msg: Msg)
      modifies this
      ensures Abs() == M.DeliverReply(old(Abs()), msg)
    {
      if msg.sn > 0 && msg.sn in snCallbacks {
        dispatched := dispatched + [Call(snCallbacks[msg.sn], msg)];
        if msg.sn in replyEvents {
          replyEvents := replyEvents[msg.sn := true];
          replyMsgs := replyMsgs[msg.sn := msg];
        }
        snCallbacks := snCallbacks - {msg.sn};
      }
    }

    /** Lines 64-68: record an event of a subscribed property and start each of its callbacks. */
    method DeliverEvent(msg: Msg)
      modifies this
      ensures Abs() == M.DeliverEvent(old(Abs()), msg)
    {
      if msg.cmd == Event && msg.name in subscribers {
        subLastMsg := subLastMsg[msg.name := msg];
        var cbs := subscribers[msg.name];
        var i := 0;
        while i < |cbs|
          invariant 0 <= i <= |cbs|
          invariant dispatched == old(dispatched) + M.Calls(cbs[..i], msg)
          invariant subLastMsg == old(subLastMsg)[msg.name := msg]
          invariant Abs() == old(Abs()).(subLastMsg := subLastMsg, dispatched := dispatched)
        {
          assert cbs[..i + 1] == cbs[..i] + [cbs[i]];
          CallsAppend(cbs[..i], cbs[i], msg);
          dispatched := dispatched + [Call(cbs[i], msg)];
          i := i + 1;
        }
        assert cbs[..i] == cbs;
      }
    }

    /** The receive loop over `msgs`, in arrival order. */
    method Listen(msgs: seq<Msg>)
      modifies this
      ensures Abs() == M.Listen(old(Abs()), msgs)
      ensures old(Valid()) ==> Valid()
    {
      ghost var s0 := Abs();
      if Valid() {
        C.ListenPreservesValid(s0, msgs);
      }
      var i := 0;
      while i < |msgs|
        invariant 0 <= i <= |msgs|
        invariant M.Listen(Abs(), msgs[i..]) == M.Listen(old(Abs()), msgs)
      {
        assert msgs[i..][1..] == msgs[i + 1..];
        Dispatch(msgs[i]);
        i := i + 1;
      }
    }

    // -------------------------------------------------------------------
    // Subscription registry

    /**
     * `subscribe`. A first subscribe that waits installs a temporary
     * listener on the property and on "error", sends the REGISTER and lets
     * `during` arrive; the first message the listener is started with
     * decides the outcome.
     */
    method Subscribe(prop: string, callback: Callback, nowait: bool, during: seq<Msg>) returns (res: Result<bool>)
      modifies this
      ensures (Abs(), res) == M.Subscribe(old(Abs()), prop, callback, nowait, during)
      ensures old(Valid()) && AllocatedBefore(callback, old(closures)) ==> Valid()
    {
      ghost var s0 := Abs();
      if Valid() && AllocatedBefore(callback, closures) {
        R.SubscribePreservesValid(s0, prop, callback, nowait, during);
      }
      if prop !in subscribers {
        if !nowait {
          res := SubscribeAndWait(prop, callback, during);
          assert M.Subscribe(s0, prop, callback, nowait, during) == M.SubscribeAndWait(s0, prop, callback, during);
        } else {
          subscribers := subscribers[prop := [callback]];
          var _ := Send(Register, NoType, prop, "", None, false, []);
          res := Ok(true);
        }
      } else if prop !in subLastMsg {
        res := Err(KeyError(prop));
      } else {
        dispatched := dispatched + [Call(callback, subLastMsg[prop])];
        subscribers := subscribers[prop := subscribers[prop] + [callback]];
        res := Ok(true);
      }
    }

    /** Lines 120-140: the waiting first subscribe. */
    method SubscribeAndWait(prop: string, callback: Callback, during: seq<Msg>) returns (res: Result<bool>)
      modifies this
      ensures (Abs(), res) == M.SubscribeAndWait(old(Abs()), prop, callback, during)
    {
      var temp := Temp(closures);
      closures := closures + 1;
      subscribers := subscribers[prop := [temp]];
      if "error" !in subscribers {
        return Err(KeyError("error"));
      }
      ghost var s1 := Abs();
      subscribers := subscribers["error" := subscribers["error"] + [temp]];
      var _ := Send(Register, NoType, prop, "", None, false, []);
      assert Abs() == M.StartWait(s1, prop, temp);
      var mark := |dispatched|;
      Listen(during);
      var arrived := M.FirstCallTo(dispatched[mark..], temp);
      res := EndWait(prop, callback, temp, arrived);
    }

    /** Lines 131-140: the end of the wait. */
    method EndWait(prop: string, callback: Callback, temp: Callback, arrived: Option<Msg>) returns (res: Result<bool>)
      modifies this
      ensures (Abs(), res) == M.EndWait(old(Abs()), prop, callback, temp, arrived)
    {
      if arrived.None? {
        subscribers := subscribers - {prop};
        return Ok(false);
      }
      var m := arrived.value;
      if m.cmd == Event && m.name == "error" {
        subscribers := subscribers - {prop};
        return Err(SpecError(m.body));
      }
      dispatched := dispatched + [Call(callback, m)];
      subscribers := subscribers[prop := [callback]];
      if "error" !in subscribers {
        res := Err(KeyError("error"));
      } else if temp in subscribers["error"] {
        subscribers := subscribers["error" := RemoveFirst(subscribers["error"], temp)];
        res := Ok(true);
      } else {
        res := Err(ValueError);
      }
    }

    /** `unsubscribe`: True iff the callback was in the property's list. */
    method Unsubscribe(prop: string, callback: Callback) returns (found: bool)
      modifies this
      ensures (Abs(), found) == M.Unsubscribe(old(Abs()), prop, callback)
      ensures old(Valid()) ==> Valid()
    {
      ghost var s0 := Abs();
      if Valid() {
        R.UnsubscribePreservesValid(s0, prop, callback);
      }
      if prop in subscribers && callback in subscribers[prop] {
        var rest := RemoveFirst(subscribers[prop], callback);
        subscribers := subscribers[prop := rest];
        ghost var s1 := Abs();
        assert s1 == s0.(subscribers := s0.subscribers[prop := rest]);
        if |rest| == 0 {
          var _ := Send(Unregister, NoType, prop, "", None, false, []);
          subscribers := subscribers - {prop};
        }
        found := true;
      } else {
        found := false;
      }
    }

    // -------------------------------------------------------------------
    // Console and run

    /** `_console_listener`: buffer a line, or publish the buffer at a prompt. */
    method ConsoleListener(msg: Msg)
      modifies this
      ensures Abs() == M.ConsoleListener(old(Abs()), msg)
      ensures old(Valid()) ==> Valid()
    {
      ghost var s0 := Abs();
      if EndsWith(msg.body, "> \n") {
        lastConsolePrint := Concat(consolePrintLines);
        consolePrintLines := [];
      } else {
        consolePrintLines := consolePrintLines + [msg.body];
      }
      if M.Valid(s0) {
        CR.ConsoleListenerPreservesValid(s0, msg);
      }
    }

    /**
     * `run`: normalise the command, choose the verb and, when a reply is
     * wanted, file a fresh one-shot callback; a blocking run then waits
     * during `during` for the thread started with its reply.
     */
    method Run(command: string, blocking: bool, callback: Option<Callback>, during: seq<Msg>)
      returns (res: Result<M.RunResult>)
      modifies this
      ensures (Abs(), res) == M.Run(old(Abs()), command, blocking, callback, during)
      ensures old(Valid()) ==> Valid()
    {
      ghost var s0 := Abs();
      var line := Normalise(command);
      var verb := RunVerb(blocking, callback.Some?);
      if line.Err? {
        res := Err(line.error);
      } else if blocking || callback.Some? {
        var resCb := RunCb(closures);
        closures := closures + 1;
        var _ := Send(verb, NoType, line.value, "", Some(resCb), false, []);
        if blocking {
          var mark := |dispatched|;
          Listen(during);
          var arrived := M.FirstCallTo(dispatched[mark..], resCb);
          if arrived.None? {
            res := Ok(M.StillWaiting);
          } else {
            res := Ok(M.Returned(arrived.value, lastConsolePrint));
          }
        } else {
          res := Ok(M.NoResult);
        }
      } else {
        var _ := Send(verb, NoType, line.value, "", None, false, []);
        res := Ok(M.NoResult);
      }
      if M.Valid(s0) {
        CR.RunPreservesValid(s0, command, blocking, callback, during);
      }
    }

    // -------------------------------------------------------------------
    // Watch cache

    /** `set`: refuse a non-ASCII value, send CHAN_SEND, refresh a cached body. */
    method Set(prop: string, value: string, during: seq<Msg>) returns (res: Result<()>)
      modifies this
      ensures (Abs(), res) == M.Set(old(Abs()), prop, value, during)
      ensures old(Valid()) ==> Valid()
    {
      ghost var s0 := Abs();
      if Valid() {
        W.SetGetPreserveValid(s0, prop, value, during);
      }
      if !IsAscii(value) {
        return Err(UnicodeEncodeError);
      }
      var reply := Send(ChanSend, StringType, prop, value, None, true, during);
      if reply.Some? && reply.value.dataType == ErrorType {
        res := Err(SpecError(reply.value.body));
      } else if prop in watchValues {
        watchValues := watchValues[prop := watchValues[prop].(body := value)];
        res := Ok(());
      } else {
        res := Ok(());
      }
    }

    /** `get`: the cached message of a watched property, else one CHAN_READ and its reply. */
    method Get(prop: string, during: seq<Msg>) returns (res: Option<Msg>)
      modifies this
      ensures (Abs(), res) == M.Get(old(Abs()), prop, during)
      ensures old(Valid()) ==> Valid()
    {
      ghost var s0 := Abs();
      if Valid() {
        W.SetGetPreserveValid(s0, prop, "", during);
      }
      if prop in watchValues {
        res := Some(watchValues[prop]);
      } else {
        res := Send(ChanRead, StringType, prop, "", None, true, during);
      }
    }

    /** The `watcher` closure of `watch`: store the message it is started with. */
    method WatcherCallback(prop: string, msg: Msg)
      modifies this
      ensures Abs() == M.WatcherCallback(old(Abs()), prop, msg)
      ensures old(Valid()) ==> Valid()
    {
      ghost var s0 := Abs();
      if Valid() {
        W.WatcherCallbackPreservesValid(s0, prop, msg);
      }
      watchValues := watchValues[prop := msg];
    }

    /** `watch`: file a fresh watcher under the property and subscribe it, waiting. */
    method Watch(prop: string, during: seq<Msg>) returns (res: Result<bool>)
      modifies this
      ensures (Abs(), res) == M.Watch(old(Abs()), prop, during)
      ensures old(Valid()) ==> Valid()
    {
      ghost var s0 := Abs();
      var w := Watcher(prop, closures);
      closures := closures + 1;
      watchers := watchers[prop := w];
      res := Subscribe(prop, w, false, during);
      if M.Valid(s0) {
        W.WatchPreservesValid(s0, prop, during);
      }
    }

    /** `unwatch`: unsubscribe the watcher and drop it and the cached value. */
    method Unwatch(prop: string) returns (res: Result<()>)
      modifies this
      ensures (Abs(), res) == M.Unwatch(old(Abs()), prop)
      ensures old(Valid()) ==> Valid()
    {
      ghost var s0 := Abs();
      if Valid() {
        W.UnwatchPreservesValid(s0, prop);
      }
      if prop !in watchers {
        return Err(KeyError(prop));
      }
      var _ := Unsubscribe(prop, watchers[prop]);
      watchers := watchers - {prop};
      if prop !in watchValues {
        return Err(KeyError(prop));
      }
      watchValues := watchValues - {prop};
      res := Ok(());
    }

    // -------------------------------------------------------------------
    // Counting

    /** `count_callback` applied to the reply of one forced read. */
    method CountCallback(values: map<string, Reading>, progress: Option<Callback>, reply: Option<Msg>)
      returns (res: Result<map<string, Reading>>)
      modifies this
      ensures (Abs(), res) == M.CountCallback(old(Abs()), values, progress, reply)
      ensures old(Valid()) ==> Valid()
    {
      ghost var s0 := Abs();
      if Valid() {
        K.CountCallbackPreservesValid(s0, values, progress, reply);
      }
      if reply.None? {
        return Err(AttributeError);
      }
      var key := SplitSecond(reply.value.name);
      if key.Err? {
        return Err(key.error);
      }
      var v := values[key.value := Value(reply.value.body)];
      if progress.Some? {
        dispatched := dispatched + [Progress(progress.value, v)];
      }
      res := Ok(v);
    }

    /** Lines 335-336: subscribe `cc`, waiting, to the channel of every counter. */
    method CountSubscribeAll(names: seq<string>, cc: Callback, waits: seq<seq<Msg>>) returns (res: Result<()>)
      requires |waits| == |names|
      modifies this
      ensures (Abs(), res) == M.CountSubscribeAll(old(Abs()), names, cc, waits)
      ensures old(Valid()) && AllocatedBefore(cc, old(closures)) ==> Valid()
    {
      ghost var s0 := Abs();
      if Valid() && AllocatedBefore(cc, closures) {
        K.SubscribeAllFrame(s0, names, cc, waits);
      }
      var i := 0;
      while i < |names|
        invariant 0 <= i <= |names|
        invariant M.CountSubscribeAll(Abs(), names[i..], cc, waits[i..]) == M.CountSubscribeAll(old(Abs()), names, cc, waits)
      {
        assert names[i..][1..] == names[i + 1..] && waits[i..][1..] == waits[i + 1..];
        ghost var prev := Abs();
        var r := Subscribe(ScalerChannel(names[i]), cc, false, waits[i]);
        K.SubscribeAllStep(prev, names[i..], cc, waits[i..], Abs(), r);
        if r.Err? {
          return Err(r.error);
        }
        i := i + 1;
      }
      res := Ok(());
    }

    /** Lines 340-342: force a read of every counter into `values`, then unsubscribe `cc` from it. */
    method CountFinalReads(names: seq<string>, cc: Callback, progress: Option<Callback>,
                           waits: seq<seq<Msg>>, values: map<string, Reading>)
      returns (res: Result<map<string, Reading>>)
      requires |waits| == |names|
      modifies this
      ensures (Abs(), res) == M.CountFinalReads(old(Abs()), names, cc, progress, waits, values)
      ensures old(Valid()) ==> Valid()
    {
      ghost var s0 := Abs();
      if Valid() {
        K.FinalReadsPreserveValid(s0, names, cc, progress, waits, values);
      }
      var acc := values;
      var i := 0;
      while i < |names|
        invariant 0 <= i <= |names|
        invariant M.CountFinalReads(Abs(), names[i..], cc, progress, waits[i..], acc)
               == M.CountFinalReads(old(Abs()), names, cc, progress, waits, values)
      {
        assert names[i..][1..] == names[i + 1..] && waits[i..][1..] == waits[i + 1..];
        var channel := ScalerChannel(names[i]);
        var reply := Get(channel, waits[i]);
        var v := CountCallback(acc, progress, reply);
        if v.Err? {
          return Err(v.error);
        }
        var _ := Unsubscribe(channel, cc);
        acc := v.value;
        i := i + 1;
      }
      res := Ok(acc);
    }

    /**
     * `count`: subscribe one fresh callback to every counter channel, run the
     * count command blocking, then force a read of every counter and
     * unsubscribe the callback from it, starting from the zero snapshot.
     */
    method Count(names: seq<string>, timeText: string, progress: Option<Callback>,
                 subWaits: seq<seq<Msg>>, runWait: seq<Msg>, readWaits: seq<seq<Msg>>)
      returns (res: Result<Option<map<string, Reading>>>)
      requires |subWaits| == |names| && |readWaits| == |names|
      modifies this
      ensures (Abs(), res) == M.Count(old(Abs()), names, timeText, progress, subWaits, runWait, readWaits)
      ensures old(Valid()) ==> Valid()
    {
      ghost var s0 := Abs();
      var cc := CountCb(closures);
      closures := closures + 1;
      ghost var s1 := Abs();
      assert s1 == s0.(closures := s0.closures + 1);
      var sub := CountSubscribeAll(names, cc, subWaits);
      K.CountSteps(s0, names, timeText, progress, subWaits, runWait, readWaits, Abs(), sub);
      if sub.Err? {
        res := Err(sub.error);
      } else {
        res := CountRunAndRead(names, timeText, cc, progress, runWait, readWaits);
      }
      if M.Valid(s0) {
        K.CountPreservesValid(s0, names, timeText, progress, subWaits, runWait, readWaits);
      }
    }

    /** Lines 338-344: run the count command blocking, then the final reads from the zero snapshot. */
    method CountRunAndRead(names: seq<string>, timeText: string, cc: Callback, progress: Option<Callback>,
                           runWait: seq<Msg>, readWaits: seq<seq<Msg>>)
      returns (res: Result<Option<map<string, Reading>>>)
      requires |readWaits| == |names|
      modifies this
      ensures (Abs(), res) == M.CountRunAndRead(old(Abs()), names, timeText, cc, progress, runWait, readWaits)
      ensures old(Valid()) ==> Valid()
    {
      ghost var s0 := Abs();
      var ran := Run("count " + timeText, true, None, runWait);
      if ran.Err? {
        res := Err(ran.error);
      } else if ran.value.StillWaiting? {
        res := Ok(None);
      } else {
        ghost var s2 := Abs();
        var v := CountFinalReads(names, cc, progress, readWaits, M.ZeroSnapshot(names));
        if v.Err? {
          res := Err(v.error);
        } else {
          res := Ok(Some(v.value));
        }
        assert (Abs(), res) == M.CountFinish(s2, names, cc, progress, readWaits);
      }
    }
  }

  /** One more callback adds one more thread at the end. */
  lemma {:induction false} CallsAppend(cbs: seq<Callback>, cb: Callback, msg: Msg)
    ensures M.Calls(cbs + [cb], msg) == M.Calls(cbs, msg) + [Call(cb, msg)]
  {
    var l := M.Calls(cbs + [cb], msg);
    var r := M.Calls(cbs, msg) + [Call(cb, msg)];
    assert |l| == |r|;
    forall i | 0 <= i < |l|
      ensures l[i] == r[i]
    {
      if i < |cbs| {
        assert (cbs + [cb])[i] == cbs[i];
      }
    }
  }
}
