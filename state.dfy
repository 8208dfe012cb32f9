/**
 * The bookkeeping of pycertifspec's `Client` as a state machine: one record
 * holding every table the client keeps, and one function per operation that
 * gives the new record and what the operation returns or raises.
 *
 * The socket is replaced by `outbox` (every frame `send_spec` would write)
 * and by the message arguments of `Dispatch`; starting a thread is an entry
 * appended to `dispatched`; a blocking wait is a parameter `during`, the
 * messages the receive loop handles while the caller is blocked.
 */
module ClientModel {
  import opened Protocol

  datatype ClientState = ClientState(
    snCounter: nat,                          // _sn_counter
    snCallbacks: map<nat, Callback>,         // _sn_callbacks
    replyEvents: map<nat, bool>,             // _reply_events: true once set()
    replyMsgs: map<nat, Msg>,                // _reply_msgs, one slot per number
    subscribers: map<string, seq<Callback>>, // _subscribers
    subLastMsg: map<string, Msg>,            // _sub_last_msg
    watchers: map<string, Callback>,         // _watchers
    watchValues: map<string, Msg>,           // _watch_values
    lastConsolePrint: string,                // _last_console_print
    consolePrintLines: seq<string>,          // _console_print_lines
    closures: nat,                           // closures allocated so far
    outbox: seq<Frame>,                      // frames written to the socket
    dispatched: seq<Spawn>)                  // threads started

  /** What a blocking `run` gives back. */
  datatype RunResult =
    | NoResult                              // not blocking: run returns None
    | Returned(reply: Msg, console: string) // the reply and the last console print
    | StillWaiting                          // no reply among the messages so far

  /** The state right after the socket connected, before any subscription. */
  const Empty := ClientState(0, map[], map[], map[], map[], map[], map[], map[], "", [], 0, [], [])

  /**
   * The invariant of every reachable state: frame numbers are 1, 2, 3, ... in
   * send order, every pending entry is under an issued number, a reply slot
   * only exists beside its reply event, every stored closure is allocated,
   * and a property's last message is an event of that property.
   */
  ghost predicate Valid(s: ClientState) {
    && WireNumbered(s.outbox, s.snCounter)
    && PendingIssued(s.snCallbacks, s.replyEvents, s.replyMsgs, s.snCounter, s.closures)
    && ListsAllocated(s.subscribers, s.closures)
    && LastMsgsAreEvents(s.subLastMsg)
  }

  /** Frame i carries number i + 1. */
  ghost predicate WireNumbered(outbox: seq<Frame>, snCounter: nat) {
    && |outbox| == snCounter
    && forall i :: 0 <= i < |outbox| ==> outbox[i].sn == i + 1
  }

  ghost predicate PendingIssued(snCallbacks: map<nat, Callback>, replyEvents: map<nat, bool>,
                                replyMsgs: map<nat, Msg>, snCounter: nat, closures: nat) {
    && (forall n :: n in snCallbacks ==> 1 <= n <= snCounter && AllocatedBefore(snCallbacks[n], closures))
    && (forall n :: n in replyEvents ==> 1 <= n <= snCounter)
    && replyMsgs.Keys <= replyEvents.Keys
  }

  ghost predicate ListsAllocated(subscribers: map<string, seq<Callback>>, closures: nat) {
    forall p :: p in subscribers ==> AllAllocatedBefore(subscribers[p], closures)
  }

  ghost predicate LastMsgsAreEvents(subLastMsg: map<string, Msg>) {
    forall p :: p in subLastMsg ==> subLastMsg[p].cmd == Event && subLastMsg[p].name == p
  }

  ghost predicate AllAllocatedBefore(cbs: seq<Callback>, next: nat) {
    forall cb :: cb in cbs ==> AllocatedBefore(cb, next)
  }

  // Small steps of the invariant, so that proofs about one table need not
  // unfold the others.

  lemma ValidWithSubscribers(s: ClientState, subscribers: map<string, seq<Callback>>)
    requires Valid(s) && ListsAllocated(subscribers, s.closures)
    ensures Valid(s.(subscribers := subscribers))
  {
  }

  lemma ValidWithDispatched(s: ClientState, dispatched: seq<Spawn>)
    requires Valid(s)
    ensures Valid(s.(dispatched := dispatched))
  {
  }

  lemma ValidWithConsole(s: ClientState, lastConsolePrint: string, consolePrintLines: seq<string>)
    requires Valid(s)
    ensures Valid(s.(lastConsolePrint := lastConsolePrint, consolePrintLines := consolePrintLines))
  {
  }

  lemma ValidWithWatchers(s: ClientState, watchers: map<string, Callback>)
    requires Valid(s)
    ensures Valid(s.(watchers := watchers))
  {
  }

  lemma ValidWithWatchValues(s: ClientState, watchValues: map<string, Msg>)
    requires Valid(s)
    ensures Valid(s.(watchValues := watchValues))
  {
  }

  lemma ValidWithClosures(s: ClientState, closures: nat)
    requires Valid(s) && s.closures <= closures
    ensures Valid(s.(closures := closures))
  {
    forall p | p in s.subscribers
      ensures AllAllocatedBefore(s.subscribers[p], closures)
    {
      assert AllAllocatedBefore(s.subscribers[p], s.closures);
    }
  }

  lemma ListsAllocatedUpdate(subscribers: map<string, seq<Callback>>, closures: nat, p: string, cbs: seq<Callback>)
    requires ListsAllocated(subscribers, closures) && AllAllocatedBefore(cbs, closures)
    ensures ListsAllocated(subscribers[p := cbs], closures)
  {
    var r := subscribers[p := cbs];
    forall q | q in r
      ensures AllAllocatedBefore(r[q], closures)
    {
      if q != p {
        assert AllAllocatedBefore(subscribers[q], closures);
      }
    }
  }

  lemma ListsAllocatedRemove(subscribers: map<string, seq<Callback>>, closures: nat, p: string)
    requires ListsAllocated(subscribers, closures)
    ensures ListsAllocated(subscribers - {p}, closures)
  {
    forall q | q in subscribers - {p}
      ensures AllAllocatedBefore((subscribers - {p})[q], closures)
    {
      assert AllAllocatedBefore(subscribers[q], closures);
    }
  }

  // ---------------------------------------------------------------------
  // Request correlator: _send (lines 77-99)

  /**
   * Lines 87-93: take the next number, register the callback and the reply
   * event under it, write the frame.
   */
  function Send(s: ClientState, cmd: Command, dataType: DataType, name: string, body: string,
                callback: Option<Callback>, wait: bool): ClientState
  {
    var n := s.snCounter + 1;
    s.(snCounter := n,
       snCallbacks := if callback.Some? then s.snCallbacks[n := callback.value] else s.snCallbacks,
       replyEvents := if wait then s.replyEvents[n := false] else s.replyEvents,
       outbox := s.outbox + [Frame(n, cmd, dataType, name, body)])
  }

  /** Lines 96-99: take the reply slot of `n` (None if empty) and drop both entries. */
  function AwaitReply(s: ClientState, n: nat): (ClientState, Option<Msg>) {
    var reply := if n in s.replyMsgs then Some(s.replyMsgs[n]) else None;
    (s.(replyEvents := s.replyEvents - {n}, replyMsgs := s.replyMsgs - {n}), reply)
  }

  /** `_send` with `wait_for_response != 0`: send, let `during` arrive, take the reply. */
  function SendAndWait(s: ClientState, cmd: Command, dataType: DataType, name: string, body: string,
                       callback: Option<Callback>, during: seq<Msg>): (ClientState, Option<Msg>)
  {
    var s1 := Send(s, cmd, dataType, name, body, callback, true);
    AwaitReply(Listen(s1, during), s1.snCounter)
  }

  // ---------------------------------------------------------------------
  // Receive loop: one pass of the body of _listener_thread (lines 62-75)

  /** One thread per callback, in list order. */
  function Calls(cbs: seq<Callback>, msg: Msg): (r: seq<Spawn>)
    ensures |r| == |cbs|
    ensures forall i :: 0 <= i < |cbs| ==> r[i] == Call(cbs[i], msg)
  {
    if cbs == [] then [] else [Call(cbs[0], msg)] + Calls(cbs[1..], msg)
  }

  function Dispatch(s: ClientState, msg: Msg): ClientState {
    DeliverReply(DeliverEvent(s, msg), msg)
  }

  /** Lines 64-68: an event of a subscribed property is recorded and starts each of its callbacks. */
  function DeliverEvent(s: ClientState, msg: Msg): (r: ClientState)
    ensures r == s.(subLastMsg := r.subLastMsg, dispatched := r.dispatched)
    ensures s.dispatched <= r.dispatched
  {
    if msg.cmd == Event && msg.name in s.subscribers then
      s.(subLastMsg := s.subLastMsg[msg.name := msg],
         dispatched := s.dispatched + Calls(s.subscribers[msg.name], msg))
    else s
  }

  /** Lines 70-75: a reply to a pending number starts its callback, fills a waited-for slot, retires the number. */
  function DeliverReply(s: ClientState, msg: Msg): (r: ClientState)
    ensures r == s.(dispatched := r.dispatched, snCallbacks := r.snCallbacks,
                    replyEvents := r.replyEvents, replyMsgs := r.replyMsgs)
    ensures s.dispatched <= r.dispatched
    ensures r.snCallbacks.Keys <= s.snCallbacks.Keys && r.replyEvents.Keys == s.replyEvents.Keys
  {
    if msg.sn > 0 && msg.sn in s.snCallbacks then
      var s2 := s.(dispatched := s.dispatched + [Call(s.snCallbacks[msg.sn], msg)]);
      var s3 :=
        if msg.sn in s2.replyEvents then
          s2.(replyEvents := s2.replyEvents[msg.sn := true], replyMsgs := s2.replyMsgs[msg.sn := msg])
        else s2;
      s3.(snCallbacks := s3.snCallbacks - {msg.sn})
    else s
  }

  /** The fields the receive loop never writes are equal in `s` and `r`. */
  ghost predicate LoopFrame(s: ClientState, r: ClientState) {
    && r.snCounter == s.snCounter
    && r.subscribers == s.subscribers
    && r.watchers == s.watchers
    && r.watchValues == s.watchValues
    && r.lastConsolePrint == s.lastConsolePrint
    && r.consolePrintLines == s.consolePrintLines
    && r.closures == s.closures
    && r.outbox == s.outbox
    && r.replyEvents.Keys == s.replyEvents.Keys
    && r.snCallbacks.Keys <= s.snCallbacks.Keys
    && s.dispatched <= r.dispatched
  }

  /** The receive loop over the messages `msgs`, in arrival order. */
  function Listen(s: ClientState, msgs: seq<Msg>): (r: ClientState)
    ensures LoopFrame(s, r)
    decreases |msgs|
  {
    if msgs == [] then s else Listen(Dispatch(s, msgs[0]), msgs[1..])
  }

  /** The message of the first thread started for `cb` in `log`, if any. */
  function FirstCallTo(log: seq<Spawn>, cb: Callback): Option<Msg> {
    if log == [] then None
    else if log[0].Call? && log[0].cb == cb then Some(log[0].msg)
    else FirstCallTo(log[1..], cb)
  }

  // ---------------------------------------------------------------------
  // Subscription registry: subscribe (lines 102-148), unsubscribe (150-170)

  function Subscribe(s: ClientState, prop: string, callback: Callback, nowait: bool, during: seq<Msg>)
    : (ClientState, Result<bool>)
  {
    if prop !in s.subscribers then
      if !nowait then SubscribeAndWait(s, prop, callback, during)
      else
        var s1 := s.(subscribers := s.subscribers[prop := [callback]]);
        (Send(s1, Register, NoType, prop, "", None, false), Ok(true))
    else if prop !in s.subLastMsg then (s, Err(KeyError(prop)))
    else
      (s.(dispatched := s.dispatched + [Call(callback, s.subLastMsg[prop])],
          subscribers := s.subscribers[prop := s.subscribers[prop] + [callback]]), Ok(true))
  }

  /**
   * Lines 120-130: a temporary listener on the property and on "error", the
   * REGISTER, and the wait; the first message the listener is started with
   * decides (none: the wait timed out).
   */
  function SubscribeAndWait(s: ClientState, prop: string, callback: Callback, during: seq<Msg>)
    : (ClientState, Result<bool>)
  {
    var temp := Temp(s.closures);
    var s1 := s.(closures := s.closures + 1, subscribers := s.subscribers[prop := [temp]]);
    if "error" !in s1.subscribers then (s1, Err(KeyError("error")))
    else
      var s3 := StartWait(s1, prop, temp);
      var s4 := Listen(s3, during);
      EndWait(s4, prop, callback, temp, FirstCallTo(s4.dispatched[|s3.dispatched|..], temp))
  }

  /** Lines 128-129: the temporary listener joins the "error" list, then the REGISTER. */
  function StartWait(s: ClientState, prop: string, temp: Callback): ClientState
    requires "error" in s.subscribers
  {
    var s2 := s.(subscribers := s.subscribers["error" := s.subscribers["error"] + [temp]]);
    Send(s2, Register, NoType, prop, "", None, false)
  }

  /** Lines 131-140: what the first subscribe does once its wait has ended. */
  function EndWait(s: ClientState, prop: string, callback: Callback, temp: Callback, arrived: Option<Msg>)
    : (r: (ClientState, Result<bool>))
    ensures r.0 == s.(subscribers := r.0.subscribers, dispatched := r.0.dispatched)
    ensures s.dispatched <= r.0.dispatched
  {
    match arrived
    case None => (s.(subscribers := s.subscribers - {prop}), Ok(false))
    case Some(m) =>
      if m.cmd == Event && m.name == "error" then
        (s.(subscribers := s.subscribers - {prop}), Err(SpecError(m.body)))
      else
        var s1 := s.(dispatched := s.dispatched + [Call(callback, m)],
                     subscribers := s.subscribers[prop := [callback]]);
        if "error" !in s1.subscribers then (s1, Err(KeyError("error")))
        else if temp in s1.subscribers["error"] then
          (s1.(subscribers := s1.subscribers["error" := RemoveFirst(s1.subscribers["error"], temp)]), Ok(true))
        else (s1, Err(ValueError))
  }

  function Unsubscribe(s: ClientState, prop: string, callback: Callback): (ClientState, bool) {
    if prop in s.subscribers && callback in s.subscribers[prop] then
      var rest := RemoveFirst(s.subscribers[prop], callback);
      if |rest| == 0 then
        var s1 := Send(s.(subscribers := s.subscribers[prop := rest]), Unregister, NoType, prop, "", None, false);
        (s1.(subscribers := s1.subscribers - {prop}), true)
      else (s.(subscribers := s.subscribers[prop := rest]), true)
    else (s, false)
  }

  // ---------------------------------------------------------------------
  // Console output (lines 53-58) and run (lines 172-203)

  /** `_console_listener`: a prompt line closes the buffered output. */
  function ConsoleListener(s: ClientState, msg: Msg): (r: ClientState)
    ensures r == s.(lastConsolePrint := r.lastConsolePrint, consolePrintLines := r.consolePrintLines)
  {
    if EndsWith(msg.body, "> \n") then
      s.(lastConsolePrint := Concat(s.consolePrintLines), consolePrintLines := [])
    else s.(consolePrintLines := s.consolePrintLines + [msg.body])
  }

  function Run(s: ClientState, command: string, blocking: bool, callback: Option<Callback>, during: seq<Msg>)
    : (ClientState, Result<RunResult>)
  {
    var verb := RunVerb(blocking, callback.Some?);
    match Normalise(command)
    case Err(e) => (s, Err(e))
    case Ok(line) =>
      if blocking || callback.Some? then
        var resCb := RunCb(s.closures);
        var s1 := Send(s.(closures := s.closures + 1), verb, NoType, line, "", Some(resCb), false);
        if blocking then
          var s2 := Listen(s1, during);
          match FirstCallTo(s2.dispatched[|s1.dispatched|..], resCb)
          case None => (s2, Ok(StillWaiting))
          case Some(m) => (s2, Ok(Returned(m, s2.lastConsolePrint)))
        else (s1, Ok(NoResult))
      else (Send(s, verb, NoType, line, "", None, false), Ok(NoResult))
  }

  // ---------------------------------------------------------------------
  // Watch cache: set (205-218), get (220-232), watch (234-247), unwatch (249-258)

  function Set(s: ClientState, prop: string, value: string, during: seq<Msg>): (ClientState, Result<()>) {
    if !IsAscii(value) then (s, Err(UnicodeEncodeError))
    else
      var (s1, res) := SendAndWait(s, ChanSend, StringType, prop, value, None, during);
      if res.Some? && res.value.dataType == ErrorType then (s1, Err(SpecError(res.value.body)))
      else if prop in s1.watchValues then
        (s1.(watchValues := s1.watchValues[prop := s1.watchValues[prop].(body := value)]), Ok(()))
      else (s1, Ok(()))
  }

  function Get(s: ClientState, prop: string, during: seq<Msg>): (ClientState, Option<Msg>) {
    if prop in s.watchValues then (s, Some(s.watchValues[prop]))
    else SendAndWait(s, ChanRead, StringType, prop, "", None, during)
  }

  /** The body of the `watcher` closure (line 245). */
  function WatcherCallback(s: ClientState, prop: string, msg: Msg): (r: ClientState)
    ensures r == s.(watchValues := r.watchValues)
  {
    s.(watchValues := s.watchValues[prop := msg])
  }

  function Watch(s: ClientState, prop: string, during: seq<Msg>): (ClientState, Result<bool>) {
    var w := Watcher(prop, s.closures);
    Subscribe(s.(closures := s.closures + 1, watchers := s.watchers[prop := w]), prop, w, false, during)
  }

  function Unwatch(s: ClientState, prop: string): (ClientState, Result<()>) {
    if prop !in s.watchers then (s, Err(KeyError(prop)))
    else
      var s1 := Unsubscribe(s, prop, s.watchers[prop]).0;
      var s2 := s1.(watchers := s1.watchers - {prop});
      if prop !in s2.watchValues then (s2, Err(KeyError(prop)))
      else (s2.(watchValues := s2.watchValues - {prop}), Ok(()))
  }

  // ---------------------------------------------------------------------
  // Count (lines 314-344)

  /** `count_callback` applied to the result of a forced read (lines 330-333, 341). */
  function CountCallback(s: ClientState, values: map<string, Reading>, progress: Option<Callback>, res: Option<Msg>)
    : (r: (ClientState, Result<map<string, Reading>>))
    ensures r.0 == s.(dispatched := r.0.dispatched) && s.dispatched <= r.0.dispatched
  {
    if res.None? then (s, Err(AttributeError))
    else
      match SplitSecond(res.value.name)
      case Err(e) => (s, Err(e))
      case Ok(key) =>
        var v := values[key := Value(res.value.body)];
        if progress.Some? then (s.(dispatched := s.dispatched + [Progress(progress.value, v)]), Ok(v))
        else (s, Ok(v))
  }

  /** Lines 335-336: subscribe `cc` to the channel of every counter. */
  function CountSubscribeAll(s: ClientState, names: seq<string>, cc: Callback, waits: seq<seq<Msg>>)
    : (ClientState, Result<()>)
    requires |waits| == |names|
    decreases |names|
  {
    if names == [] then (s, Ok(()))
    else
      var (s1, r) := Subscribe(s, ScalerChannel(names[0]), cc, false, waits[0]);
      if r.Err? then (s1, Err(r.error))
      else CountSubscribeAll(s1, names[1..], cc, waits[1..])
  }

  /** Lines 340-342: force one read of every counter, then unsubscribe `cc` from it. */
  function CountFinalReads(s: ClientState, names: seq<string>, cc: Callback, progress: Option<Callback>,
                           waits: seq<seq<Msg>>, values: map<string, Reading>)
    : (ClientState, Result<map<string, Reading>>)
    requires |waits| == |names|
    decreases |names|
  {
    if names == [] then (s, Ok(values))
    else
      var channel := ScalerChannel(names[0]);
      var (s1, res) := Get(s, channel, waits[0]);
      var (s2, v) := CountCallback(s1, values, progress, res);
      if v.Err? then (s2, Err(v.error))
      else CountFinalReads(Unsubscribe(s2, channel, cc).0, names[1..], cc, progress, waits[1..], v.value)
  }

  /** The initial snapshot: every counter at 0.0 (line 329). */
  function ZeroSnapshot(names: seq<string>): (v: map<string, Reading>)
    ensures v.Keys == set m | m in names
    ensures forall m :: m in v ==> v[m] == Zero
  {
    map m | m in names :: Zero
  }

  /**
   * `count(time, callback)` with the counter names given; `timeText` is the
   * formatted time. The subscribe waits, the wait for the count command's
   * reply and the waits of the forced reads are the parameters `subWaits`,
   * `runWait` and `readWaits`.
   */
  function Count(s: ClientState, names: seq<string>, timeText: string, progress: Option<Callback>,
                 subWaits: seq<seq<Msg>>, runWait: seq<Msg>, readWaits: seq<seq<Msg>>)
    : (ClientState, Result<Option<map<string, Reading>>>)
    requires |subWaits| == |names| && |readWaits| == |names|
  {
    var cc := CountCb(s.closures);
    var s0 := s.(closures := s.closures + 1);
    var (s1, sub) := CountSubscribeAll(s0, names, cc, subWaits);
    if sub.Err? then (s1, Err(sub.error))
    else CountRunAndRead(s1, names, timeText, cc, progress, runWait, readWaits)
  }

  /** Lines 338-344: the count command, run blocking, then the final reads once it replied. */
  function CountRunAndRead(s: ClientState, names: seq<string>, timeText: string, cc: Callback,
                           progress: Option<Callback>, runWait: seq<Msg>, readWaits: seq<seq<Msg>>)
    : (ClientState, Result<Option<map<string, Reading>>>)
    requires |readWaits| == |names|
  {
    var (s2, ran) := Run(s, "count " + timeText, true, None, runWait);
    if ran.Err? then (s2, Err(ran.error))
    else if ran.value.StillWaiting? then (s2, Ok(None))
    else CountFinish(s2, names, cc, progress, readWaits)
  }

  /** Lines 340-344: the forced final reads from the zero snapshot, and the snapshot returned. */
  function CountFinish(s: ClientState, names: seq<string>, cc: Callback, progress: Option<Callback>,
                       readWaits: seq<seq<Msg>>)
    : (ClientState, Result<Option<map<string, Reading>>>)
    requires |readWaits| == |names|
  {
    var (r, v) := CountFinalReads(s, names, cc, progress, readWaits, ZeroSnapshot(names));
    if v.Err? then (r, Err(v.error)) else (r, Ok(Some(v.value)))
  }

  // ---------------------------------------------------------------------
  // Construction (lines 29-51)

  /**
   * The constructor: empty tables, the standing "error" subscription without
   * waiting, then the console subscription, which waits during `ttyWait`.
   * Its result is that of the console subscription: line 51 ignores a False,
   * but an exception it raises leaves `__init__` and no client is built.
   */
  function Init(ttyWait: seq<Msg>): (ClientState, Result<bool>) {
    var s1 := Subscribe(Empty, "error", NoCallback, true, []).0;
    Subscribe(s1, "output/tty", Console, false, ttyWait)
  }
}
