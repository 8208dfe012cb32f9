/**
 * Properties of the subscription registry: `subscribe` (lines 102-148) and
 * `unsubscribe` (lines 150-170).
 */
module Registry {
  import opened Protocol
  import opened ClientModel
  import opened Correlator

  /** The first event in `msgs` about one of the properties `names`. */
  function FirstEventNamed(msgs: seq<Msg>, names: set<string>): (r: Option<Msg>)
    ensures r.Some? ==> r.value in msgs && r.value.cmd == Event && r.value.name in names
    ensures r.None? ==> forall m :: m in msgs ==> !(m.cmd == Event && m.name in names)
  {
    if msgs == [] then None
    else if msgs[0].cmd == Event && msgs[0].name in names then Some(msgs[0])
    else FirstEventNamed(msgs[1..], names)
  }

  lemma AllocatedLater(cb: Callback, k: nat, k': nat)
    requires AllocatedBefore(cb, k) && k <= k'
    ensures AllocatedBefore(cb, k')
  {
  }

  lemma FirstCallToCallsHolding(cbs: seq<Callback>, msg: Msg, cb: Callback)
    requires cb in cbs
    ensures FirstCallTo(Calls(cbs, msg), cb) == Some(msg)
    decreases |cbs|
  {
    if cbs[0] != cb {
      assert Calls(cbs, msg)[1..] == Calls(cbs[1..], msg);
      FirstCallToCallsHolding(cbs[1..], msg, cb);
    }
  }

  /** `cb` is in the list of exactly the properties `names`, and no request waits with it. */
  ghost predicate ListenedOnlyBy(s: ClientState, cb: Callback, names: set<string>) {
    && names <= s.subscribers.Keys
    && (forall p :: p in s.subscribers ==> (cb in s.subscribers[p] <==> p in names))
    && (forall k :: k in s.snCallbacks ==> s.snCallbacks[k] != cb)
  }

  /**
   * A callback that listens on the properties `names` is first started on
   * the first event about one of them.
   */
  lemma {:induction false} ListenFirstCallToListener(s: ClientState, msgs: seq<Msg>, cb: Callback, names: set<string>)
    requires ListenedOnlyBy(s, cb, names)
    ensures var r := Listen(s, msgs);
      FirstCallTo(r.dispatched[|s.dispatched|..], cb) == FirstEventNamed(msgs, names)
    decreases |msgs|
  {
    var r := Listen(s, msgs);
    if msgs == [] {
      assert r.dispatched[|s.dispatched|..] == [];
    } else {
      var m := msgs[0];
      var s1 := Dispatch(s, m);
      var tail := r.dispatched[|s1.dispatched|..];
      ListenLogSplit(s, msgs);
      DispatchCallbacksShrink(s, m);
      assert FirstCallTo(ReplyCalls(s, m), cb).None?;
      FirstCallToAppend(EventCalls(s, m), ReplyCalls(s, m), cb);
      FirstCallToAppend(EventCalls(s, m) + ReplyCalls(s, m), tail, cb);
      if m.cmd == Event && m.name in names {
        FirstCallToCallsHolding(s.subscribers[m.name], m, cb);
      } else {
        FirstCallToCalls(if m.cmd == Event && m.name in s.subscribers then s.subscribers[m.name] else [], m, cb);
        assert s1.subscribers == s.subscribers;
        ListenFirstCallToListener(s1, msgs[1..], cb, names);
      }
    }
  }

  // ---------------------------------------------------------------------
  // subscribe

  /**
   * A property that already has an entry gets the callback at the end of its
   * list, and the callback is started with the cached last message; nothing
   * is sent. Without a cached message the lookup at line 145 fails.
   */
  lemma SubscribeExisting(s: ClientState, prop: string, callback: Callback, nowait: bool, during: seq<Msg>)
    requires prop in s.subscribers
    ensures var (r, res) := Subscribe(s, prop, callback, nowait, during);
      if prop in s.subLastMsg then
        && res == Ok(true)
        && r.subscribers == s.subscribers[prop := s.subscribers[prop] + [callback]]
        && r.dispatched == s.dispatched + [Call(callback, s.subLastMsg[prop])]
        && r.outbox == s.outbox && r.snCounter == s.snCounter
      else res == Err(KeyError(prop)) && r == s
  {
  }

  /** A first subscribe without waiting installs `[callback]` and sends one REGISTER. */
  lemma SubscribeNowait(s: ClientState, prop: string, callback: Callback, during: seq<Msg>)
    requires prop !in s.subscribers
    ensures var (r, res) := Subscribe(s, prop, callback, true, during);
      && res == Ok(true)
      && r.subscribers == s.subscribers[prop := [callback]]
      && r.outbox == s.outbox + [Frame(s.snCounter + 1, Register, NoType, prop, "")]
      && r.dispatched == s.dispatched
  {
  }

  /**
   * A first subscribe that waits, when the standing "error" entry exists,
   * ends by whichever of the two comes first among the messages that arrive:
   * an event of the property (success: the list is exactly `[callback]`, the
   * callback gets that event, the "error" list is restored), an event on
   * "error" (the entry is removed and SpecError is raised with its body), or
   * neither (the entry is removed and False is returned). In the last two
   * cases the temporary listener stays in the "error" list.
   */
  lemma SubscribeWait(s: ClientState, prop: string, callback: Callback, during: seq<Msg>)
    requires Valid(s) && AllocatedBefore(callback, s.closures)
    requires prop !in s.subscribers && "error" in s.subscribers
    ensures var (r, res) := Subscribe(s, prop, callback, false, during);
      var leaked := s.subscribers["error" := s.subscribers["error"] + [Temp(s.closures)]];
      && Valid(r)
      && r.outbox == s.outbox + [Frame(s.snCounter + 1, Register, NoType, prop, "")]
      && match FirstEventNamed(during, {prop, "error"})
         case None => res == Ok(false) && r.subscribers == leaked
         case Some(m) =>
           if m.name == "error" then res == Err(SpecError(m.body)) && r.subscribers == leaked
           else
             && res == Ok(true)
             && r.subscribers == s.subscribers[prop := [callback]]
             && r.dispatched[|r.dispatched| - 1] == Call(callback, m)
             && prop in r.subLastMsg
  {
    var temp := Temp(s.closures);
    var s1 := s.(closures := s.closures + 1, subscribers := s.subscribers[prop := [temp]]);
    var s3 := StartWait(s1, prop, temp);
    var s4 := Listen(s3, during);
    SubscribeWaitIs(s, prop, callback, during);
    WaitArrives(s, prop, during);
    AllocatedLater(callback, s.closures, s4.closures);
    var arrived := FirstEventNamed(during, {prop, "error"});
    if arrived.Some? && arrived.value.name != "error" {
      EndWaitArrives(s4, s.subscribers, prop, callback, temp, arrived);
    } else {
      EndWaitGivesUp(s4, s.subscribers, prop, callback, temp, arrived);
    }
  }

  /**
   * The wait of a first subscribe: the temporary listener is first started
   * with the first event of the property or of "error", which is then that
   * property's last message; the wait sends nothing and keeps the lists.
   */
  lemma WaitArrives(s: ClientState, prop: string, during: seq<Msg>)
    requires Valid(s)
    requires prop !in s.subscribers && "error" in s.subscribers
    ensures var temp := Temp(s.closures);
      var s1 := s.(closures := s.closures + 1, subscribers := s.subscribers[prop := [temp]]);
      var s3 := StartWait(s1, prop, temp);
      var s4 := Listen(s3, during);
      var arrived := FirstCallTo(s4.dispatched[|s3.dispatched|..], temp);
      && Valid(s4)
      && temp !in s.subscribers["error"]
      && s4.subscribers == s.subscribers[prop := [temp]]["error" := s.subscribers["error"] + [temp]]
      && s4.outbox == s.outbox + [Frame(s.snCounter + 1, Register, NoType, prop, "")]
      && s4.closures == s.closures + 1
      && arrived == FirstEventNamed(during, {prop, "error"})
      && (arrived.Some? ==> arrived.value.cmd == Event && arrived.value.name in {prop, "error"}
                            && arrived.value.name in s4.subLastMsg)
  {
    var temp := Temp(s.closures);
    var s1 := s.(closures := s.closures + 1, subscribers := s.subscribers[prop := [temp]]);
    var s3 := StartWait(s1, prop, temp);
    var s4 := Listen(s3, during);
    var log := s4.dispatched[|s3.dispatched|..];
    PrepareWait(s, prop);
    ListenPreservesValid(s3, during);
    ListenFirstCallToListener(s3, during, temp, {prop, "error"});
    if FirstCallTo(log, temp).Some? {
      FirstCallToIn(log, temp);
      ListenEventCall(s3, during, temp, FirstCallTo(log, temp).value);
    }
  }

  /**
   * Before the wait of a first subscribe: the temporary listener is in the
   * lists of exactly the property and "error", the REGISTER is sent, and the
   * invariant holds.
   */
  lemma PrepareWait(s: ClientState, prop: string)
    requires Valid(s)
    requires prop !in s.subscribers && "error" in s.subscribers
    ensures var temp := Temp(s.closures);
      var errs := s.subscribers["error"];
      var s1 := s.(closures := s.closures + 1, subscribers := s.subscribers[prop := [temp]]);
      var s3 := StartWait(s1, prop, temp);
      && temp !in errs
      && Valid(s3)
      && ListenedOnlyBy(s3, temp, {prop, "error"})
      && s3.subscribers == s.subscribers[prop := [temp]]["error" := errs + [temp]]
      && s3.outbox == s.outbox + [Frame(s.snCounter + 1, Register, NoType, prop, "")]
      && s3.closures == s.closures + 1
  {
    var temp := Temp(s.closures);
    var errs := s.subscribers["error"];
    assert temp !in errs by {
      assert AllAllocatedBefore(errs, s.closures);
    }
    var s1 := s.(closures := s.closures + 1, subscribers := s.subscribers[prop := [temp]]);
    var s2 := s1.(subscribers := s1.subscribers["error" := errs + [temp]]);
    assert Valid(s2) by {
      forall p | p in s2.subscribers
        ensures AllAllocatedBefore(s2.subscribers[p], s2.closures)
      {
        if p != prop && p != "error" {
          assert AllAllocatedBefore(s.subscribers[p], s.closures);
        }
      }
      forall n | n in s2.snCallbacks
        ensures AllocatedBefore(s2.snCallbacks[n], s2.closures)
      {
        AllocatedLater(s.snCallbacks[n], s.closures, s2.closures);
      }
    }
    var s3 := Send(s2, Register, NoType, prop, "", None, false);
    SendIssuesNextNumber(s2, Register, NoType, prop, "", None, false);
    assert ListenedOnlyBy(s3, temp, {prop, "error"}) by {
      forall p | p in s3.subscribers
        ensures temp in s3.subscribers[p] <==> p in {prop, "error"}
      {
        if p != prop && p != "error" {
          assert AllAllocatedBefore(s.subscribers[p], s.closures);
        }
      }
      forall k | k in s3.snCallbacks
        ensures s3.snCallbacks[k] != temp
      {
        assert AllocatedBefore(s.snCallbacks[k], s.closures);
      }
    }
  }

  /** No message, or an error event: the property's entry goes, the temporary listener stays on "error". */
  lemma EndWaitGivesUp(s: ClientState, before: map<string, seq<Callback>>, prop: string, callback: Callback,
                       temp: Callback, arrived: Option<Msg>)
    requires Valid(s)
    requires prop !in before && "error" in before
    requires s.subscribers == before[prop := [temp]]["error" := before["error"] + [temp]]
    requires arrived.Some? ==> arrived.value.cmd == Event && arrived.value.name == "error"
    ensures var (r, res) := EndWait(s, prop, callback, temp, arrived);
      && r == s.(subscribers := before["error" := before["error"] + [temp]])
      && res == (if arrived.None? then Ok(false) else Err(SpecError(arrived.value.body)))
      && Valid(r)
  {
    var leaked := before["error" := before["error"] + [temp]];
    assert s.subscribers - {prop} == leaked;
    ListsAllocatedRemove(s.subscribers, s.closures, prop);
    ValidWithSubscribers(s, leaked);
  }

  /** The property's own event: the callback replaces the listener, which leaves "error" again. */
  lemma EndWaitArrives(s: ClientState, before: map<string, seq<Callback>>, prop: string, callback: Callback,
                       temp: Callback, arrived: Option<Msg>)
    requires Valid(s) && AllocatedBefore(callback, s.closures)
    requires prop !in before && "error" in before && temp !in before["error"]
    requires s.subscribers == before[prop := [temp]]["error" := before["error"] + [temp]]
    requires arrived.Some? && arrived.value.cmd == Event && arrived.value.name != "error"
    ensures var (r, res) := EndWait(s, prop, callback, temp, arrived);
      && res == Ok(true)
      && r == s.(dispatched := s.dispatched + [Call(callback, arrived.value)], subscribers := before[prop := [callback]])
      && Valid(r)
  {
    var m := arrived.value;
    var errs := before["error"];
    var subs1 := s.subscribers[prop := [callback]];
    assert subs1["error"] == errs + [temp];
    RemoveFirstAppended(errs, temp);
    assert subs1["error" := errs] == before[prop := [callback]];
    var s1 := s.(dispatched := s.dispatched + [Call(callback, m)]);
    ValidWithDispatched(s, s1.dispatched);
    var subs := before[prop := [callback]];
    forall p | p in subs
      ensures AllAllocatedBefore(subs[p], s.closures)
    {
      if p == "error" {
        forall c | c in errs
          ensures AllocatedBefore(c, s.closures)
        {
          assert c in s.subscribers["error"];
        }
      } else if p != prop {
        assert subs[p] == s.subscribers[p];
      }
    }
    ValidWithSubscribers(s1, subs);
  }

  /**
   * Without the standing "error" entry a waiting first subscribe fails at
   * line 127 after installing the temporary listener, and sends nothing.
   */
  lemma SubscribeWaitWithoutErrorEntry(s: ClientState, prop: string, callback: Callback, during: seq<Msg>)
    requires Valid(s)
    requires prop !in s.subscribers && "error" !in s.subscribers && prop != "error"
    ensures var (r, res) := Subscribe(s, prop, callback, false, during);
      && res == Err(KeyError("error"))
      && r.subscribers == s.subscribers[prop := [Temp(s.closures)]]
      && r.outbox == s.outbox
      && Valid(r)
  {
    var temp := Temp(s.closures);
    var s1 := s.(closures := s.closures + 1, subscribers := s.subscribers[prop := [temp]]);
    assert SubscribeAndWait(s, prop, callback, during) == (s1, Err(KeyError("error")));
    assert Subscribe(s, prop, callback, false, during) == SubscribeAndWait(s, prop, callback, during);
    assert Valid(s1) by {
      forall p | p in s1.subscribers
        ensures AllAllocatedBefore(s1.subscribers[p], s1.closures)
      {
        if p != prop {
          assert AllAllocatedBefore(s.subscribers[p], s.closures);
        }
      }
      forall n | n in s1.snCallbacks
        ensures AllocatedBefore(s1.snCallbacks[n], s1.closures)
      {
        AllocatedLater(s.snCallbacks[n], s.closures, s1.closures);
      }
    }
  }

  lemma SubscribeNowaitValid(s: ClientState, prop: string, callback: Callback, during: seq<Msg>)
    requires Valid(s) && AllocatedBefore(callback, s.closures)
    requires prop !in s.subscribers
    ensures Valid(Subscribe(s, prop, callback, true, during).0)
  {
    var s1 := s.(subscribers := s.subscribers[prop := [callback]]);
    assert Valid(s1);
    SendIssuesNextNumber(s1, Register, NoType, prop, "", None, false);
    assert Subscribe(s, prop, callback, true, during).0 == Send(s1, Register, NoType, prop, "", None, false);
  }

  lemma SubscribeExistingValid(s: ClientState, prop: string, callback: Callback, nowait: bool, during: seq<Msg>)
    requires Valid(s) && AllocatedBefore(callback, s.closures)
    requires prop in s.subscribers
    ensures Valid(Subscribe(s, prop, callback, nowait, during).0)
  {
    if prop in s.subLastMsg {
      assert AllAllocatedBefore(s.subscribers[prop], s.closures);
    }
  }

  /**
   * Waiting on "error" itself before it has an entry puts the temporary
   * listener twice into the new "error" list; the wait then ends with an
   * "error" event (SpecError) or with nothing (False).
   */
  lemma SubscribeErrorFirst(s: ClientState, callback: Callback, during: seq<Msg>)
    requires Valid(s) && "error" !in s.subscribers
    ensures var (r, res) := Subscribe(s, "error", callback, false, during);
      match FirstEventNamed(during, {"error"})
      case None => res == Ok(false) && r.subscribers == s.subscribers
      case Some(m) => res == Err(SpecError(m.body)) && r.subscribers == s.subscribers
  {
    var temp := Temp(s.closures);
    var s1 := s.(closures := s.closures + 1, subscribers := s.subscribers["error" := [temp]]);
    var s3 := StartWait(s1, "error", temp);
    var s4 := Listen(s3, during);
    var arrived := FirstCallTo(s4.dispatched[|s3.dispatched|..], temp);
    SubscribeWaitIs(s, "error", callback, during);
    PrepareErrorWait(s);
    ListenFirstCallToListener(s3, during, temp, {"error"});
    EndWaitOnError(s4, callback, temp, arrived);
    MapRemoveAdded(s.subscribers, "error", [temp, temp]);
  }

  /** The end of a wait on "error" itself: only an "error" event or nothing can have arrived. */
  lemma EndWaitOnError(s: ClientState, callback: Callback, temp: Callback, arrived: Option<Msg>)
    requires arrived.Some? ==> arrived.value.cmd == Event && arrived.value.name == "error"
    ensures EndWait(s, "error", callback, temp, arrived)
         == (s.(subscribers := s.subscribers - {"error"}),
             if arrived.None? then Ok(false) else Err(SpecError(arrived.value.body)))
  {
  }

  lemma MapRemoveAdded<K, V>(m: map<K, V>, k: K, v: V)
    requires k !in m
    ensures m[k := v] - {k} == m
  {
  }

  /** A first subscribe that waits is the wait's start, the receive loop, and the wait's end. */
  lemma SubscribeWaitIs(s: ClientState, prop: string, callback: Callback, during: seq<Msg>)
    requires prop !in s.subscribers && ("error" in s.subscribers || prop == "error")
    ensures var temp := Temp(s.closures);
      var s1 := s.(closures := s.closures + 1, subscribers := s.subscribers[prop := [temp]]);
      var s3 := StartWait(s1, prop, temp);
      var s4 := Listen(s3, during);
      Subscribe(s, prop, callback, false, during)
        == EndWait(s4, prop, callback, temp, FirstCallTo(s4.dispatched[|s3.dispatched|..], temp))
  {
  }

  lemma PrepareErrorWait(s: ClientState)
    requires Valid(s) && "error" !in s.subscribers
    ensures var temp := Temp(s.closures);
      var s1 := s.(closures := s.closures + 1, subscribers := s.subscribers["error" := [temp]]);
      var s3 := StartWait(s1, "error", temp);
      && ListenedOnlyBy(s3, temp, {"error"})
      && s3.subscribers == s.subscribers["error" := [temp, temp]]
  {
    var temp := Temp(s.closures);
    var s1 := s.(closures := s.closures + 1, subscribers := s.subscribers["error" := [temp]]);
    var s3 := StartWait(s1, "error", temp);
    assert s1.subscribers["error"] + [temp] == [temp, temp];
    assert s3.subscribers == s1.subscribers["error" := [temp, temp]];
    assert s3.subscribers == s.subscribers["error" := [temp, temp]];
    forall p | p in s3.subscribers
      ensures temp in s3.subscribers[p] <==> p in {"error"}
    {
      if p != "error" {
        assert AllAllocatedBefore(s.subscribers[p], s.closures);
      }
    }
    forall k | k in s3.snCallbacks
      ensures s3.snCallbacks[k] != temp
    {
      assert AllocatedBefore(s.snCallbacks[k], s.closures);
    }
  }

  /**
   * The ValueError branch of line 140 cannot be taken: whenever the wait
   * ends with an event of the property, the temporary listener is still in
   * the "error" list.
   */
  lemma SubscribeNeverValueError(s: ClientState, prop: string, callback: Callback, nowait: bool, during: seq<Msg>)
    requires Valid(s) && AllocatedBefore(callback, s.closures)
    ensures Subscribe(s, prop, callback, nowait, during).1 != Err(ValueError)
  {
    if prop in s.subscribers {
      SubscribeExisting(s, prop, callback, nowait, during);
    } else if nowait {
      SubscribeNowait(s, prop, callback, during);
    } else if "error" in s.subscribers {
      SubscribeWait(s, prop, callback, during);
    } else if prop == "error" {
      SubscribeErrorFirst(s, callback, during);
    } else {
      SubscribeWaitWithoutErrorEntry(s, prop, callback, during);
    }
  }

  /** The end of a first-subscribe wait keeps the invariant, whatever arrived. */
  lemma EndWaitValid(s: ClientState, prop: string, callback: Callback, temp: Callback, arrived: Option<Msg>)
    requires Valid(s) && AllocatedBefore(callback, s.closures)
    ensures Valid(EndWait(s, prop, callback, temp, arrived).0)
  {
    if arrived.Some? && !(arrived.value.cmd == Event && arrived.value.name == "error") {
      EndWaitArrivedValid(s, prop, callback, temp, arrived.value);
    } else {
      EndWaitDroppedValid(s, prop, callback, temp, arrived);
    }
  }

  lemma EndWaitDroppedValid(s: ClientState, prop: string, callback: Callback, temp: Callback, arrived: Option<Msg>)
    requires Valid(s)
    requires !(arrived.Some? && !(arrived.value.cmd == Event && arrived.value.name == "error"))
    ensures Valid(EndWait(s, prop, callback, temp, arrived).0)
  {
    ListsAllocatedRemove(s.subscribers, s.closures, prop);
    ValidWithSubscribers(s, s.subscribers - {prop});
  }

  lemma EndWaitArrivedValid(s: ClientState, prop: string, callback: Callback, temp: Callback, m: Msg)
    requires Valid(s) && AllocatedBefore(callback, s.closures)
    requires !(m.cmd == Event && m.name == "error")
    ensures Valid(EndWait(s, prop, callback, temp, Some(m)).0)
  {
    var s0 := s.(dispatched := s.dispatched + [Call(callback, m)]);
    ValidWithDispatched(s, s0.dispatched);
    ListsAllocatedUpdate(s0.subscribers, s0.closures, prop, [callback]);
    var s1 := s0.(subscribers := s0.subscribers[prop := [callback]]);
    ValidWithSubscribers(s0, s1.subscribers);
    if "error" in s1.subscribers {
      RemoveTempValid(s1, temp);
    }
  }

  /** Taking the temporary listener out of the "error" list keeps the invariant. */
  lemma RemoveTempValid(s: ClientState, temp: Callback)
    requires Valid(s) && "error" in s.subscribers
    ensures Valid(s.(subscribers := s.subscribers["error" := RemoveFirst(s.subscribers["error"], temp)]))
  {
    var errs := s.subscribers["error"];
    assert AllAllocatedBefore(RemoveFirst(errs, temp), s.closures) by {
      assert AllAllocatedBefore(errs, s.closures);
      forall c | c in RemoveFirst(errs, temp)
        ensures AllocatedBefore(c, s.closures)
      {
        RemoveFirstSubset(errs, temp, c);
      }
    }
    ListsAllocatedUpdate(s.subscribers, s.closures, "error", RemoveFirst(errs, temp));
    ValidWithSubscribers(s, s.subscribers["error" := RemoveFirst(errs, temp)]);
  }

  /** A waiting first subscribe keeps the invariant on every path. */
  lemma SubscribeAndWaitValid(s: ClientState, prop: string, callback: Callback, during: seq<Msg>)
    requires Valid(s) && AllocatedBefore(callback, s.closures)
    requires prop !in s.subscribers
    ensures Valid(SubscribeAndWait(s, prop, callback, during).0)
  {
    if "error" in s.subscribers || prop == "error" {
      SubscribeWaitingValid(s, prop, callback, during);
    } else {
      WaitStartValid(s, prop);
    }
  }

  lemma SubscribeWaitingValid(s: ClientState, prop: string, callback: Callback, during: seq<Msg>)
    requires Valid(s) && AllocatedBefore(callback, s.closures)
    requires prop !in s.subscribers
    requires "error" in s.subscribers || prop == "error"
    ensures Valid(SubscribeAndWait(s, prop, callback, during).0)
  {
    var temp := Temp(s.closures);
    var s1 := s.(closures := s.closures + 1, subscribers := s.subscribers[prop := [temp]]);
    WaitStartValid(s, prop);
    var s3 := StartWait(s1, prop, temp);
    var s4 := Listen(s3, during);
    var arrived := FirstCallTo(s4.dispatched[|s3.dispatched|..], temp);
    assert SubscribeAndWait(s, prop, callback, during) == EndWait(s4, prop, callback, temp, arrived);
    ListenPreservesValid(s3, during);
    AllocatedLater(callback, s.closures, s4.closures);
    EndWaitValid(s4, prop, callback, temp, arrived);
  }

  /** The temporary listener installed, and the REGISTER sent, by a waiting first subscribe. */
  lemma WaitStartValid(s: ClientState, prop: string)
    requires Valid(s)
    ensures var temp := Temp(s.closures);
      var s1 := s.(closures := s.closures + 1, subscribers := s.subscribers[prop := [temp]]);
      && Valid(s1)
      && ("error" in s1.subscribers ==> Valid(StartWait(s1, prop, temp)))
  {
    var temp := Temp(s.closures);
    var s0 := s.(closures := s.closures + 1);
    ValidWithClosures(s, s0.closures);
    ListsAllocatedUpdate(s0.subscribers, s0.closures, prop, [temp]);
    var s1 := s0.(subscribers := s0.subscribers[prop := [temp]]);
    ValidWithSubscribers(s0, s1.subscribers);
    if "error" in s1.subscribers {
      var errs := s1.subscribers["error"];
      assert AllAllocatedBefore(errs + [temp], s1.closures) by {
        assert AllAllocatedBefore(errs, s1.closures);
      }
      ListsAllocatedUpdate(s1.subscribers, s1.closures, "error", errs + [temp]);
      var s2 := s1.(subscribers := s1.subscribers["error" := errs + [temp]]);
      ValidWithSubscribers(s1, s2.subscribers);
      SendIssuesNextNumber(s2, Register, NoType, prop, "", None, false);
    }
  }

  /** Every subscribe keeps the invariant. */
  lemma SubscribePreservesValid(s: ClientState, prop: string, callback: Callback, nowait: bool, during: seq<Msg>)
    requires Valid(s) && AllocatedBefore(callback, s.closures)
    ensures Valid(Subscribe(s, prop, callback, nowait, during).0)
  {
    if prop in s.subscribers {
      SubscribeExistingValid(s, prop, callback, nowait, during);
    } else if nowait {
      SubscribeNowaitValid(s, prop, callback, during);
    } else {
      SubscribeAndWaitValid(s, prop, callback, during);
    }
  }

  // ---------------------------------------------------------------------
  // unsubscribe

  /**
   * Removing a registered callback takes one copy of it out of the list and
   * returns True; the entry is deleted, with one UNREGISTER sent, exactly
   * when the list becomes empty.
   */
  lemma UnsubscribeFound(s: ClientState, prop: string, callback: Callback)
    requires prop in s.subscribers && callback in s.subscribers[prop]
    ensures var (r, found) := Unsubscribe(s, prop, callback);
      var rest := RemoveFirst(s.subscribers[prop], callback);
      && found
      && multiset(rest) == multiset(s.subscribers[prop]) - multiset{callback}
      && (|s.subscribers[prop]| == 1 <==> prop !in r.subscribers)
      && (|s.subscribers[prop]| == 1 ==>
            && r.subscribers == s.subscribers - {prop}
            && r.outbox == s.outbox + [Frame(s.snCounter + 1, Unregister, NoType, prop, "")])
      && (|s.subscribers[prop]| != 1 ==>
            r.subscribers == s.subscribers[prop := rest] && r.outbox == s.outbox)
      && r.dispatched == s.dispatched && r.subLastMsg == s.subLastMsg
  {
    var rest := RemoveFirst(s.subscribers[prop], callback);
    RemoveFirstMultiset(s.subscribers[prop], callback);
    var s0 := s.(subscribers := s.subscribers[prop := rest]);
    if |rest| == 0 {
      var s1 := Send(s0, Unregister, NoType, prop, "", None, false);
      assert Unsubscribe(s, prop, callback) == (s1.(subscribers := s1.subscribers - {prop}), true);
      MapRemoveUpdated(s.subscribers, prop, rest);
    } else {
      assert Unsubscribe(s, prop, callback) == (s0, true);
    }
  }

  lemma MapRemoveUpdated<K, V>(m: map<K, V>, k: K, v: V)
    ensures m[k := v] - {k} == m - {k}
  {
  }

  /** A callback not in the property's list: False, nothing changed, nothing sent. */
  lemma UnsubscribeMissing(s: ClientState, prop: string, callback: Callback)
    requires !(prop in s.subscribers && callback in s.subscribers[prop])
    ensures Unsubscribe(s, prop, callback) == (s, false)
  {
  }

  /** Unsubscribing a callback registered once makes a repeated call return False. */
  lemma UnsubscribeTwice(s: ClientState, prop: string, callback: Callback)
    requires prop in s.subscribers && multiset(s.subscribers[prop])[callback] == 1
    ensures var r := Unsubscribe(s, prop, callback).0;
      Unsubscribe(r, prop, callback) == (r, false)
  {
    var rest := RemoveFirst(s.subscribers[prop], callback);
    RemoveFirstMultiset(s.subscribers[prop], callback);
    assert multiset(rest)[callback] == 0;
    var r := Unsubscribe(s, prop, callback).0;
    if prop in r.subscribers {
      assert r.subscribers[prop] == rest;
      assert callback !in rest;
    }
  }

  lemma UnsubscribePreservesValid(s: ClientState, prop: string, callback: Callback)
    requires Valid(s)
    ensures Valid(Unsubscribe(s, prop, callback).0)
  {
    if prop in s.subscribers && callback in s.subscribers[prop] {
      var rest := RemoveFirst(s.subscribers[prop], callback);
      assert AllAllocatedBefore(rest, s.closures) by {
        forall cb | cb in rest ensures AllocatedBefore(cb, s.closures) {
          RemoveFirstSubset(s.subscribers[prop], callback, cb);
          assert AllAllocatedBefore(s.subscribers[prop], s.closures);
        }
      }
      var s1 := s.(subscribers := s.subscribers[prop := rest]);
      assert Valid(s1);
      if |rest| == 0 {
        SendIssuesNextNumber(s1, Unregister, NoType, prop, "", None, false);
      }
    }
  }

  // ---------------------------------------------------------------------
  // Construction

  /**
   * A new client has sent two REGISTER frames, numbers 1 and 2: the
   * standing "error" subscription and the console's. The console's wait
   * decides the constructor's outcome: an "output/tty" event before any
   * "error" event leaves exactly the two standing lists; an "error" event
   * first raises SpecError with its body out of the constructor; no decisive
   * event is a timeout, which the constructor ignores. In the last two cases
   * the temporary listener is left behind in the "error" list.
   */
  lemma InitSubscribes(ttyWait: seq<Msg>)
    ensures var (r, res) := Init(ttyWait);
      var leaked := map["error" := [NoCallback, Temp(0)]];
      && Valid(r)
      && r.outbox == [Frame(1, Register, NoType, "error", ""), Frame(2, Register, NoType, "output/tty", "")]
      && match FirstEventNamed(ttyWait, {"output/tty", "error"})
         case None => res == Ok(false) && r.subscribers == leaked
         case Some(m) =>
           if m.name == "error" then res == Err(SpecError(m.body)) && r.subscribers == leaked
           else res == Ok(true) && r.subscribers == map["error" := [NoCallback], "output/tty" := [Console]]
  {
    var s1 := Subscribe(Empty, "error", NoCallback, true, []).0;
    SubscribeNowait(Empty, "error", NoCallback, []);
    SubscribeNowaitValid(Empty, "error", NoCallback, []);
    assert s1.subscribers == map["error" := [NoCallback]];
    SubscribeWait(s1, "output/tty", Console, ttyWait);
    var first := FirstEventNamed(ttyWait, {"output/tty", "error"});
    if !(first.Some? && first.value.name == "output/tty") {
      assert s1.closures == 0;
      assert s1.subscribers["error"] + [Temp(0)] == [NoCallback, Temp(0)];
      assert s1.subscribers["error" := s1.subscribers["error"] + [Temp(s1.closures)]]
          == map["error" := [NoCallback, Temp(0)]];
    }
  }
}
