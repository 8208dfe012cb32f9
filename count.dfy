/**
 * Properties of `count` (lines 314-344): the key recovered from a channel
 * name, the forced final reads, and what the whole call can return.
 */
module CountScalers {
  import opened Protocol
  import opened ClientModel
  import opened Correlator
  import opened Registry
  import opened WatchCache
  import opened ConsoleRun

  // ---------------------------------------------------------------------
  // Keys

  /**
   * `name.split("/")[1]` gives back the mnemonic of its live-value channel
   * exactly when the mnemonic holds no `/`.
   */
  lemma SplitScaler(m: string)
    ensures SplitSecond(ScalerChannel(m)) == Ok(m) <==> '/' !in m
  {
    var name := ScalerChannel(m);
    assert name == "scaler/" + m + "/value";
    assert name[6] == '/';
    var i := IndexOf(name, '/').value;
    assert i == 6;
    var rest := name[7..];
    assert rest == m + "/value";
    if '/' !in m {
      assert rest[|m|] == '/';
      var j := IndexOf(rest, '/').value;
      assert j == |m|;
      assert rest[..j] == m;
    }
  }

  /** The cached body of the channel of every mnemonic that has one. */
  function Cached(watchValues: map<string, Msg>, names: seq<string>): (v: map<string, Reading>)
    ensures v.Keys == set m | m in names && ScalerChannel(m) in watchValues
  {
    map m | m in names && ScalerChannel(m) in watchValues :: Value(watchValues[ScalerChannel(m)].body)
  }

  /** Every watched channel of `names` caches a message of that channel, and no mnemonic holds `/`. */
  ghost predicate PlainNames(watchValues: map<string, Msg>, names: seq<string>) {
    forall i :: 0 <= i < |names| ==>
      && '/' !in names[i]
      && (ScalerChannel(names[i]) in watchValues ==>
            watchValues[ScalerChannel(names[i])].name == ScalerChannel(names[i]))
  }

  // ---------------------------------------------------------------------
  // count_callback

  /** A read that gave nothing fails at `res.name` (AttributeError on None). */
  lemma CountCallbackNothing(s: ClientState, values: map<string, Reading>, progress: Option<Callback>)
    ensures CountCallback(s, values, progress, None) == (s, Err(AttributeError))
  {
  }

  /**
   * A message of a counter's channel stores its body under the mnemonic and,
   * with a progress callback, starts it with the updated snapshot.
   */
  lemma CountCallbackChannel(s: ClientState, values: map<string, Reading>, progress: Option<Callback>,
                             m: string, msg: Msg)
    requires '/' !in m && msg.name == ScalerChannel(m)
    ensures var (r, v) := CountCallback(s, values, progress, Some(msg));
      var updated := values[m := Value(msg.body)];
      && v == Ok(updated)
      && r.dispatched == s.dispatched + (if progress.Some? then [Progress(progress.value, updated)] else [])
      && r.(dispatched := s.dispatched) == s
  {
    SplitScaler(m);
  }

  // ---------------------------------------------------------------------
  // The forced final reads (lines 340-342)

  /**
   * When every counter channel is watched, the final reads answer from the
   * cache and the snapshot gets every cached body under its mnemonic.
   */
  lemma {:induction false} FinalReadsWatched(s: ClientState, names: seq<string>, cc: Callback,
                                             progress: Option<Callback>, waits: seq<seq<Msg>>,
                                             values: map<string, Reading>)
    requires |waits| == |names|
    requires PlainNames(s.watchValues, names)
    requires forall i :: 0 <= i < |names| ==> ScalerChannel(names[i]) in s.watchValues
    ensures var (r, v) := CountFinalReads(s, names, cc, progress, waits, values);
      v == Ok(values + Cached(s.watchValues, names)) && r.watchValues == s.watchValues
    decreases |names|
  {
    if names == [] {
      assert Cached(s.watchValues, names) == map[];
      assert values + map[] == values;
    } else {
      var m := names[0];
      var body := s.watchValues[ScalerChannel(m)].body;
      FinalReadWatchedStep(s, names, cc, progress, waits, values);
      var s3 := FinalReadRest(s, names, cc, progress, waits, values);
      PlainNamesTail(s.watchValues, names);
      forall i | 0 <= i < |names[1..]|
        ensures ScalerChannel(names[1..][i]) in s.watchValues
      {
        assert names[1..][i] == names[i + 1];
      }
      FinalReadsWatched(s3, names[1..], cc, progress, waits[1..], values[m := Value(body)]);
      CachedCons(s.watchValues, names, values);
    }
  }

  /** The state after the first forced read, its callback and its unsubscribe. */
  function FinalReadRest(s: ClientState, names: seq<string>, cc: Callback, progress: Option<Callback>,
                         waits: seq<seq<Msg>>, values: map<string, Reading>): ClientState
    requires names != [] && |waits| == |names|
  {
    var channel := ScalerChannel(names[0]);
    var (s1, res) := Get(s, channel, waits[0]);
    Unsubscribe(CountCallback(s1, values, progress, res).0, channel, cc).0
  }

  /** One forced read of a watched channel stores its cached body and moves on. */
  lemma FinalReadWatchedStep(s: ClientState, names: seq<string>, cc: Callback, progress: Option<Callback>,
                             waits: seq<seq<Msg>>, values: map<string, Reading>)
    requires names != [] && |waits| == |names|
    requires '/' !in names[0] && ScalerChannel(names[0]) in s.watchValues
    requires s.watchValues[ScalerChannel(names[0])].name == ScalerChannel(names[0])
    ensures var m := names[0];
      var s3 := FinalReadRest(s, names, cc, progress, waits, values);
      var body := s.watchValues[ScalerChannel(m)].body;
      && CountFinalReads(s, names, cc, progress, waits, values)
           == CountFinalReads(s3, names[1..], cc, progress, waits[1..], values[m := Value(body)])
      && s3.watchValues == s.watchValues
  {
    var m := names[0];
    var channel := ScalerChannel(m);
    var msg := s.watchValues[channel];
    GetWatched(s, channel, waits[0]);
    CountCallbackChannel(s, values, progress, m, msg);
  }

  lemma PlainNamesTail(watchValues: map<string, Msg>, names: seq<string>)
    requires names != [] && PlainNames(watchValues, names)
    ensures PlainNames(watchValues, names[1..])
  {
    forall i | 0 <= i < |names[1..]|
      ensures names[1..][i] == names[i + 1]
    {
    }
  }

  /** Storing the first mnemonic's cached body, then the rest, stores them all. */
  lemma CachedCons(watchValues: map<string, Msg>, names: seq<string>, values: map<string, Reading>)
    requires names != [] && ScalerChannel(names[0]) in watchValues
    ensures var m := names[0];
      values[m := Value(watchValues[ScalerChannel(m)].body)] + Cached(watchValues, names[1..])
        == values + Cached(watchValues, names)
  {
    var m := names[0];
    var left := values[m := Value(watchValues[ScalerChannel(m)].body)] + Cached(watchValues, names[1..]);
    var right := values + Cached(watchValues, names);
    forall k
      ensures k in left <==> k in right
    {
      if k in names[1..] {
        assert k in names;
      }
      if k in names && k != m {
        assert k in names[1..];
      }
    }
    forall k | k in right
      ensures left[k] == right[k]
    {
      if k in names && k != m {
        assert k in names[1..];
      }
    }
  }

  /**
   * When some counter channel is not watched, its forced read sends a
   * CHAN_READ whose reply is never filed (line 70 wants a callback), so
   * `count_callback(None)` fails: the final reads end in AttributeError.
   */
  lemma {:induction false} FinalReadsUnwatched(s: ClientState, names: seq<string>, cc: Callback,
                                               progress: Option<Callback>, waits: seq<seq<Msg>>,
                                               values: map<string, Reading>)
    requires |waits| == |names|
    requires Valid(s) && PlainNames(s.watchValues, names)
    requires exists i :: 0 <= i < |names| && ScalerChannel(names[i]) !in s.watchValues
    ensures CountFinalReads(s, names, cc, progress, waits, values).1 == Err(AttributeError)
    decreases |names|
  {
    var m := names[0];
    var channel := ScalerChannel(m);
    if channel !in s.watchValues {
      GetUnwatched(s, channel, waits[0]);
    } else {
      var body := s.watchValues[channel].body;
      FinalReadWatchedStep(s, names, cc, progress, waits, values);
      FinalReadRestValid(s, names, cc, progress, waits, values);
      var s3 := FinalReadRest(s, names, cc, progress, waits, values);
      PlainNamesTail(s.watchValues, names);
      var i :| 0 <= i < |names| && ScalerChannel(names[i]) !in s.watchValues;
      assert i > 0 && names[1..][i - 1] == names[i];
      FinalReadsUnwatched(s3, names[1..], cc, progress, waits[1..], values[m := Value(body)]);
    }
  }

  /** The first forced read of a watched channel, its callback and its unsubscribe keep the invariant. */
  lemma FinalReadRestValid(s: ClientState, names: seq<string>, cc: Callback, progress: Option<Callback>,
                           waits: seq<seq<Msg>>, values: map<string, Reading>)
    requires names != [] && |waits| == |names|
    requires Valid(s) && ScalerChannel(names[0]) in s.watchValues
    ensures Valid(FinalReadRest(s, names, cc, progress, waits, values))
  {
    var channel := ScalerChannel(names[0]);
    GetWatched(s, channel, waits[0]);
    var s2 := CountCallback(s, values, progress, Some(s.watchValues[channel])).0;
    assert s2 == s.(dispatched := s2.dispatched);
    ValidWithDispatched(s, s2.dispatched);
    UnsubscribePreservesValid(s2, channel, cc);
  }

  // ---------------------------------------------------------------------
  // What comes before the final reads

  /** No subscribe touches the watch cache, and every one keeps the invariant. */
  lemma SubscribeFrame(s: ClientState, prop: string, callback: Callback, nowait: bool, during: seq<Msg>)
    requires Valid(s) && AllocatedBefore(callback, s.closures)
    ensures var r := Subscribe(s, prop, callback, nowait, during).0;
      Valid(r) && r.watchValues == s.watchValues && r.closures >= s.closures
  {
    SubscribePreservesValid(s, prop, callback, nowait, during);
    if prop !in s.subscribers && !nowait {
      WaitKeepsWatchers(s, prop, callback, during);
    }
  }

  /** Subscribing `cc` to every counter channel keeps the invariant and the watch cache. */
  lemma {:induction false} SubscribeAllFrame(s: ClientState, names: seq<string>, cc: Callback, waits: seq<seq<Msg>>)
    requires |waits| == |names|
    requires Valid(s) && AllocatedBefore(cc, s.closures)
    ensures var r := CountSubscribeAll(s, names, cc, waits).0;
      Valid(r) && r.watchValues == s.watchValues
    decreases |names|
  {
    if names != [] {
      var s1 := Subscribe(s, ScalerChannel(names[0]), cc, false, waits[0]).0;
      SubscribeFrame(s, ScalerChannel(names[0]), cc, false, waits[0]);
      AllocatedLater(cc, s.closures, s1.closures);
      SubscribeAllFrame(s1, names[1..], cc, waits[1..]);
    }
  }

  /**
   * A `count` that returns a snapshot got through its subscribes and the
   * reply of the count command, and then took the snapshot from its final
   * reads, in a valid state whose watch cache is the one it started with.
   */
  lemma CountShape(s: ClientState, names: seq<string>, timeText: string, progress: Option<Callback>,
                   subWaits: seq<seq<Msg>>, runWait: seq<Msg>, readWaits: seq<seq<Msg>>)
    requires Valid(s) && |subWaits| == |names| && |readWaits| == |names|
    ensures var cc := CountCb(s.closures);
      var s1 := CountSubscribeAll(s.(closures := s.closures + 1), names, cc, subWaits).0;
      var s2 := Run(s1, "count " + timeText, true, None, runWait).0;
      var res := Count(s, names, timeText, progress, subWaits, runWait, readWaits).1;
      && Valid(s2) && s2.watchValues == s.watchValues
      && (res.Ok? && res.value.Some? ==> res == CountFinish(s2, names, cc, progress, readWaits).1)
  {
    var cc := CountCb(s.closures);
    var s0 := s.(closures := s.closures + 1);
    ValidWithClosures(s, s0.closures);
    SubscribeAllFrame(s0, names, cc, subWaits);
    var s1 := CountSubscribeAll(s0, names, cc, subWaits).0;
    RunSends(s1, "count " + timeText, true, None, runWait);
    CountReturns(s, names, timeText, progress, subWaits, runWait, readWaits);
  }

  /** A snapshot is only returned by the final reads after the count command replied. */
  lemma CountReturns(s: ClientState, names: seq<string>, timeText: string, progress: Option<Callback>,
                     subWaits: seq<seq<Msg>>, runWait: seq<Msg>, readWaits: seq<seq<Msg>>)
    requires |subWaits| == |names| && |readWaits| == |names|
    ensures var cc := CountCb(s.closures);
      var s1 := CountSubscribeAll(s.(closures := s.closures + 1), names, cc, subWaits).0;
      var s2 := Run(s1, "count " + timeText, true, None, runWait).0;
      var res := Count(s, names, timeText, progress, subWaits, runWait, readWaits).1;
      res.Ok? && res.value.Some? ==> res == CountFinish(s2, names, cc, progress, readWaits).1
  {
    var cc := CountCb(s.closures);
    var p1 := CountSubscribeAll(s.(closures := s.closures + 1), names, cc, subWaits);
    var p2 := Run(p1.0, "count " + timeText, true, None, runWait);
    var res := Count(s, names, timeText, progress, subWaits, runWait, readWaits).1;
    if p1.1.Err? {
      assert res == Err(p1.1.error);
    } else if p2.1.Ok? && p2.1.value.StillWaiting? {
      assert res == Ok(None);
    } else if p2.1.Ok? {
      assert res == CountFinish(p2.0, names, cc, progress, readWaits).1;
    }
  }

  // ---------------------------------------------------------------------
  // count

  /**
   * When every counter channel is watched, a count that returns gives every
   * mnemonic the cached value of its channel, and no other key.
   */
  lemma CountWatched(s: ClientState, names: seq<string>, timeText: string, progress: Option<Callback>,
                     subWaits: seq<seq<Msg>>, runWait: seq<Msg>, readWaits: seq<seq<Msg>>)
    requires |subWaits| == |names| && |readWaits| == |names|
    requires Valid(s) && PlainNames(s.watchValues, names)
    requires forall m :: m in names ==> ScalerChannel(m) in s.watchValues
    ensures var res := Count(s, names, timeText, progress, subWaits, runWait, readWaits).1;
      res.Ok? && res.value.Some? ==> res.value.value == Cached(s.watchValues, names)
  {
    var cc := CountCb(s.closures);
    var s1 := CountSubscribeAll(s.(closures := s.closures + 1), names, cc, subWaits).0;
    var s2 := Run(s1, "count " + timeText, true, None, runWait).0;
    CountShape(s, names, timeText, progress, subWaits, runWait, readWaits);
    forall i | 0 <= i < |names|
      ensures ScalerChannel(names[i]) in s2.watchValues
    {
      assert names[i] in names;
    }
    FinalReadsWatched(s2, names, cc, progress, readWaits, ZeroSnapshot(names));
    CachedCovers(s.watchValues, names);
  }

  /**
   * When some counter channel is not watched, `count` never returns a
   * snapshot: it fails (AttributeError once the count command has replied)
   * or is still blocked.
   */
  lemma CountUnwatched(s: ClientState, names: seq<string>, timeText: string, progress: Option<Callback>,
                       subWaits: seq<seq<Msg>>, runWait: seq<Msg>, readWaits: seq<seq<Msg>>)
    requires |subWaits| == |names| && |readWaits| == |names|
    requires Valid(s) && PlainNames(s.watchValues, names)
    requires exists i :: 0 <= i < |names| && ScalerChannel(names[i]) !in s.watchValues
    ensures var res := Count(s, names, timeText, progress, subWaits, runWait, readWaits).1;
      res.Ok? ==> res.value.None?
  {
    var cc := CountCb(s.closures);
    var s1 := CountSubscribeAll(s.(closures := s.closures + 1), names, cc, subWaits).0;
    var s2 := Run(s1, "count " + timeText, true, None, runWait).0;
    CountShape(s, names, timeText, progress, subWaits, runWait, readWaits);
    FinalReadsUnwatched(s2, names, cc, progress, readWaits, ZeroSnapshot(names));
  }

  /** With every channel watched, the cached values cover the zero snapshot. */
  lemma CachedCovers(watchValues: map<string, Msg>, names: seq<string>)
    requires forall m :: m in names ==> ScalerChannel(m) in watchValues
    ensures ZeroSnapshot(names) + Cached(watchValues, names) == Cached(watchValues, names)
    ensures Cached(watchValues, names).Keys == set m | m in names
    ensures forall m :: m in names ==> Cached(watchValues, names)[m] == Value(watchValues[ScalerChannel(m)].body)
  {
  }

  // ---------------------------------------------------------------------
  // Unfoldings

  /** The first subscribe of the loop of lines 335-336, then the rest of the loop. */
  lemma SubscribeAllStep(s: ClientState, names: seq<string>, cc: Callback, waits: seq<seq<Msg>>,
                         s1: ClientState, r: Result<bool>)
    requires |waits| == |names| && names != []
    requires (s1, r) == Subscribe(s, ScalerChannel(names[0]), cc, false, waits[0])
    ensures CountSubscribeAll(s, names, cc, waits)
         == if r.Err? then (s1, Err(r.error)) else CountSubscribeAll(s1, names[1..], cc, waits[1..])
  {
  }

  /** `count` after its subscribes: the error, or the run and the final reads from there. */
  lemma CountSteps(s: ClientState, names: seq<string>, timeText: string, progress: Option<Callback>,
                   subWaits: seq<seq<Msg>>, runWait: seq<Msg>, readWaits: seq<seq<Msg>>,
                   s1: ClientState, sub: Result<()>)
    requires |subWaits| == |names| && |readWaits| == |names|
    requires (s1, sub) == CountSubscribeAll(s.(closures := s.closures + 1), names, CountCb(s.closures), subWaits)
    ensures Count(s, names, timeText, progress, subWaits, runWait, readWaits)
         == if sub.Err? then (s1, Err(sub.error))
            else
              CountRunAndRead(s1, names, timeText, CountCb(s.closures), progress, runWait, readWaits)
  {
  }

  // ---------------------------------------------------------------------
  // The invariant

  /** `count_callback` only starts threads, so it keeps the invariant. */
  lemma CountCallbackPreservesValid(s: ClientState, values: map<string, Reading>, progress: Option<Callback>,
                                    res: Option<Msg>)
    requires Valid(s)
    ensures Valid(CountCallback(s, values, progress, res).0)
  {
    ValidWithDispatched(s, CountCallback(s, values, progress, res).0.dispatched);
  }

  /** The forced reads, their callbacks and their unsubscribes keep the invariant, however they end. */
  lemma {:induction false} FinalReadsPreserveValid(s: ClientState, names: seq<string>, cc: Callback,
                                                   progress: Option<Callback>, waits: seq<seq<Msg>>,
                                                   values: map<string, Reading>)
    requires |waits| == |names| && Valid(s)
    ensures Valid(CountFinalReads(s, names, cc, progress, waits, values).0)
    decreases |names|
  {
    if names != [] {
      var channel := ScalerChannel(names[0]);
      var (s1, res) := Get(s, channel, waits[0]);
      SetGetPreserveValid(s, channel, "", waits[0]);
      var (s2, v) := CountCallback(s1, values, progress, res);
      CountCallbackPreservesValid(s1, values, progress, res);
      if v.Ok? {
        var s3 := Unsubscribe(s2, channel, cc).0;
        UnsubscribePreservesValid(s2, channel, cc);
        FinalReadsPreserveValid(s3, names[1..], cc, progress, waits[1..], v.value);
        assert CountFinalReads(s, names, cc, progress, waits, values)
            == CountFinalReads(s3, names[1..], cc, progress, waits[1..], v.value);
      }
    }
  }

  /** Every count keeps the invariant, wherever it stops. */
  lemma CountPreservesValid(s: ClientState, names: seq<string>, timeText: string, progress: Option<Callback>,
                            subWaits: seq<seq<Msg>>, runWait: seq<Msg>, readWaits: seq<seq<Msg>>)
    requires Valid(s) && |subWaits| == |names| && |readWaits| == |names|
    ensures Valid(Count(s, names, timeText, progress, subWaits, runWait, readWaits).0)
  {
    var cc := CountCb(s.closures);
    var s0 := s.(closures := s.closures + 1);
    ValidWithClosures(s, s0.closures);
    SubscribeAllFrame(s0, names, cc, subWaits);
    var (s1, sub) := CountSubscribeAll(s0, names, cc, subWaits);
    CountSteps(s, names, timeText, progress, subWaits, runWait, readWaits, s1, sub);
    if sub.Ok? {
      RunAndReadPreservesValid(s1, names, timeText, cc, progress, runWait, readWaits);
    }
  }

  /** The count command and the final reads keep the invariant, wherever they stop. */
  lemma RunAndReadPreservesValid(s: ClientState, names: seq<string>, timeText: string, cc: Callback,
                                 progress: Option<Callback>, runWait: seq<Msg>, readWaits: seq<seq<Msg>>)
    requires Valid(s) && |readWaits| == |names|
    ensures Valid(CountRunAndRead(s, names, timeText, cc, progress, runWait, readWaits).0)
  {
    RunPreservesValid(s, "count " + timeText, true, None, runWait);
    var (s2, ran) := Run(s, "count " + timeText, true, None, runWait);
    if ran.Ok? && !ran.value.StillWaiting? {
      FinalReadsPreserveValid(s2, names, cc, progress, readWaits, ZeroSnapshot(names));
    }
  }
}
