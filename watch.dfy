/**
 * Properties of the watch cache: `set` (lines 205-218), `get` (220-232),
 * `watch` (234-247) and `unwatch` (249-258).
 */
module WatchCache {
  import opened Protocol
  import opened ClientModel
  import opened Correlator
  import opened Registry

  // ---------------------------------------------------------------------
  // get

  /** A read of a watched property answers from the cache: nothing is sent, nothing changes. */
  lemma GetWatched(s: ClientState, prop: string, during: seq<Msg>)
    requires prop in s.watchValues
    ensures var (r, res) := Get(s, prop, during);
      r == s && res == Some(s.watchValues[prop])
  {
  }

  /**
   * A read of a property that is not watched sends exactly one CHAN_READ.
   * It registers no callback, so the receive loop (line 70) never files a
   * reply for it and the read gives None whatever the server answers.
   */
  lemma GetUnwatched(s: ClientState, prop: string, during: seq<Msg>)
    requires Valid(s) && prop !in s.watchValues
    ensures var (r, res) := Get(s, prop, during);
      && res == None
      && r.outbox == s.outbox + [Frame(s.snCounter + 1, ChanRead, StringType, prop, "")]
      && Valid(r)
      && r.watchValues == s.watchValues && r.watchers == s.watchers && r.subscribers == s.subscribers
  {
    SendAndWaitReturns(s, ChanRead, StringType, prop, "", None, during);
  }

  // ---------------------------------------------------------------------
  // set

  /** A value that is not ASCII fails to encode before anything is sent. */
  lemma SetNonAscii(s: ClientState, prop: string, value: string, during: seq<Msg>)
    requires !IsAscii(value)
    ensures Set(s, prop, value, during) == (s, Err(UnicodeEncodeError))
  {
  }

  /**
   * An ASCII write sends exactly one CHAN_SEND carrying the value and then
   * overwrites the cached body exactly when the property is watched. As for
   * `get`, no reply is ever filed for it, so the SV_ERROR test of line 215
   * never fires and the write succeeds.
   */
  lemma SetSends(s: ClientState, prop: string, value: string, during: seq<Msg>)
    requires Valid(s) && IsAscii(value)
    ensures var (r, res) := Set(s, prop, value, during);
      && res == Ok(())
      && r.outbox == s.outbox + [Frame(s.snCounter + 1, ChanSend, StringType, prop, value)]
      && r.watchValues == (if prop in s.watchValues
                           then s.watchValues[prop := s.watchValues[prop].(body := value)]
                           else s.watchValues)
      && Valid(r)
      && r.watchers == s.watchers && r.subscribers == s.subscribers
  {
    SendAndWaitReturns(s, ChanSend, StringType, prop, value, None, during);
  }

  /**
   * A read right after a write of a watched property returns the written
   * value at once, before any server push (the cached message keeps its
   * other fields), and the read sends nothing.
   */
  lemma SetThenGet(s: ClientState, prop: string, value: string, d1: seq<Msg>, d2: seq<Msg>)
    requires Valid(s) && IsAscii(value) && prop in s.watchValues
    ensures var s1 := Set(s, prop, value, d1).0;
      var (r, res) := Get(s1, prop, d2);
      && res == Some(s.watchValues[prop].(body := value))
      && r.outbox == s.outbox + [Frame(s.snCounter + 1, ChanSend, StringType, prop, value)]
  {
    SetSends(s, prop, value, d1);
  }

  // ---------------------------------------------------------------------
  // watch

  /** The watcher closure stores the message it is started with. */
  lemma WatcherStores(s: ClientState, prop: string, msg: Msg, during: seq<Msg>)
    ensures var r := WatcherCallback(s, prop, msg);
      && r.watchValues == s.watchValues[prop := msg]
      && Get(r, prop, during) == (r, Some(msg))
  {
  }

  /**
   * `watch` files a fresh watcher under the property and subscribes it. On
   * success the last thread started is that watcher with an event of the
   * property, so once the thread has run a `get` answers from the cache.
   */
  lemma WatchRegisters(s: ClientState, prop: string, during: seq<Msg>)
    requires Valid(s)
    ensures var (r, res) := Watch(s, prop, during);
      var w := Watcher(prop, s.closures);
      && Valid(r)
      && r.watchers == s.watchers[prop := w]
      && r.closures >= s.closures + 1
      && (res == Ok(true) ==>
            && prop in r.subscribers && w in r.subscribers[prop]
            && |r.dispatched| > 0
            && var last := r.dispatched[|r.dispatched| - 1];
               last.Call? && last.cb == w && last.msg.cmd == Event && last.msg.name == prop)
  {
    var w := Watcher(prop, s.closures);
    var s0 := s.(closures := s.closures + 1);
    ValidWithClosures(s, s0.closures);
    var s1 := s0.(watchers := s0.watchers[prop := w]);
    ValidWithWatchers(s0, s1.watchers);
    WatchIs(s, prop, during, s1);
    SubscribePreservesValid(s1, prop, w, false, during);
    WatchSubscribes(s1, prop, w, during);
  }

  /** `watch` is the subscribe of its fresh watcher, once that watcher is filed. */
  lemma WatchIs(s: ClientState, prop: string, during: seq<Msg>, s1: ClientState)
    requires s1 == s.(closures := s.closures + 1, watchers := s.watchers[prop := Watcher(prop, s.closures)])
    ensures Watch(s, prop, during) == Subscribe(s1, prop, Watcher(prop, s.closures), false, during)
  {
  }

  /** The subscribe inside `watch`, as it ends for the watcher's closure. */
  lemma WatchSubscribes(s: ClientState, prop: string, w: Callback, during: seq<Msg>)
    requires Valid(s) && AllocatedBefore(w, s.closures)
    ensures var (r, res) := Subscribe(s, prop, w, false, during);
      && r.watchers == s.watchers
      && r.closures >= s.closures
      && (res == Ok(true) ==>
            && prop in r.subscribers && w in r.subscribers[prop]
            && |r.dispatched| > 0
            && var last := r.dispatched[|r.dispatched| - 1];
               last.Call? && last.cb == w && last.msg.cmd == Event && last.msg.name == prop)
  {
    if prop in s.subscribers {
      SubscribeExisting(s, prop, w, false, during);
    } else if "error" in s.subscribers {
      SubscribeWait(s, prop, w, during);
      WaitKeepsWatchers(s, prop, w, during);
    } else if prop == "error" {
      SubscribeErrorFirst(s, w, during);
      WaitKeepsWatchers(s, prop, w, during);
    } else {
      SubscribeWaitWithoutErrorEntry(s, prop, w, during);
    }
  }

  /** A waiting first subscribe touches neither the watch tables nor closures below its own. */
  lemma WaitKeepsWatchers(s: ClientState, prop: string, callback: Callback, during: seq<Msg>)
    requires prop !in s.subscribers
    ensures var r := Subscribe(s, prop, callback, false, during).0;
      r.watchers == s.watchers && r.watchValues == s.watchValues && r.closures == s.closures + 1
  {
    assert Subscribe(s, prop, callback, false, during) == SubscribeAndWait(s, prop, callback, during);
    if "error" in s.subscribers || prop == "error" {
      WaitingKeepsWatchers(s, prop, callback, during);
    }
  }

  lemma WaitingKeepsWatchers(s: ClientState, prop: string, callback: Callback, during: seq<Msg>)
    requires "error" in s.subscribers || prop == "error"
    ensures var r := SubscribeAndWait(s, prop, callback, during).0;
      r.watchers == s.watchers && r.watchValues == s.watchValues && r.closures == s.closures + 1
  {
    var temp := Temp(s.closures);
    var s1 := s.(closures := s.closures + 1, subscribers := s.subscribers[prop := [temp]]);
    var s3 := StartWait(s1, prop, temp);
    var s4 := Listen(s3, during);
    var arrived := FirstCallTo(s4.dispatched[|s3.dispatched|..], temp);
    assert SubscribeAndWait(s, prop, callback, during) == EndWait(s4, prop, callback, temp, arrived);
    assert s3.watchers == s.watchers && s3.watchValues == s.watchValues && s3.closures == s.closures + 1;
    assert LoopFrame(s3, s4);
    EndWaitFrame(s4, prop, callback, temp, arrived);
  }

  /** The end of a first-subscribe wait leaves the watch tables, closures and frames alone. */
  lemma EndWaitFrame(s: ClientState, prop: string, callback: Callback, temp: Callback, arrived: Option<Msg>)
    ensures var r := EndWait(s, prop, callback, temp, arrived).0;
      r.watchers == s.watchers && r.watchValues == s.watchValues && r.closures == s.closures && r.outbox == s.outbox
  {
  }

  // ---------------------------------------------------------------------
  // unwatch

  /**
   * `unwatch` of a watched property removes its watcher from the property's
   * list and drops both the watcher and the cached value; every other entry
   * of the two tables stays.
   */
  lemma UnwatchRemoves(s: ClientState, prop: string)
    requires prop in s.watchers && prop in s.watchValues
    ensures var (r, res) := Unwatch(s, prop);
      && res == Ok(())
      && r.watchers == s.watchers - {prop}
      && r.watchValues == s.watchValues - {prop}
      && r.subscribers == Unsubscribe(s, prop, s.watchers[prop]).0.subscribers
      && r.outbox == Unsubscribe(s, prop, s.watchers[prop]).0.outbox
  {
  }

  /**
   * `unwatch` fails with KeyError when the property has no watcher (nothing
   * changes), or when the watcher's thread never stored a value (the watcher
   * is then already unsubscribed and dropped).
   */
  lemma UnwatchMissing(s: ClientState, prop: string)
    requires prop !in s.watchers || prop !in s.watchValues
    ensures var (r, res) := Unwatch(s, prop);
      && res == Err(KeyError(prop))
      && (prop !in s.watchers ==> r == s)
      && prop !in r.watchers
  {
  }

  /** After a successful `unwatch` a read goes to the network again, with exactly one CHAN_READ. */
  lemma UnwatchThenGet(s: ClientState, prop: string, during: seq<Msg>)
    requires Valid(s) && prop in s.watchers && prop in s.watchValues
    ensures var r := Unwatch(s, prop).0;
      var (r2, res) := Get(r, prop, during);
      && res == None
      && r2.outbox == r.outbox + [Frame(r.snCounter + 1, ChanRead, StringType, prop, "")]
  {
    var s1 := Unsubscribe(s, prop, s.watchers[prop]).0;
    UnsubscribePreservesValid(s, prop, s.watchers[prop]);
    var r := Unwatch(s, prop).0;
    assert r == s1.(watchers := s1.watchers - {prop}, watchValues := s1.watchValues - {prop});
    GetUnwatched(r, prop, during);
  }

  /** `unwatch` keeps the invariant. */
  lemma UnwatchPreservesValid(s: ClientState, prop: string)
    requires Valid(s)
    ensures Valid(Unwatch(s, prop).0)
  {
    if prop in s.watchers {
      UnsubscribePreservesValid(s, prop, s.watchers[prop]);
    }
  }

  /** `set` and `get` keep the invariant. */
  lemma SetGetPreserveValid(s: ClientState, prop: string, value: string, during: seq<Msg>)
    requires Valid(s)
    ensures Valid(Set(s, prop, value, during).0)
    ensures Valid(Get(s, prop, during).0)
  {
    if IsAscii(value) {
      SetSends(s, prop, value, during);
    }
    if prop !in s.watchValues {
      GetUnwatched(s, prop, during);
    }
  }

  /** The watcher's store only touches the cache, so it keeps the invariant. */
  lemma WatcherCallbackPreservesValid(s: ClientState, prop: string, msg: Msg)
    requires Valid(s)
    ensures Valid(WatcherCallback(s, prop, msg))
  {
    ValidWithWatchValues(s, s.watchValues[prop := msg]);
  }

  /** Every watch keeps the invariant. */
  lemma WatchPreservesValid(s: ClientState, prop: string, during: seq<Msg>)
    requires Valid(s)
    ensures Valid(Watch(s, prop, during).0)
  {
    WatchRegisters(s, prop, during);
  }
}
