/**
 * Properties of the console-output accumulator (`_console_listener`,
 * lines 53-58) and of `run` (lines 172-203): the newline normalisation, the
 * verb choice, the frame it sends and what a blocking run returns.
 */
module ConsoleRun {
  import opened Protocol
  import opened ClientModel
  import opened Correlator

  // ---------------------------------------------------------------------
  // Console accumulator

  /** The accumulator fed the bodies of `msgs` one after the other. */
  function Feed(s: ClientState, msgs: seq<Msg>): ClientState
    decreases |msgs|
  {
    if msgs == [] then s else Feed(ConsoleListener(s, msgs[0]), msgs[1..])
  }

  /** The bodies of `msgs`, in order. */
  function Bodies(msgs: seq<Msg>): (r: seq<string>)
    ensures |r| == |msgs| && forall i :: 0 <= i < |msgs| ==> r[i] == msgs[i].body
  {
    if msgs == [] then [] else [msgs[0].body] + Bodies(msgs[1..])
  }

  predicate IsPrompt(msg: Msg) {
    EndsWith(msg.body, "> \n")
  }

  /**
   * A prompt line publishes the concatenation of the buffered lines, without
   * the prompt itself, and empties the buffer; any other body is appended.
   * Nothing else in the client changes.
   */
  lemma ConsoleStep(s: ClientState, msg: Msg)
    ensures var r := ConsoleListener(s, msg);
      && (IsPrompt(msg) ==> r.lastConsolePrint == Concat(s.consolePrintLines) && r.consolePrintLines == [])
      && (!IsPrompt(msg) ==> r.lastConsolePrint == s.lastConsolePrint
                             && r.consolePrintLines == s.consolePrintLines + [msg.body])
      && r.(lastConsolePrint := s.lastConsolePrint, consolePrintLines := s.consolePrintLines) == s
  {
  }

  /** Output lines without a prompt only accumulate, in arrival order. */
  lemma {:induction false} FeedLines(s: ClientState, msgs: seq<Msg>)
    requires forall i :: 0 <= i < |msgs| ==> !IsPrompt(msgs[i])
    ensures Feed(s, msgs).consolePrintLines == s.consolePrintLines + Bodies(msgs)
    ensures Feed(s, msgs).lastConsolePrint == s.lastConsolePrint
    decreases |msgs|
  {
    if msgs != [] {
      var s1 := ConsoleListener(s, msgs[0]);
      assert !IsPrompt(msgs[0]);
      assert s1.consolePrintLines == s.consolePrintLines + [msgs[0].body] && s1.lastConsolePrint == s.lastConsolePrint;
      assert forall i :: 0 <= i < |msgs[1..]| ==> msgs[1..][i] == msgs[i + 1];
      FeedLines(s1, msgs[1..]);
      assert Feed(s, msgs) == Feed(s1, msgs[1..]);
      assert Bodies(msgs) == [msgs[0].body] + Bodies(msgs[1..]);
      AppendAssoc(s.consolePrintLines, [msgs[0].body], Bodies(msgs[1..]));
    }
  }

  lemma AppendAssoc<T>(a: seq<T>, b: seq<T>, c: seq<T>)
    ensures a + b + c == a + (b + c)
  {
  }

  /**
   * A command's output followed by the prompt publishes exactly that output
   * (after whatever was buffered before) as the last console print.
   */
  lemma {:induction false} FeedUntilPrompt(s: ClientState, msgs: seq<Msg>, prompt: Msg)
    requires forall i :: 0 <= i < |msgs| ==> !IsPrompt(msgs[i])
    requires IsPrompt(prompt)
    ensures Feed(s, msgs + [prompt]).lastConsolePrint == Concat(s.consolePrintLines + Bodies(msgs))
    ensures Feed(s, msgs + [prompt]).consolePrintLines == []
  {
    FeedSplit(s, msgs, [prompt]);
    FeedLines(s, msgs);
    var s1 := Feed(s, msgs);
    assert Feed(s1, [prompt]) == Feed(ConsoleListener(s1, prompt), []);
  }

  /** Feeding two batches is feeding the first, then the second. */
  lemma {:induction false} FeedSplit(s: ClientState, a: seq<Msg>, b: seq<Msg>)
    ensures Feed(s, a + b) == Feed(Feed(s, a), b)
    decreases |a|
  {
    if a == [] {
      assert a + b == b;
    } else {
      assert (a + b)[1..] == a[1..] + b;
      FeedSplit(ConsoleListener(s, a[0]), a[1..], b);
    }
  }

  // ---------------------------------------------------------------------
  // Normalisation and verb

  /** The newline is added only when missing, and normalising twice changes nothing. */
  lemma NormaliseExact(command: string)
    requires command != ""
    ensures command[|command| - 1] == '\n' ==> Normalise(command) == Ok(command)
    ensures command[|command| - 1] != '\n' ==> Normalise(command) == Ok(command + "\n")
    ensures Normalise(Normalise(command).value) == Normalise(command)
  {
  }

  // ---------------------------------------------------------------------
  // run

  /** An empty command fails at `console_command[-1]` and sends nothing. */
  lemma RunEmpty(s: ClientState, blocking: bool, callback: Option<Callback>, during: seq<Msg>)
    ensures Run(s, "", blocking, callback, during) == (s, Err(IndexError))
  {
  }

  /**
   * `run` sends exactly one frame: the normalised command as the property
   * name, under FUNC_WITH_RETURN when a reply is waited for or forwarded and
   * FUNC otherwise. Only in the first case is a one-shot callback, a fresh
   * `res_cb`, filed under the frame's number; no reply event is ever filed.
   */
  lemma RunSends(s: ClientState, command: string, blocking: bool, callback: Option<Callback>, during: seq<Msg>)
    requires Valid(s) && command != ""
    ensures var (r, res) := Run(s, command, blocking, callback, during);
      var n := s.snCounter + 1;
      && res.Ok?
      && Valid(r)
      && r.outbox == s.outbox + [Frame(n, RunVerb(blocking, callback.Some?), NoType, Normalise(command).value, "")]
      && r.replyEvents.Keys == s.replyEvents.Keys
      && r.subscribers == s.subscribers && r.watchValues == s.watchValues
      && ((blocking || callback.Some?) ==> r.closures == s.closures + 1)
      && (!blocking && callback.Some? ==> r.snCallbacks == s.snCallbacks[n := RunCb(s.closures)])
      && (!blocking && callback.None? ==> r == Send(s, Func, NoType, Normalise(command).value, "", None, false))
      && (!blocking ==> res == Ok(NoResult))
  {
    if blocking {
      RunSendsBlocking(s, command, callback, during);
    } else if callback.Some? {
      RunSendsForwarding(s, command, callback.value, during);
    } else {
      SendIssuesNextNumber(s, Func, NoType, Normalise(command).value, "", None, false);
    }
  }

  lemma RunBlockingIs(s: ClientState, command: string, callback: Option<Callback>, during: seq<Msg>)
    requires command != ""
    ensures var s1 := Send(s.(closures := s.closures + 1), FuncWithReturn, NoType, Normalise(command).value, "", Some(RunCb(s.closures)), false);
      var (r, res) := Run(s, command, true, callback, during);
      r == Listen(s1, during) && res.Ok?
  {
  }

  lemma RunSendsBlocking(s: ClientState, command: string, callback: Option<Callback>, during: seq<Msg>)
    requires Valid(s) && command != ""
    ensures var (r, res) := Run(s, command, true, callback, during);
      && res.Ok?
      && Valid(r)
      && r.outbox == s.outbox + [Frame(s.snCounter + 1, FuncWithReturn, NoType, Normalise(command).value, "")]
      && r.replyEvents.Keys == s.replyEvents.Keys
      && r.subscribers == s.subscribers && r.watchValues == s.watchValues
      && r.closures == s.closures + 1
  {
    var line := Normalise(command).value;
    var resCb := RunCb(s.closures);
    var s0 := s.(closures := s.closures + 1);
    ValidWithClosures(s, s0.closures);
    SendIssuesNextNumber(s0, FuncWithReturn, NoType, line, "", Some(resCb), false);
    var s1 := Send(s0, FuncWithReturn, NoType, line, "", Some(resCb), false);
    RunBlockingIs(s, command, callback, during);
    var s2 := Listen(s1, during);
    ListenPreservesValid(s1, during);
    assert LoopFrame(s1, s2);
  }

  lemma RunSendsForwarding(s: ClientState, command: string, callback: Callback, during: seq<Msg>)
    requires Valid(s) && command != ""
    ensures var (r, res) := Run(s, command, false, Some(callback), during);
      var n := s.snCounter + 1;
      && res == Ok(NoResult)
      && Valid(r)
      && r.outbox == s.outbox + [Frame(n, FuncWithReturn, NoType, Normalise(command).value, "")]
      && r.replyEvents == s.replyEvents
      && r.subscribers == s.subscribers && r.watchValues == s.watchValues
      && r.closures == s.closures + 1
      && r.snCallbacks == s.snCallbacks[n := RunCb(s.closures)]
  {
    var line := Normalise(command).value;
    var resCb := RunCb(s.closures);
    var s0 := s.(closures := s.closures + 1);
    ValidWithClosures(s, s0.closures);
    SendIssuesNextNumber(s0, FuncWithReturn, NoType, line, "", Some(resCb), false);
  }

  /**
   * A blocking run returns the first message that carries its number,
   * together with the last console print, and is still blocked while no
   * such message has arrived.
   */
  lemma RunBlocking(s: ClientState, command: string, callback: Option<Callback>, during: seq<Msg>)
    requires Valid(s) && command != ""
    ensures var (r, res) := Run(s, command, true, callback, during);
      && res.Ok?
      && match FirstWithSn(during, s.snCounter + 1)
         case None => res.value == StillWaiting
         case Some(m) => res.value == Returned(m, s.lastConsolePrint)
  {
    var line := Normalise(command).value;
    var resCb := RunCb(s.closures);
    var s0 := s.(closures := s.closures + 1);
    ValidWithClosures(s, s0.closures);
    var s1 := Send(s0, FuncWithReturn, NoType, line, "", Some(resCb), false);
    SendIssuesNextNumber(s0, FuncWithReturn, NoType, line, "", Some(resCb), false);
    var n := s1.snCounter;
    assert PendingOnlyUnder(s1, resCb, n) by {
      forall k | k in s1.snCallbacks && k != n
        ensures s1.snCallbacks[k] != resCb
      {
        assert AllocatedBefore(s.snCallbacks[k], s.closures);
      }
    }
    assert Unsubscribed(s1, resCb) by {
      forall p | p in s1.subscribers
        ensures resCb !in s1.subscribers[p]
      {
        assert AllAllocatedBefore(s.subscribers[p], s.closures);
      }
    }
    RunBlockingIs(s, command, callback, during);
    ListenFirstCallToReplyCallback(s1, during, resCb, n);
  }

  // ---------------------------------------------------------------------
  // The invariant

  /** The console listener only touches the accumulator, so it keeps the invariant. */
  lemma ConsoleListenerPreservesValid(s: ClientState, msg: Msg)
    requires Valid(s)
    ensures Valid(ConsoleListener(s, msg))
  {
    var r := ConsoleListener(s, msg);
    ValidWithConsole(s, r.lastConsolePrint, r.consolePrintLines);
  }

  /** Every run keeps the invariant, whether it sends or fails on an empty command. */
  lemma RunPreservesValid(s: ClientState, command: string, blocking: bool, callback: Option<Callback>, during: seq<Msg>)
    requires Valid(s)
    ensures Valid(Run(s, command, blocking, callback, during).0)
  {
    if command != "" {
      RunSends(s, command, blocking, callback, during);
    }
  }
}
