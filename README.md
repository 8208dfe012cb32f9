# pycertifspec `Client` bookkeeping, in Dafny

pycertifspec talks to a SPEC server (the diffractometer control program)
over its binary protocol. `pycertifspec/Client.py` keeps the client's state
in a few in-memory tables, which the calling thread and the receive thread
update in place:

- the **request correlator**: the sequence-number counter `_sn_counter`, the
  one-shot reply callbacks `_sn_callbacks` and the reply waits
  `_reply_events` / `_reply_msgs`;
- the **subscription registry**: `_subscribers`, an ordered list of
  callbacks per property, and `_sub_last_msg`, the last event seen per
  property;
- the **watch cache**: `_watchers` and `_watch_values`;
- the **console accumulator**: `_console_print_lines` and
  `_last_console_print`.

The operations modelled here are `_send`, one pass of the receive loop
`_listener_thread`, `subscribe`, `unsubscribe`, `get`, `set`, `watch`,
`unwatch`, `_console_listener`, `run` and `count`. The constructor is
modelled too.

Two layers:

- `ClientModel` (`state.dfy`) holds the client's tables as one record,
  `ClientState`, and gives one function per operation from the old state
  (and the inputs) to the new state and the result. The record has three
  more fields:
  - `outbox` is every frame handed to the socket, in order;
  - `dispatched` is every callback thread started, with its argument, in order;
  - `closures` counts the closures the client has created, because Python
    compares callbacks by identity and each closure is a new object.
- `SpecClient.Client` (`client.dfy`) is the object itself: a class with one
  field per table. Its methods update the fields in place, and the
  receive-loop pass iterates over the callback list. Each method is proved
  to produce, from the old fields, exactly the new state and result that
  the `ClientModel` function gives.

The properties are lemmas about the `ClientModel` functions, grouped by
part of the client:

- `Correlator` (`correlator.dfy`): sending and the receive loop;
- `Registry` (`registry.dfy`): `subscribe`, `unsubscribe`, the constructor;
- `WatchCache` (`watch.dfy`): `get`, `set`, `watch`, `unwatch`;
- `ConsoleRun` (`console.dfy`): the console accumulator and `run`;
- `CountScalers` (`count.dfy`): `count`.

`ClientModel.Valid` is the invariant every reachable state keeps:

- frame `i` carries number `i + 1`;
- pending numbers were issued;
- every stored closure was already created;
- a last message is an event of its own property.

Every operation preserves it, and a new client has it:

- the `ClientModel` functions, by the lemmas `Correlator.SendIssuesNextNumber`,
  `Correlator.AwaitReplyCleansUp`, `Correlator.DispatchPreservesValid`,
  `Correlator.ListenPreservesValid`, `Registry.SubscribePreservesValid`,
  `Registry.UnsubscribePreservesValid`, `WatchCache.SetGetPreserveValid`,
  `WatchCache.WatchPreservesValid`, `WatchCache.UnwatchPreservesValid`,
  `WatchCache.WatcherCallbackPreservesValid`,
  `ConsoleRun.ConsoleListenerPreservesValid`, `ConsoleRun.RunPreservesValid`,
  `CountScalers.CountCallbackPreservesValid`, `CountScalers.SubscribeAllFrame`,
  `CountScalers.FinalReadsPreserveValid`, `CountScalers.RunAndReadPreservesValid`
  and `CountScalers.CountPreservesValid`, and `Registry.InitSubscribes` for the
  constructor;
- the class, because `Client.Connect` returns a valid object. A valid object
  stays valid under one receive-loop pass, the receive loop, `Subscribe` (for
  a callback that already exists), `Unsubscribe`, `Set`, `Get`, `Watch`,
  `Unwatch`, `Run`, `Count` and its three parts, and the callback bodies
  `ConsoleListener` and `WatcherCallback`.

Time and concurrency become parameters:

- A blocking wait is a parameter `during: seq<Msg>`: the messages the
  receive thread handles while the caller is blocked. The model pumps them
  through the receive-loop pass.
- A wait that ends with nothing having arrived is the timeout.
- The callback threads the client starts are logged in `dispatched` and
  not run. The bodies of the client's own callbacks are separate
  operations: `WatcherCallback` for line 245 and `ConsoleListener` for
  lines 53-58.

What follows from the receive loop's test at line 70, which files a reply
only when its number also has a callback:

- `get` and `set` register no callback, so they never see a reply.
  - `WatchCache.GetUnwatched`: an uncached `get` returns None whatever the
    server answers.
  - `WatchCache.SetSends`: the SV_ERROR test of lines 215-216 never raises.
- `CountScalers.CountUnwatched`: a `count` over a channel that is not
  watched never returns a snapshot. Its forced read gets None, and
  `count_callback(None)` fails.
- `Registry.SubscribeNeverValueError`: the `remove` at line 140 can never
  fail.

## Model

| member | source | states |
|---|---|---|
| Protocol.Normalise | pycertifspec/Client.py:185-186 | an empty command fails with IndexError; otherwise the result ends in a newline, extends the command and is at most one character longer |
| Protocol.RunVerb | pycertifspec/Client.py:184 | FUNC_WITH_RETURN exactly when the run blocks or has a callback, FUNC exactly otherwise |
| Protocol.SplitSecond | pycertifspec/Client.py:331 | `split("/")[1]` fails with IndexError exactly when the name has no `/`; otherwise it returns the text after the first `/`, up to the next `/` or the end |
| Protocol.RemoveFirstSlices | pycertifspec/Client.py:163 | `list.remove` takes away the first occurrence, and only when the element is present; the rest keep their order |
| Protocol.RemoveFirstMultiset | pycertifspec/Client.py:163 | removing an element that is present takes exactly one copy out of the list's multiset |
| ClientModel.ZeroSnapshot | pycertifspec/Client.py:329 | the initial snapshot has exactly the counter names as keys, each at zero |
| ClientModel.Listen | pycertifspec/Client.py:60-75 | the receive loop only extends the thread log and only retires pending numbers; it sends nothing and leaves the counter, the subscriber lists, the watch tables, the console buffer, the closures and the set of reply waits alone |
| ClientModel.DeliverEvent | pycertifspec/Client.py:64-68 | the event half of a pass changes only the last messages and the thread log, which it only extends |
| ClientModel.DeliverReply | pycertifspec/Client.py:70-75 | the reply half of a pass changes only the thread log, the pending callbacks, the reply events and the slots; it only extends the log, only retires pending numbers and never adds or drops a reply event |
| ClientModel.EndWait | pycertifspec/Client.py:131-140 | the end of a first-subscribe wait changes only the subscriber lists and the thread log, which it only extends |
| ClientModel.Send | pycertifspec/Client.py:87-93 | `_send` up to the write: stated by Correlator.SendIssuesNextNumber and Correlator.NumbersIncrease |
| ClientModel.AwaitReply | pycertifspec/Client.py:94-99 | the wait's end: stated by Correlator.AwaitReplyCleansUp |
| ClientModel.SendAndWait | pycertifspec/Client.py:77-99 | a waiting `_send`: stated by Correlator.SendAndWaitReturns |
| ClientModel.Dispatch | pycertifspec/Client.py:62-75 | one pass of the receive loop: stated by Correlator.DispatchLog, DispatchPendingReply, DispatchAtMostOnce, DispatchUntracked, DispatchEvent and DispatchPreservesValid |
| ClientModel.Subscribe | pycertifspec/Client.py:102-148 | `subscribe`: stated by Registry.SubscribeExisting, SubscribeNowait, SubscribeWait, SubscribeWaitWithoutErrorEntry, SubscribeErrorFirst, SubscribeNeverValueError and SubscribePreservesValid |
| ClientModel.SubscribeAndWait | pycertifspec/Client.py:117-140 | the waiting first subscribe: stated by Registry.SubscribeWait and Registry.WaitArrives |
| ClientModel.StartWait | pycertifspec/Client.py:128-129 | the listener joins "error" before the REGISTER: stated by Registry.WaitArrives |
| ClientModel.Unsubscribe | pycertifspec/Client.py:150-170 | `unsubscribe`: stated by Registry.UnsubscribeFound, UnsubscribeMissing, UnsubscribeTwice and UnsubscribePreservesValid |
| ClientModel.ConsoleListener | pycertifspec/Client.py:53-58 | only the console print and the buffer change; the rest is stated by ConsoleRun.FeedLines and FeedUntilPrompt |
| ClientModel.Run | pycertifspec/Client.py:172-203 | `run`: stated by ConsoleRun.RunEmpty, RunSends, RunBlocking and RunPreservesValid |
| ClientModel.Set | pycertifspec/Client.py:205-218 | `set`: stated by WatchCache.SetNonAscii, SetSends and SetThenGet |
| ClientModel.Get | pycertifspec/Client.py:220-232 | `get`: stated by WatchCache.GetWatched and GetUnwatched |
| ClientModel.WatcherCallback | pycertifspec/Client.py:244-245 | only the watch cache changes; the rest is stated by WatchCache.WatcherStores |
| ClientModel.Watch | pycertifspec/Client.py:234-247 | `watch`: stated by WatchCache.WatchRegisters |
| ClientModel.Unwatch | pycertifspec/Client.py:249-258 | `unwatch`: stated by WatchCache.UnwatchRemoves, UnwatchMissing and UnwatchThenGet |
| ClientModel.CountCallback | pycertifspec/Client.py:330-333 | only the thread log changes, and it only grows; the rest is stated by CountScalers.CountCallbackNothing and CountCallbackChannel |
| ClientModel.CountSubscribeAll | pycertifspec/Client.py:335-336 | the subscribe loop: stated by CountScalers.SubscribeAllFrame |
| ClientModel.CountFinalReads | pycertifspec/Client.py:340-342 | the forced reads: stated by CountScalers.FinalReadsWatched, FinalReadsUnwatched and FinalReadsPreserveValid |
| ClientModel.Count | pycertifspec/Client.py:314-344 | `count`: stated by CountScalers.CountShape, CountReturns, CountWatched, CountUnwatched and CountPreservesValid |
| ClientModel.CountRunAndRead | pycertifspec/Client.py:338-344 | the count command and the final reads: stated by CountScalers.CountReturns and RunAndReadPreservesValid |
| ClientModel.CountFinish | pycertifspec/Client.py:340-344 | the final reads from the zero snapshot: stated by CountScalers.CountWatched and CountUnwatched |
| ClientModel.Init | pycertifspec/Client.py:29-51 | the constructor: stated by Registry.InitSubscribes |
| Correlator.SendIssuesNextNumber | pycertifspec/Client.py:87-93 | a send raises the counter by exactly one, writes one frame carrying the new number, files the callback and the reply event under that number only, and keeps the invariant |
| Correlator.NumbersIncrease | pycertifspec/Client.py:87-93 | the numbers on the wire are at least 1 and strictly increasing in send order |
| Correlator.AwaitReplyCleansUp | pycertifspec/Client.py:94-99 | the wait returns what the number's reply slot holds, removes that reply event and slot, and keeps the invariant and the other tables |
| Correlator.DispatchLog | pycertifspec/Client.py:62-75 | one message starts the event threads first, then the reply thread |
| Correlator.DispatchPreservesValid | pycertifspec/Client.py:62-75 | one pass of the receive loop keeps the invariant |
| Correlator.DispatchPendingReply | pycertifspec/Client.py:70-75 | a message with a pending number starts its callback once, signals and fills the slot exactly when someone waits, and retires the number |
| Correlator.DispatchAtMostOnce | pycertifspec/Client.py:70-75 | once a number is retired, another non-event message with it changes nothing and starts nothing |
| Correlator.DispatchUntracked | pycertifspec/Client.py:70-75 | a message numbered 0 or with no pending callback leaves the correlator's tables alone, and changes nothing when it is not an event |
| Correlator.DispatchEvent | pycertifspec/Client.py:64-68 | an event of a subscribed property becomes its last message and starts each of its callbacks once, in list order; any other message leaves both subscriber tables alone |
| Correlator.ListenPreservesValid | pycertifspec/Client.py:60-75 | the receive loop over any messages keeps the invariant |
| Correlator.ListenKeepsRetiredSlot | pycertifspec/Client.py:70-75 | once nothing waits for a number, the loop never writes its reply slot |
| Correlator.ListenFillsSlot | pycertifspec/Client.py:70-75 | a waited-for number's slot ends up with the first message carrying it if a callback is pending under it, and stays empty otherwise |
| Correlator.SendAndWaitReturns | pycertifspec/Client.py:87-99 | a waiting send returns the first message with its number when it filed a callback and None when it did not; one frame, invariant kept, subscriber and watch tables kept |
| Correlator.ListenFirstCallToReplyCallback | pycertifspec/Client.py:70-75 | the first thread the loop starts for a one-shot request callback runs on the first message carrying the request's number |
| Correlator.ListenEventCall | pycertifspec/Client.py:64-68 | a thread started for a callback no request waits with ran on an event of a property whose list holds it, and that property then has a last message |
| Registry.SubscribeExisting | pycertifspec/Client.py:144-148 | subscribing to a registered property appends the callback, hands it the last message and sends nothing; without a last message it fails with KeyError and changes nothing |
| Registry.SubscribeNowait | pycertifspec/Client.py:141-143 | a first subscribe without waiting sets the list to `[callback]`, sends exactly one REGISTER and returns True |
| Registry.SubscribeWait | pycertifspec/Client.py:117-140 | a waiting first subscribe sends one REGISTER and ends by the first event of the property or of "error": none gives False, "error" raises SpecError with its body (both leave the temporary listener in the "error" list), the property gives True with the list exactly `[callback]`, the callback started on that event and the "error" list restored |
| Registry.WaitArrives | pycertifspec/Client.py:120-131 | after the wait the lists are the old ones with `[temp]` under the property and the temporary listener appended to "error", one REGISTER was sent, the invariant holds, and the listener was first started with the first event of the property or of "error", which is then a last message |
| Registry.EndWaitGivesUp | pycertifspec/Client.py:131-136 | no message, or an "error" event, deletes the property's entry, leaves the temporary listener in the "error" list, and gives False or SpecError with the event's body |
| Registry.EndWaitArrives | pycertifspec/Client.py:138-140 | the property's own event starts the callback on it, sets the list to `[callback]`, takes the temporary listener out of the "error" list again and gives True |
| Registry.EndWaitOnError | pycertifspec/Client.py:131-136 | a wait on "error" itself ends with its entry deleted, giving False or SpecError |
| Registry.SubscribeWaitWithoutErrorEntry | pycertifspec/Client.py:126-127 | with no "error" entry the wait fails with KeyError before sending, leaving `[temp]` under the property |
| Registry.SubscribeErrorFirst | pycertifspec/Client.py:117-136 | waiting on "error" itself before it has an entry can only end with False or SpecError, and leaves the lists as they were |
| Registry.SubscribeNeverValueError | pycertifspec/Client.py:138-140 | the `remove` of the temporary listener never fails: no subscribe ends with ValueError |
| Registry.SubscribePreservesValid | pycertifspec/Client.py:115-148 | every subscribe keeps the invariant |
| Registry.UnsubscribeFound | pycertifspec/Client.py:161-169 | a held callback is removed once; exactly when the list becomes empty one UNREGISTER is sent and the entry is deleted; the result is True |
| Registry.UnsubscribeMissing | pycertifspec/Client.py:162-170 | a callback the list does not hold gives False with nothing changed and nothing sent |
| Registry.UnsubscribeTwice | pycertifspec/Client.py:161-170 | after removing a callback the list held once, unsubscribing it again returns False and changes nothing |
| Registry.UnsubscribePreservesValid | pycertifspec/Client.py:161-170 | unsubscribe keeps the invariant |
| Registry.InitSubscribes | pycertifspec/Client.py:29-51 | the constructor sends REGISTER frames 1 ("error") and 2 ("output/tty") and reaches a valid state; an "output/tty" event first gives True with exactly the two standing lists, an "error" event first raises SpecError with its body, and no decisive event gives False; in the last two cases the temporary listener stays in "error" |
| WatchCache.GetWatched | pycertifspec/Client.py:230-231 | a watched property is answered from the cache, with nothing sent and nothing changed |
| WatchCache.GetUnwatched | pycertifspec/Client.py:232 | an unwatched read sends exactly one CHAN_READ and, as it files no callback, returns None; invariant and tables kept |
| WatchCache.SetNonAscii | pycertifspec/Client.py:214 | a non-ASCII value fails with UnicodeEncodeError before anything is sent |
| WatchCache.SetSends | pycertifspec/Client.py:214-218 | an ASCII write sends exactly one CHAN_SEND with the value, succeeds, and overwrites the cached body exactly when the property is watched |
| WatchCache.SetThenGet | pycertifspec/Client.py:217-231 | a read right after a write of a watched property returns the written body at once and sends nothing more |
| WatchCache.WatcherStores | pycertifspec/Client.py:244-245 | the watcher stores the message it is started with, and a read then returns that message |
| WatchCache.WatchRegisters | pycertifspec/Client.py:244-247 | watch files a fresh watcher under the property and subscribes it; on success the watcher is in the list and the last thread started is the watcher on an event of the property |
| WatchCache.UnwatchRemoves | pycertifspec/Client.py:256-258 | unwatch unsubscribes the watcher and removes exactly the property's watcher and cached value |
| WatchCache.UnwatchMissing | pycertifspec/Client.py:256-258 | without a watcher unwatch fails with KeyError and changes nothing; without a cached value it fails with KeyError after dropping the watcher |
| WatchCache.UnwatchThenGet | pycertifspec/Client.py:249-258 | after a successful unwatch a read sends one CHAN_READ again |
| WatchCache.UnwatchPreservesValid | pycertifspec/Client.py:256-258 | unwatch keeps the invariant |
| WatchCache.SetGetPreserveValid | pycertifspec/Client.py:214-232 | set and get keep the invariant |
| WatchCache.WatcherCallbackPreservesValid | pycertifspec/Client.py:245 | the watcher's store keeps the invariant |
| WatchCache.WatchPreservesValid | pycertifspec/Client.py:234-247 | every watch keeps the invariant |
| ConsoleRun.FeedLines | pycertifspec/Client.py:57-58 | lines without a prompt only accumulate, in arrival order |
| ConsoleRun.FeedUntilPrompt | pycertifspec/Client.py:53-58 | output lines followed by a prompt publish the earlier buffer and those lines, joined in order, and leave the buffer empty |
| ConsoleRun.NormaliseExact | pycertifspec/Client.py:185-186 | the newline is added exactly when missing, and normalising twice changes nothing |
| ConsoleRun.RunEmpty | pycertifspec/Client.py:184-185 | an empty command fails with IndexError and sends nothing |
| ConsoleRun.RunSends | pycertifspec/Client.py:184-203 | run sends exactly one frame, the normalised command under the chosen verb, files a fresh one-shot callback only when a reply is wanted, files no reply event and keeps the invariant |
| ConsoleRun.RunBlocking | pycertifspec/Client.py:197-201 | a blocking run returns the first message with its number together with the console print as it was when the run began (callback threads do not run during the wait), and is still blocked while none has arrived |
| ConsoleRun.ConsoleListenerPreservesValid | pycertifspec/Client.py:53-58 | the console listener keeps the invariant |
| ConsoleRun.RunPreservesValid | pycertifspec/Client.py:172-203 | every run keeps the invariant, including one that fails on an empty command |
| CountScalers.SplitScaler | pycertifspec/Client.py:331 | the key taken from `"scaler/"+m+"/value"` is `m` exactly when `m` holds no `/` |
| CountScalers.CountCallbackNothing | pycertifspec/Client.py:330-331 | `count_callback(None)` fails with AttributeError and changes nothing |
| CountScalers.CountCallbackChannel | pycertifspec/Client.py:330-333 | a counter's channel message stores its body under the mnemonic and starts the progress callback with the new snapshot when there is one |
| CountScalers.FinalReadsWatched | pycertifspec/Client.py:340-342 | with every channel watched, the final reads add every cached body under its mnemonic and leave the cache alone |
| CountScalers.FinalReadsUnwatched | pycertifspec/Client.py:340-342 | with some channel unwatched, the final reads end in AttributeError |
| CountScalers.SubscribeAllFrame | pycertifspec/Client.py:335-336 | subscribing the count callback to every channel keeps the invariant, and leaves the watch cache as it was because no watcher thread runs during the waits |
| CountScalers.CountShape | pycertifspec/Client.py:314-344 | a count that returns a snapshot took it from the final reads after the subscribes and the count command, in a valid state; with no watcher thread run during the waits, the cache is still the one the count started with |
| CountScalers.CountReturns | pycertifspec/Client.py:338-344 | a snapshot is only returned by the final reads after the count command replied |
| CountScalers.CountWatched | pycertifspec/Client.py:314-344 | with every channel watched, a returned snapshot gives every mnemonic the body its channel had cached when the count began, and has no other key |
| CountScalers.CountUnwatched | pycertifspec/Client.py:314-344 | with some channel unwatched, count never returns a snapshot |
| CountScalers.CountCallbackPreservesValid | pycertifspec/Client.py:330-333 | `count_callback` only starts threads and keeps the invariant |
| CountScalers.FinalReadsPreserveValid | pycertifspec/Client.py:340-342 | the forced reads keep the invariant, however they end |
| CountScalers.RunAndReadPreservesValid | pycertifspec/Client.py:338-344 | the count command and the final reads keep the invariant |
| CountScalers.CountPreservesValid | pycertifspec/Client.py:314-344 | every count keeps the invariant, wherever it stops |
| CountScalers.CachedCovers | pycertifspec/Client.py:329-344 | with every channel watched, the cached values replace every zero and have exactly the mnemonics as keys |
| SpecClient.Client.constructor | pycertifspec/Client.py:36-50 | the new object's tables are all empty |
| SpecClient.Client.Connect | pycertifspec/Client.py:29-51 | a client is returned exactly when the console subscription raises nothing, and it is fresh, valid and in the model's initial state; otherwise the subscription's exception is returned |
| SpecClient.Client.Send | pycertifspec/Client.py:77-99 | the new fields and the reply are those of the model's send, with or without waiting |
| SpecClient.Client.Post | pycertifspec/Client.py:88-93 | numbering, filing and writing the frame give the model's send |
| SpecClient.Client.SetCounter | pycertifspec/Client.py:88 | only the counter changes |
| SpecClient.Client.FileCallback | pycertifspec/Client.py:89-90 | only the callback table changes, and only when there is a callback |
| SpecClient.Client.FileReplyEvent | pycertifspec/Client.py:91-92 | only the reply events change, and only for a waiting send |
| SpecClient.Client.Emit | pycertifspec/Client.py:93 | only the outbox changes, by one frame at its end |
| SpecClient.Client.AwaitReply | pycertifspec/Client.py:96-99 | taking the slot and dropping the event and slot give the model's |
| SpecClient.Client.Dispatch | pycertifspec/Client.py:62-75 | one pass over one message, with the loop over the property's callbacks, gives the model's dispatch; the invariant is kept |
| SpecClient.Client.DeliverEvent | pycertifspec/Client.py:64-68 | the loop over the property's callbacks gives the model's event half |
| SpecClient.Client.DeliverReply | pycertifspec/Client.py:70-75 | the reply half gives the model's |
| SpecClient.Client.Listen | pycertifspec/Client.py:60-75 | the receive loop over the messages gives the model's loop and keeps the invariant |
| SpecClient.Client.Subscribe | pycertifspec/Client.py:102-148 | the new fields and the result are the model's subscribe; the invariant is kept |
| SpecClient.Client.SubscribeAndWait | pycertifspec/Client.py:117-140 | the waiting first subscribe gives the model's |
| SpecClient.Client.EndWait | pycertifspec/Client.py:131-140 | the three outcomes of the wait give the model's |
| SpecClient.Client.Unsubscribe | pycertifspec/Client.py:150-170 | the new fields and the result are the model's unsubscribe; the invariant is kept |
| SpecClient.Client.ConsoleListener | pycertifspec/Client.py:53-58 | the accumulator step gives the model's; the invariant is kept |
| SpecClient.Client.Run | pycertifspec/Client.py:172-203 | the new fields and the result are the model's run; the invariant is kept |
| SpecClient.Client.Set | pycertifspec/Client.py:205-218 | the new fields and the result are the model's set; the invariant is kept |
| SpecClient.Client.Get | pycertifspec/Client.py:220-232 | the new fields and the result are the model's get; the invariant is kept |
| SpecClient.Client.WatcherCallback | pycertifspec/Client.py:244-245 | the watcher's store gives the model's; the invariant is kept |
| SpecClient.Client.Watch | pycertifspec/Client.py:234-247 | the new fields and the result are the model's watch; the invariant is kept |
| SpecClient.Client.Unwatch | pycertifspec/Client.py:249-258 | the new fields and the result are the model's unwatch; the invariant is kept |
| SpecClient.Client.CountCallback | pycertifspec/Client.py:330-333 | one `count_callback` gives the model's; the invariant is kept |
| SpecClient.Client.CountSubscribeAll | pycertifspec/Client.py:335-336 | the loop of subscribes gives the model's, stopping at the first exception; the invariant is kept (for a count callback that already exists) |
| SpecClient.Client.CountFinalReads | pycertifspec/Client.py:340-342 | the loop of forced reads and unsubscribes gives the model's, stopping at the first exception; the invariant is kept |
| SpecClient.Client.Count | pycertifspec/Client.py:314-344 | the new fields and the result are the model's count; the invariant is kept |
| SpecClient.Client.CountRunAndRead | pycertifspec/Client.py:338-344 | the count command and the final reads give the model's; the invariant is kept |

## Deviations from the code as written

- Line 74 assigns the whole message to `_reply_msgs`, replacing the table,
  while line 96 reads `_reply_msgs[sn]`. The model keeps one reply slot per
  sequence number instead, and a wait whose slot is empty gives None, as
  the doc comments at lines 85 and 228 promise. Line 96 as written would
  raise KeyError whenever no reply was filed.
- Line 34 subscribes to "error" before the tables of lines 36-47 exist. In
  the model, `Client.Connect` creates the empty tables first. It then
  subscribes to "error" without waiting (callback None), then to
  "output/tty", waiting (line 51 uses the default `nowait=False`).
- Line 145 reads `_sub_last_msg[prop]` without checking for it. The model
  gives Err(KeyError(prop)) there and changes nothing, as the code raises,
  rather than demanding a last message from the caller. `watch` and
  `count` can reach this case.
- The receive loop's test at line 70 is kept as written: a reply event is
  signalled only when that number also has a callback.

## Left out

- The socket (`SpecSocket`: `connect_spec`, `send_spec`, `recv_spec`), port
  scanning and the `print` at line 63 are I/O. A send is an append to
  `outbox`; a received message is the argument of `Dispatch`.
- Threads, `threading.Event` waits, their timeouts and the two locks are
  concurrency. A started thread is an entry of `dispatched` and is never
  run; a wait is the `during` messages, and a timeout is a wait during
  which nothing decisive arrived. Interleavings of the receive thread with
  several callers are not modelled.
- ClientModel.Set: messages are values, not shared objects. Line 218
  writes the new body into the message object stored in
  `_watch_values[prop]`. That object is the one the receive loop also
  stored as `_sub_last_msg[prop]` (line 66) and handed to the watcher
  (lines 68, 245), and possibly one a caller got earlier from `get`. The
  model rewrites only the cached copy under `watchValues`. `subLastMsg[prop]`,
  the replay of it to a later subscriber (line 145), and messages returned
  earlier keep the old body.
- SpecClient.Client.Set: the same aliasing of line 218 is not captured; the
  method equals `ClientModel.Set`.
- ConsoleRun.RunBlocking: `res["event"].wait()` at line 200 has no timeout.
  A blocking run whose reply has not arrived among `during` is reported as
  StillWaiting instead of blocking for ever.
- ConsoleRun.RunBlocking: the console text returned is `_last_console_print`
  as it was when the run began. The `_console_listener` threads that the
  command's output starts during the wait (lines 53-58) are logged but not
  run, so the output the docstring at line 182 promises is not captured.
- CountScalers.SubscribeAllFrame: the watch cache is unchanged only because
  the watcher threads started during the subscribe waits are not run; in
  the program they update `_watch_values` (line 245).
- CountScalers.CountShape: the watch cache it states as unchanged is an
  effect of not running the watcher threads (line 245) during the
  subscribe, count command and read waits.
- CountScalers.CountWatched: the snapshot holds the bodies cached when the
  count began. Pushes that arrive during the count start watcher threads
  that would update the cache before the forced reads of line 341; those
  threads are not run, so the later values are not captured.
- The body of `res_cb` (lines 190-195) runs in a started thread and is not
  modelled; in particular, the forwarding of a reply to the caller's
  callback at line 192 is not captured.
- `float(res.body)` at line 331 is floating point. Counter values are kept
  opaque: the body that was read, or the initial zero.
- `count`'s `refresh_names` and `_get_counter_names` (lines 305-312) issue
  `run` and `var` calls whose answers come from the server. The counter
  names are a parameter of `Count`, without duplicates, as the keys of
  `counter_names` are.
- `motor`, `var`, `abort`, `motors` and `stop_counting` are thin wrappers
  over other classes or over the operations above. `Motor.py`, `Var.py`
  and `ArrayVar.py` are not part of this model.
- `pycertifspec/bluesky/Motor.py` adapts the client to ophyd devices, a
  foreign library, and is not part of this model.
- The error flag, flags, rows and cols of `_send` are always their defaults
  in the calls modelled and are not carried in frames.
- Python strings are `seq<char>`; `encode('ascii')` is only the test that
  every character is below 128.
