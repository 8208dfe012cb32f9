/**
 * Values exchanged between the client and the SPEC server, the callback
 * identities the client stores in its tables, and the small pure helpers
 * the client uses on names and console text.
 */
module Protocol {

  datatype Option<T> = None | Some(value: T)

  /** The exceptions the client raises, under their Python names. */
  datatype Exception =
    | SpecError(body: string)   // the server reported an error
    | KeyError(key: string)     // a dictionary lookup or deletion of a missing key
    | ValueError                // list.remove of an element that is not in the list
    | IndexError                // indexing past the end of a string or list
    | AttributeError            // an attribute read on None
    | UnicodeEncodeError        // str.encode('ascii') of a non-ASCII string

  datatype Result<T> = Ok(value: T) | Err(error: Exception)

  /** Message verbs (EventTypes). */
  datatype Command =
    | Register | Unregister | Event | Func | FuncWithReturn
    | ChanSend | ChanRead | Reply | OtherCommand(code: int)

  /** Body data types (DataTypes); NoType is the default 0 of `_send`. */
  datatype DataType = NoType | StringType | ErrorType | OtherType(code: int)

  /** An inbound message as the transport hands it to the receive loop. */
  datatype Msg = Msg(cmd: Command, sn: nat, name: string, dataType: DataType, body: string)

  /**
   * An outbound frame as passed to `send_spec`; the error flag, flags, rows
   * and cols are always their defaults in the calls modelled here.
   */
  datatype Frame = Frame(sn: nat, cmd: Command, dataType: DataType, name: string, body: string)

  /**
   * The callables the client stores. Python compares them by identity; a
   * closure created by the client carries the number it was allocated under.
   */
  datatype Callback =
    | NoCallback                         // Python None
    | User(id: nat)                      // a function supplied by the caller
    | Temp(closure: nat)                 // last_msg_cb of one first subscribe
    | Watcher(prop: string, closure: nat) // watcher of one watch call
    | Console                            // the bound method _console_listener
    | CountCb(closure: nat)              // count_callback of one count call
    | RunCb(closure: nat)                // res_cb of one run call

  /** A counter value kept opaque: the initial 0.0, or the body that was read. */
  datatype Reading = Zero | Value(body: string)

  /** One started thread: a callback with a message, or a count progress report. */
  datatype Spawn =
    | Call(cb: Callback, msg: Msg)
    | Progress(cb: Callback, values: map<string, Reading>)

  /** True if `cb` is not a client closure, or one allocated below `next`. */
  predicate AllocatedBefore(cb: Callback, next: nat) {
    match cb
    case Temp(k) => k < next
    case Watcher(_, k) => k < next
    case CountCb(k) => k < next
    case RunCb(k) => k < next
    case _ => true
  }

  // ---------------------------------------------------------------------
  // Lists

  /** The index of the first occurrence of `x` in `xs`. */
  function FirstIndex<T(==)>(xs: seq<T>, x: T): (i: nat)
    requires x in xs
    ensures i < |xs| && xs[i] == x && x !in xs[..i]
  {
    if xs[0] == x then 0
    else
      var j := FirstIndex(xs[1..], x);
      assert xs[..j + 1] == [xs[0]] + xs[1..][..j];
      j + 1
  }

  /** Python's `list.remove` on a list that holds `x`; unchanged otherwise. */
  function RemoveFirst<T(==)>(xs: seq<T>, x: T): seq<T> {
    if xs == [] then []
    else if xs[0] == x then xs[1..]
    else [xs[0]] + RemoveFirst(xs[1..], x)
  }

  /** The first occurrence, and only it, is taken out; an absent element changes nothing. */
  lemma {:induction false} RemoveFirstSlices<T>(xs: seq<T>, x: T)
    ensures x in xs ==> RemoveFirst(xs, x) == xs[..FirstIndex(xs, x)] + xs[FirstIndex(xs, x) + 1..]
    ensures x !in xs ==> RemoveFirst(xs, x) == xs
  {
    if xs != [] && xs[0] != x {
      RemoveFirstSlices(xs[1..], x);
      if x in xs {
        var j := FirstIndex(xs[1..], x);
        assert FirstIndex(xs, x) == j + 1;
        assert xs[..j + 1] == [xs[0]] + xs[1..][..j];
        assert xs[j + 2..] == xs[1..][j + 1..];
      } else {
        assert xs == [xs[0]] + xs[1..];
      }
    }
  }

  /** Removing one occurrence takes exactly one copy of `x` out of the list. */
  lemma RemoveFirstMultiset<T>(xs: seq<T>, x: T)
    requires x in xs
    ensures multiset(RemoveFirst(xs, x)) == multiset(xs) - multiset{x}
    ensures |RemoveFirst(xs, x)| == |xs| - 1
  {
    var i := FirstIndex(xs, x);
    RemoveFirstSlices(xs, x);
    assert xs == xs[..i] + [x] + xs[i + 1..];
    calc {
      multiset(xs);
      multiset(xs[..i] + [x] + xs[i + 1..]);
      multiset(xs[..i]) + multiset{x} + multiset(xs[i + 1..]);
    }
  }

  /** Every element left after a removal was in the list before. */
  lemma {:induction false} RemoveFirstSubset<T>(xs: seq<T>, x: T, y: T)
    requires y in RemoveFirst(xs, x)
    ensures y in xs
  {
    if xs != [] && xs[0] != x && y != xs[0] {
      assert RemoveFirst(xs, x) == [xs[0]] + RemoveFirst(xs[1..], x);
      RemoveFirstSubset(xs[1..], x, y);
    }
  }

  /** Removing an element just appended, and nowhere else, restores the list. */
  lemma {:induction false} RemoveFirstAppended<T>(xs: seq<T>, x: T)
    requires x !in xs
    ensures RemoveFirst(xs + [x], x) == xs
  {
    var ys := xs + [x];
    var i := FirstIndex(ys, x);
    RemoveFirstSlices(ys, x);
    assert ys[..|xs|] == xs;
    assert i == |xs|;
  }

  // ---------------------------------------------------------------------
  // Strings

  predicate EndsWith(s: string, suffix: string) {
    |suffix| <= |s| && s[|s| - |suffix|..] == suffix
  }

  /** Python's `"".join(lines)`. */
  function Concat(lines: seq<string>): string {
    if lines == [] then "" else lines[0] + Concat(lines[1..])
  }

  /** The characters `str.encode('ascii')` accepts. */
  predicate IsAscii(s: string) {
    forall i :: 0 <= i < |s| ==> s[i] as int < 128
  }

  /**
   * The console command as `run` sends it: a newline is appended unless the
   * command already ends with one; an empty command fails at `[-1]`.
   */
  function Normalise(command: string): (r: Result<string>)
    ensures r.Err? <==> command == ""
    ensures r.Err? ==> r.error == IndexError
    ensures r.Ok? ==> EndsWith(r.value, "\n") && command <= r.value && |r.value| <= |command| + 1
  {
    if command == "" then Err(IndexError)
    else if command[|command| - 1] != '\n' then Ok(command + "\n")
    else Ok(command)
  }

  /** The verb `run` uses: a reply is asked for exactly when someone waits for it. */
  function RunVerb(blocking: bool, hasCallback: bool): (c: Command)
    ensures c == FuncWithReturn <==> blocking || hasCallback
    ensures c == Func <==> !blocking && !hasCallback
  {
    if blocking || hasCallback then FuncWithReturn else Func
  }

  /** The live-value channel of a counter mnemonic. */
  function ScalerChannel(mnemonic: string): string {
    "scaler/" + mnemonic + "/value"
  }

  /** The index of the first `c` in `s`, if any. */
  function IndexOf(s: string, c: char): (r: Option<nat>)
    ensures r.None? <==> c !in s
    ensures r.Some? ==> r.value < |s| && s[r.value] == c && c !in s[..r.value]
  {
    if s == [] then None
    else if s[0] == c then Some(0)
    else
      match IndexOf(s[1..], c)
      case None => None
      case Some(i) =>
        assert s[..i + 1] == [s[0]] + s[1..][..i];
        Some(i + 1)
  }

  /**
   * Python's `name.split("/")[1]`: the text between the first `/` and the
   * next one (or the end); a name without `/` has no second field.
   */
  function SplitSecond(name: string): (r: Result<string>)
    ensures r.Err? <==> '/' !in name
    ensures r.Err? ==> r.error == IndexError
    ensures r.Ok? ==> '/' !in r.value
    ensures r.Ok? ==>
      exists i :: 0 <= i < |name| && name[i] == '/' && '/' !in name[..i] && r.value <= name[i + 1..]
                  && (i + 1 + |r.value| == |name| || name[i + 1 + |r.value|] == '/')
  {
    match IndexOf(name, '/')
    case None => Err(IndexError)
    case Some(i) =>
      var rest := name[i + 1..];
      match IndexOf(rest, '/')
      case None =>
        assert i + 1 + |rest| == |name|;
        Ok(rest)
      case Some(j) =>
        assert rest[..j] <= rest && name[i + 1 + j] == rest[j];
        Ok(rest[..j])
  }
}
