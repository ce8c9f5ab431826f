/** The earlier Qt command-line tool (`src/cli/nickel_dbus_cli.cc`): it checks
    that the proxy declares a method with the requested name and arity, then
    dispatches through a fixed ladder of proxy calls; it connects the requested
    signals whose parameter type it can print, and completes with the same
    join rule as its successor. Replies of the D-Bus calls and the success of
    `QObject::connect` are inputs; quit and exit are recorded as exit requests. */
module LegacyCli {
  import opened Wrappers
  import opened QtMeta
  import opened Join

  /** An argument handed to a typed proxy call. */
  datatype CallArg = IntArg(i: int) | BoolArg(b: bool) | StrArg(s: string)

  datatype ProxyCall = ProxyCall(slot: string, args: seq<CallArg>)

  /** Where the ladder leads: a proxy call, an error message, or a read of an
      argument position the argument list does not have (`QList::at` out of
      range, which the validated signatures of the real proxy never reach). */
  datatype Dispatch = Invoke(call: ProxyCall) | Reject(message: string) | ArgMissing

  /** The reply of a proxy call: success, or a D-Bus error type and message. */
  datatype Reply = ReplyOk | ReplyError(errorType: string, message: string)

  const TimestampError := "could not parse timestamp"
  const ModalError := "could not parse modal. One of 'true', 't', 'false', 'f' required"
  const UnknownMethod := "unknown method"
  const CountError := "invalid parameter count"

  /** The ladder's methods whose arguments are passed on as strings, each with
      the number of arguments it reads. */
  const StringSlots: map<string, nat> := map[
    "ndbVersion" := 0, "miscNickelClassDetails" := 1, "miscSignalConnected" := 1,
    "mwcHome" := 0, "dlgConfirmNoBtn" := 2, "dlgConfirmAccept" := 3, "dlgConfirmReject" := 3,
    "dlgConfirmAcceptReject" := 4, "pfmRescanBooks" := 0, "pfmRescanBooksFull" := 0,
    "wfmConnectWireless" := 0, "wfmConnectWirelessSilently" := 0, "wfmSetAirplaneMode" := 1,
    "nsInvert" := 1, "nsLockscreen" := 1, "nsScreenshots" := 1, "nsForceWifi" := 1,
    "pwrShutdown" := 0, "pwrReboot" := 0]

  /** Every name the ladder knows. */
  predicate InLadder(name: string)
  {
    name in StringSlots || name == "mwcToast" || name == "bwmOpenBrowser"
  }

  /** The error text of a failed reply. */
  function ReplyText(errorType: string, message: string): string
  {
    "method failed with err: " + errorType + " and message: " + message
  }

  function StrArgs(tokens: seq<string>): (r: seq<CallArg>)
    ensures |r| == |tokens| && forall k :: 0 <= k < |r| ==> r[k] == StrArg(tokens[k])
  {
    seq(|tokens|, k requires 0 <= k < |tokens| => StrArg(tokens[k]))
  }

  /** `a` is what the ladder makes of the command-line token `token`: the
      token itself, its integer reading, or its boolean reading. */
  predicate ConvertedFrom(a: CallArg, token: string, toInt: string -> Option<int>)
  {
    match a
    case StrArg(s) => s == token
    case IntArg(i) => toInt(token) == Some(i)
    case BoolArg(b) => QtBool(token) == Some(b)
  }

  /** The k-th argument sent comes from the k-th token. */
  predicate ArgsFaithful(sent: seq<CallArg>, tokens: seq<string>, toInt: string -> Option<int>)
  {
    |sent| <= |tokens| && forall k :: 0 <= k < |sent| ==> ConvertedFrom(sent[k], tokens[k], toInt)
  }

  /** The ladder of `callMethod` after the argument count was validated. */
  function Ladder(name: string, args: seq<string>, toInt: string -> Option<int>): (r: Dispatch)
    ensures r.Invoke? ==> r.call.slot == name && InLadder(name) && ArgsFaithful(r.call.args, args, toInt)
    ensures r == Reject(UnknownMethod) <==> !InLadder(name)
    ensures r == Reject(TimestampError) <==> name == "mwcToast" && |args| > 0 && toInt(args[0]).None?
    ensures r == Reject(ModalError) <==> name == "bwmOpenBrowser" && |args| > 0 && QtBool(args[0]).None?
    ensures r.Reject? ==> r.message in {UnknownMethod, TimestampError, ModalError}
    ensures r.ArgMissing? ==> InLadder(name) && name != "bwmOpenBrowser"
  {
    if name in StringSlots then
      var n := StringSlots[name];
      if |args| < n then ArgMissing else Invoke(ProxyCall(name, StrArgs(args[..n])))
    else if name == "mwcToast" then
      if |args| == 0 then ArgMissing
      else
        match toInt(args[0])
        case None => Reject(TimestampError)
        case Some(duration) =>
          if |args| == 2 then Invoke(ProxyCall(name, [IntArg(duration), StrArg(args[1])]))
          else if |args| < 3 then ArgMissing
          else Invoke(ProxyCall(name, [IntArg(duration), StrArg(args[1]), StrArg(args[2])]))
    else if name == "bwmOpenBrowser" then
      if |args| > 0 then
        match QtBool(args[0])
        case None => Reject(ModalError)
        case Some(modal) =>
          if |args| == 1 then Invoke(ProxyCall(name, [BoolArg(modal)]))
          else if |args| == 2 then Invoke(ProxyCall(name, [BoolArg(modal), StrArg(args[1])]))
          else Invoke(ProxyCall(name, [BoolArg(modal), StrArg(args[1]), StrArg(args[2])]))
      else Invoke(ProxyCall(name, []))
    else Reject(UnknownMethod)
  }

  /** The argument counts the ladder serves in full: the fixed count of a
      string-only method, a duration with one or two texts for a toast, up to
      three arguments for the browser. */
  predicate ArityServed(name: string, argc: nat)
  {
    (name in StringSlots && argc == StringSlots[name])
    || (name == "mwcToast" && 2 <= argc <= 3)
    || (name == "bwmOpenBrowser" && argc <= 3)
  }

  /** At a served arity every token is passed on, in order; the only refusals
      are the unparsable duration and modal flag. */
  lemma LadderSendsEveryToken(name: string, args: seq<string>, toInt: string -> Option<int>)
    requires ArityServed(name, |args|)
    ensures var r := Ladder(name, args, toInt);
      && !r.ArgMissing?
      && (r.Invoke? ==> |r.call.args| == |args|)
      && (r.Reject? ==> r.message == TimestampError || r.message == ModalError)
  {
    var r := Ladder(name, args, toInt);
    if name in StringSlots {
      assert args[..StringSlots[name]] == args;
    }
  }

  /** `validateArgCount` holds and the ladder leads to a proxy call. */
  predicate CallSucceedsWith(meta: MetaObject, name: string, args: seq<string>, toInt: string -> Option<int>, reply: Reply)
    requires WellFormed(meta)
  {
    FirstInvokable(meta, name, |args|, meta.methodOffset) != -1 && Ladder(name, args, toInt).Invoke? && reply.ReplyOk?
  }

  /** The ladder never reads past the arguments once the count validated: the
      proxy declares only arities the ladder serves. */
  predicate LadderReadsDeclaredArgs(meta: MetaObject, name: string, args: seq<string>, toInt: string -> Option<int>)
    requires WellFormed(meta)
  {
    FirstInvokable(meta, name, |args|, meta.methodOffset) != -1 ==> !Ladder(name, args, toInt).ArgMissing?
  }

  // ---- connecting the requested signals ----

  /** What the inner loop of `connectSignals` does with one method for one
      requested name. */
  datatype ConnectStep = Skip | Connect(signature: string) | Refuse(message: string)

  /** The parameter types a signal handler exists for. */
  predicate Printable(t: MetaType)
  {
    !t.OtherType?
  }

  /** A signal of the requested name with no parameter, or one parameter of a
      printable type, is connected (`connectOk` says whether Qt accepts the
      connection); one parameter of another type is an error; signals with more
      parameters and every other method are passed over. */
  function ConnectOne(m: MetaMethod, name: string, connectOk: string -> bool): (r: ConnectStep)
    ensures r.Connect? ==> r.signature == Signature(m)
    ensures r.Skip? <==> m.name != name || m.kind != Signal || |m.params| > 1
  {
    if m.name != name || m.kind != Signal then Skip
    else if |m.params| == 0 || (|m.params| == 1 && Printable(m.params[0].typ)) then
      if connectOk(Signature(m)) then Connect(Signature(m))
      else Refuse("unable to connect " + Signature(m) + " to handleSignals()")
    else if |m.params| == 1 then Refuse("cannot handle signal with type " + TypeName(m.params[0].typ))
    else Skip
  }

  /** The signatures connected so far and the error that stopped the loops. */
  datatype Connected = Connected(signatures: seq<string>, error: Option<string>)

  /** The inner loop over the methods for one name. */
  function ConnectMethods(ms: seq<MetaMethod>, name: string, connectOk: string -> bool): Connected
  {
    if |ms| == 0 then Connected([], None)
    else
      var prev := ConnectMethods(ms[..|ms| - 1], name, connectOk);
      if prev.error.Some? then prev
      else
        match ConnectOne(ms[|ms| - 1], name, connectOk)
        case Skip => prev
        case Connect(s) => Connected(prev.signatures + [s], None)
        case Refuse(msg) => Connected(prev.signatures, Some(msg))
  }

  /** Both loops: the names in order, each over all methods. */
  function ConnectNames(ms: seq<MetaMethod>, names: seq<string>, connectOk: string -> bool): Connected
  {
    if |names| == 0 then Connected([], None)
    else
      var prev := ConnectNames(ms, names[..|names| - 1], connectOk);
      if prev.error.Some? then prev
      else
        var c := ConnectMethods(ms, names[|names| - 1], connectOk);
        Connected(prev.signatures + c.signatures, c.error)
  }

  /** The inner loop fails exactly when one method is refused, with that
      method's message, and connects only signals of the requested name. */
  lemma {:induction false} ConnectMethodsFacts(ms: seq<MetaMethod>, name: string, connectOk: string -> bool)
    ensures var c := ConnectMethods(ms, name, connectOk);
      && (c.error.Some? <==> exists j :: 0 <= j < |ms| && ConnectOne(ms[j], name, connectOk).Refuse?)
      && (c.error.Some? ==> exists j :: 0 <= j < |ms| && ConnectOne(ms[j], name, connectOk) == Refuse(c.error.value))
      && (forall s :: s in c.signatures ==>
            exists j :: 0 <= j < |ms| && ms[j].name == name && ms[j].kind == Signal && Signature(ms[j]) == s)
  {
    if |ms| > 0 {
      var n := |ms| - 1;
      ConnectMethodsFacts(ms[..n], name, connectOk);
      assert forall j :: 0 <= j < n ==> ms[..n][j] == ms[j];
    }
  }

  /** Both loops fail exactly when some requested name meets a refused
      signal, and every connected signature is that of a declared signal with
      a requested name. */
  lemma {:induction false} ConnectNamesFacts(ms: seq<MetaMethod>, names: seq<string>, connectOk: string -> bool)
    ensures var c := ConnectNames(ms, names, connectOk);
      && (c.error.Some? <==> exists i, j :: 0 <= i < |names| && 0 <= j < |ms| && ConnectOne(ms[j], names[i], connectOk).Refuse?)
      && (forall s :: s in c.signatures ==>
            exists i, j :: 0 <= i < |names| && 0 <= j < |ms| && ms[j].name == names[i] && ms[j].kind == Signal && Signature(ms[j]) == s)
  {
    if |names| > 0 {
      var n := |names| - 1;
      var init := names[..n];
      ConnectNamesFacts(ms, init, connectOk);
      ConnectMethodsFacts(ms, names[n], connectOk);
      assert forall i :: 0 <= i < n ==> init[i] == names[i];
    }
  }

  /** A requested name that no signal carries adds nothing and is not an
      error. */
  lemma {:induction false} ConnectUndeclared(ms: seq<MetaMethod>, names: seq<string>, name: string, connectOk: string -> bool)
    requires forall j :: 0 <= j < |ms| ==> ms[j].name != name || ms[j].kind != Signal
    ensures ConnectNames(ms, names + [name], connectOk) == ConnectNames(ms, names, connectOk)
  {
    ConnectMethodsUndeclared(ms, name, connectOk);
    assert (names + [name])[..|names|] == names;
  }

  lemma {:induction false} ConnectMethodsUndeclared(ms: seq<MetaMethod>, name: string, connectOk: string -> bool)
    requires forall j :: 0 <= j < |ms| ==> ms[j].name != name || ms[j].kind != Signal
    ensures ConnectMethods(ms, name, connectOk) == Connected([], None)
  {
    if |ms| > 0 {
      var n := |ms| - 1;
      assert forall j :: 0 <= j < n ==> ms[..n][j] == ms[j];
      ConnectMethodsUndeclared(ms[..n], name, connectOk);
    }
  }

  class NickelDbusCli {
    const meta: MetaObject
    var methodName: string
    var methodArgs: seq<string>
    var signalNames: seq<string>
    var timeout: int
    var signalComplete: bool
    var methodComplete: bool
    var errString: string
    var exitRequests: seq<int>
    /** The signatures connected to a signal handler, in connection order. */
    var connections: seq<string>
    var timerArmed: bool

    constructor (meta: MetaObject, methodName: string, methodArgs: seq<string>, signalNames: seq<string>, timeout: int)
      ensures this.meta == meta && this.methodName == methodName && this.methodArgs == methodArgs
      ensures this.signalNames == signalNames && this.timeout == timeout
      ensures !signalComplete && !methodComplete && errString == "" && exitRequests == []
      ensures connections == [] && !timerArmed
    {
      this.meta := meta;
      this.methodName := methodName;
      this.methodArgs := methodArgs;
      this.signalNames := signalNames;
      this.timeout := timeout;
      signalComplete, methodComplete := false, false;
      errString, exitRequests := "", [];
      connections, timerArmed := [], false;
    }

    function JoinOf(): JoinState
      reads this
    {
      JoinState(methodName != "", |signalNames| > 0, methodComplete, signalComplete)
    }

    /** `validateArgCount`: whether some plain method or slot has the
      requested name and as many parameters as there are arguments. */
    method ValidateArgCount() returns (retval: bool)
      requires WellFormed(meta)
      ensures retval <==> exists i :: meta.methodOffset <= i < |meta.methods| && Invokable(meta.methods[i], methodName, |methodArgs|)
    {
      retval := false;
      var i := meta.methodOffset;
      while i < |meta.methods|
        invariant meta.methodOffset <= i <= |meta.methods|
        invariant !retval
        invariant forall k :: meta.methodOffset <= k < i ==> !Invokable(meta.methods[k], methodName, |methodArgs|)
      {
        var m := meta.methods[i];
        if m.name == methodName && (m.kind == Method || m.kind == Slot) {
          if |m.params| == |methodArgs| {
            retval := true;
            break;
          }
        }
        i := i + 1;
      }
    }

    /** `callMethod`: the count check, then the ladder; `reply` is the
      outcome of the proxy call, `sent` the call made. */
    method CallMethod(toInt: string -> Option<int>, reply: Reply) returns (rv: int, sent: Option<ProxyCall>)
      requires WellFormed(meta) && LadderReadsDeclaredArgs(meta, methodName, methodArgs, toInt)
      modifies this`errString
      ensures rv == 0 <==> CallSucceedsWith(meta, methodName, methodArgs, toInt, reply)
      ensures rv == 0 || rv == -1
      ensures FirstInvokable(meta, methodName, |methodArgs|, meta.methodOffset) == -1 ==>
        errString == CountError && sent.None?
      ensures FirstInvokable(meta, methodName, |methodArgs|, meta.methodOffset) != -1 ==>
        match Ladder(methodName, methodArgs, toInt)
        case Reject(msg) => errString == msg && sent.None?
        case Invoke(call) => sent == Some(call) &&
          (if reply.ReplyOk? then errString == old(errString) else errString == ReplyText(reply.errorType, reply.message))
        case ArgMissing => false
    {
      var valid := ValidateArgCount();
      if !valid {
        errString := CountError;
        return -1, None;
      }
      var d := Ladder(methodName, methodArgs, toInt);
      match d {
        case Reject(msg) =>
          errString := msg;
          return -1, None;
        case Invoke(call) =>
          if reply.ReplyError? {
            errString := ReplyText(reply.errorType, reply.message);
            return -1, Some(call);
          }
          return 0, Some(call);
      }
    }

    /** `connectSignals`: for every requested name, every method of the proxy
      in order; the first refusal stops both loops with its message.
      `connectOk` is whether `QObject::connect` succeeds for a signature. */
    method ConnectSignals(connectOk: string -> bool) returns (rv: int)
      requires WellFormed(meta)
      modifies this`connections, this`errString
      ensures var r := ConnectNames(meta.methods[meta.methodOffset..], signalNames, connectOk);
        && connections == old(connections) + r.signatures
        && (if r.error.None? then rv == 0 && errString == old(errString) else rv == -1 && Some(errString) == r.error)
    {
      var ms := meta.methods[meta.methodOffset..];
      var names := signalNames;
      ghost var connections0 := connections;
      for i := 0 to |names|
        invariant ConnectNames(ms, names[..i], connectOk).error.None?
        invariant connections == connections0 + ConnectNames(ms, names[..i], connectOk).signatures
        invariant errString == old(errString)
      {
        var ok := ConnectNext(names, i, connectOk, connections0);
        if !ok {
          return -1;
        }
      }
      assert names[..|names|] == names;
      return 0;
    }

    /** One turn of the outer loop of `connectSignals`, after the names before
      `names[i]` connected without error: the inner loop for `names[i]`. When
      it fails, its error is the error of the whole list. */
    method ConnectNext(names: seq<string>, i: nat, connectOk: string -> bool, ghost connections0: seq<string>)
      returns (ok: bool)
      requires WellFormed(meta) && i < |names|
      requires ConnectNames(meta.methods[meta.methodOffset..], names[..i], connectOk).error.None?
      requires connections == connections0 + ConnectNames(meta.methods[meta.methodOffset..], names[..i], connectOk).signatures
      modifies this`connections, this`errString
      ensures var r := ConnectNames(meta.methods[meta.methodOffset..], names[..i + 1], connectOk);
        && connections == connections0 + r.signatures
        && (if ok then r.error.None? && errString == old(errString)
            else ConnectNames(meta.methods[meta.methodOffset..], names, connectOk) == r && Some(errString) == r.error)
    {
      var ms := meta.methods[meta.methodOffset..];
      ghost var prev := ConnectNames(ms, names[..i], connectOk).signatures;
      ghost var c := ConnectMethods(ms, names[i], connectOk);
      ConnectNamesStep(ms, names, i, connectOk);
      ok := ConnectName(names[i], connectOk);
      assert connections == connections0 + (prev + c.signatures);
    }

    /** The inner loop of `connectSignals`, over every method for one name;
      false when a method is refused. */
    method ConnectName(name: string, connectOk: string -> bool) returns (ok: bool)
      requires WellFormed(meta)
      modifies this`connections, this`errString
      ensures var c := ConnectMethods(meta.methods[meta.methodOffset..], name, connectOk);
        && connections == old(connections) + c.signatures
        && (if c.error.None? then ok && errString == old(errString) else !ok && Some(errString) == c.error)
    {
      var ms := meta.methods[meta.methodOffset..];
      for k := 0 to |ms|
        invariant ConnectMethods(ms[..k], name, connectOk).error.None?
        invariant connections == old(connections) + ConnectMethods(ms[..k], name, connectOk).signatures
        invariant errString == old(errString)
      {
        assert ms[..k + 1][..k] == ms[..k];
        match ConnectOne(ms[k], name, connectOk) {
          case Skip =>
          case Connect(s) =>
            connections := connections + [s];
          case Refuse(msg) =>
            errString := msg;
            ConnectMethodsStops(ms, k + 1, name, connectOk);
            return false;
        }
      }
      assert ms[..|ms|] == ms;
      return true;
    }

    /** `processSignal`, reached only through a connected signal: quit when
      there is no method or it already returned, else remember the signal. */
    method ProcessSignal()
      modifies this`signalComplete, this`exitRequests
      ensures var (st, quit) := AfterSignal(old(JoinOf()));
        JoinOf() == st && exitRequests == old(exitRequests) + (if quit then [0] else [])
    {
      if methodName == "" || methodComplete {
        exitRequests := exitRequests + [0];
      } else {
        signalComplete := true;
      }
    }

    /** `handleTimeout`: exit with status 1. */
    method HandleTimeout()
      modifies this`exitRequests
      ensures exitRequests == old(exitRequests) + [1]
    {
      exitRequests := exitRequests + [1];
    }

    /** The method part of `start`. */
    method StartMethod(toInt: string -> Option<int>, reply: Reply)
      requires WellFormed(meta) && methodName != "" && LadderReadsDeclaredArgs(meta, methodName, methodArgs, toInt)
      modifies this`errString, this`exitRequests, this`methodComplete
      ensures if !CallSucceedsWith(meta, methodName, methodArgs, toInt, reply) then
          exitRequests == old(exitRequests) + [1] && methodComplete == old(methodComplete)
        else
          var (st, quit) := AfterMethod(old(JoinOf()));
          JoinOf() == st && exitRequests == old(exitRequests) + (if quit then [0] else [])
    {
      var rv, sent := CallMethod(toInt, reply);
      if rv != 0 {
        exitRequests := exitRequests + [1];
      } else {
        if |signalNames| > 0 && signalComplete {
          exitRequests := exitRequests + [0];
        } else if |signalNames| == 0 {
          exitRequests := exitRequests + [0];
        } else {
          methodComplete := true;
        }
      }
    }

    /** The first part of `start`: an invalid proxy and a failed connection
      each request exit status 1, and the tool carries on. */
    method StartConnect(valid: bool, connectOk: string -> bool)
      requires WellFormed(meta)
      modifies this`errString, this`exitRequests, this`connections
      ensures connections == old(connections) + ConnectNames(meta.methods[meta.methodOffset..], signalNames, connectOk).signatures
      ensures exitRequests == old(exitRequests) + (if valid then [] else [1]) +
        (if ConnectNames(meta.methods[meta.methodOffset..], signalNames, connectOk).error.Some? then [1] else [])
    {
      if !valid {
        exitRequests := exitRequests + [1];
      }
      if |signalNames| > 0 {
        var rv := ConnectSignals(connectOk);
        if rv != 0 {
          exitRequests := exitRequests + [1];
        }
      }
    }

    /** `start`: the proxy check and the connections, then the method, then
      the timer. */
    method Start(valid: bool, connectOk: string -> bool, toInt: string -> Option<int>, reply: Reply)
      requires WellFormed(meta) && LadderReadsDeclaredArgs(meta, methodName, methodArgs, toInt)
      modifies this`errString, this`exitRequests, this`methodComplete, this`connections, this`timerArmed
      ensures connections == old(connections) + ConnectNames(meta.methods[meta.methodOffset..], signalNames, connectOk).signatures
      ensures timerArmed == (old(timerArmed) || timeout > 0)
      ensures var before := old(exitRequests) + (if valid then [] else [1]) +
          (if ConnectNames(meta.methods[meta.methodOffset..], signalNames, connectOk).error.Some? then [1] else []);
        if methodName == "" then exitRequests == before && methodComplete == old(methodComplete)
        else if !CallSucceedsWith(meta, methodName, methodArgs, toInt, reply) then
          exitRequests == before + [1] && methodComplete == old(methodComplete)
        else
          var (st, quit) := AfterMethod(old(JoinOf()));
          JoinOf() == st && exitRequests == before + (if quit then [0] else [])
    {
      StartConnect(valid, connectOk);
      if methodName != "" {
        StartMethod(toInt, reply);
      }
      if timeout > 0 {
        timerArmed := true;
      }
    }
  }

  /** Once the inner loop fails on a prefix of the methods, the rest changes
      nothing. */
  lemma {:induction false} ConnectMethodsStops(ms: seq<MetaMethod>, n: nat, name: string, connectOk: string -> bool)
    requires n <= |ms| && ConnectMethods(ms[..n], name, connectOk).error.Some?
    ensures ConnectMethods(ms, name, connectOk) == ConnectMethods(ms[..n], name, connectOk)
  {
    if n < |ms| {
      var m := |ms| - 1;
      assert ms[..m][..n] == ms[..n];
      ConnectMethodsStops(ms[..m], n, name, connectOk);
    } else {
      assert ms[..n] == ms;
    }
  }

  /** Once both loops fail on a prefix of the names, the rest changes
      nothing. */
  /** One more name, after a prefix that connected without error: its
      signatures follow those of the prefix, and its error, if any, is the
      error of the whole list. */
  lemma ConnectNamesStep(ms: seq<MetaMethod>, names: seq<string>, i: nat, connectOk: string -> bool)
    requires i < |names| && ConnectNames(ms, names[..i], connectOk).error.None?
    ensures var c := ConnectMethods(ms, names[i], connectOk);
      var next := Connected(ConnectNames(ms, names[..i], connectOk).signatures + c.signatures, c.error);
      && ConnectNames(ms, names[..i + 1], connectOk) == next
      && (c.error.Some? ==> ConnectNames(ms, names, connectOk) == next)
  {
    assert names[..i + 1][..i] == names[..i];
    if ConnectMethods(ms, names[i], connectOk).error.Some? {
      ConnectNamesStops(ms, names, i + 1, connectOk);
    }
  }

  lemma {:induction false} ConnectNamesStops(ms: seq<MetaMethod>, names: seq<string>, n: nat, connectOk: string -> bool)
    requires n <= |names| && ConnectNames(ms, names[..n], connectOk).error.Some?
    ensures ConnectNames(ms, names, connectOk) == ConnectNames(ms, names[..n], connectOk)
  {
    if n < |names| {
      var m := |names| - 1;
      assert names[..m][..n] == names[..n];
      ConnectNamesStops(ms, names[..m], n, connectOk);
    } else {
      assert names[..n] == names;
    }
  }
}
