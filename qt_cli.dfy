/** The Qt command-line tool that calls NickelDBus through its generated
    proxy by reflection (`src/cli/ndb_cli.cc`): method lookup, argument
    conversion, and the completion of a call that also waits for a signal.
    The reflective invocation and the printing of its reply are an input to the
    model; `QCoreApplication::quit` and `exit` are recorded as exit requests
    (quit is `exit(0)`; the last request decides the exit code). */
module QtCli {
  import opened Wrappers
  import opened QtMeta
  import opened Join

  /** A converted argument, as created by `QMetaType::create` and filled in. */
  datatype ParamValue = IntValue(i: int) | BoolValue(b: bool) | StringValue(s: string)

  /** `convertParam`: an `int` through `QString::toInt` (`toInt`), a `bool`
      through the case-insensitive spelling, a `QString` appended to the fresh
      empty string; every other parameter type is refused. */
  function ConvertParam(token: string, t: MetaType, toInt: string -> Option<int>): (r: Option<ParamValue>)
    ensures t == QStringType ==> r == Some(StringValue(token))
    ensures t == BoolType ==> (r.Some? <==> QtBool(token).Some?) && (r.Some? ==> r.value == BoolValue(QtBool(token).value))
    ensures t == IntType ==> (r.Some? <==> toInt(token).Some?) && (r.Some? ==> r.value == IntValue(toInt(token).value))
    ensures t.DoubleType? || t.OtherType? ==> r.None?
  {
    match t
    case IntType => if toInt(token).Some? then Some(IntValue(toInt(token).value)) else None
    case BoolType => if QtBool(token).Some? then Some(BoolValue(QtBool(token).value)) else None
    case QStringType =>
      var empty := "";
      assert empty + token == token;
      Some(StringValue(empty + token))
    case _ => None
  }

  /** The conversion loop of `callMethodInvoke`: every parameter in order,
      stopping at the first one that does not convert (its index is the error). */
  function ConvertParams(params: seq<Param>, args: seq<string>, toInt: string -> Option<int>): (r: Result<seq<ParamValue>, nat>)
    requires |params| == |args|
    ensures r.Failure? ==> r.error < |params| && ConvertParam(args[r.error], params[r.error].typ, toInt).None?
    ensures r.Failure? ==> forall j :: 0 <= j < r.error ==> ConvertParam(args[j], params[j].typ, toInt).Some?
    ensures r.Success? ==> |r.value| == |params|
    ensures r.Success? ==> forall j :: 0 <= j < |params| ==> ConvertParam(args[j], params[j].typ, toInt) == Some(r.value[j])
  {
    if |params| == 0 then Success([])
    else
      var n := |params| - 1;
      var prefix := ConvertParams(params[..n], args[..n], toInt);
      assert forall j :: 0 <= j < n ==> params[..n][j] == params[j] && args[..n][j] == args[j];
      if prefix.Failure? then prefix
      else
        match ConvertParam(args[n], params[n].typ, toInt)
        case None => Failure(n)
        case Some(v) => Success(prefix.value + [v])
  }

  /** Whether `callMethodInvoke` returns 0 for these inputs. */
  predicate InvokeSucceeds(meta: MetaObject, methodName: string, methodArgs: seq<string>,
                           toInt: string -> Option<int>, invoke: Result<(), string>)
    requires WellFormed(meta)
  {
    var index := FirstInvokable(meta, methodName, |methodArgs|, meta.methodOffset);
    index != -1 && |meta.methods[index].params| <= 10 &&
    ConvertParams(meta.methods[index].params, methodArgs, toInt).Success? && invoke.Success?
  }

  /** The method part of `start`: exit with status 1 when the call fails,
      else the join rule's new state and its quit, if any. */
  function MethodOutcome(succeeded: bool, st: JoinState): (JoinState, seq<int>)
  {
    if !succeeded then (st, [1])
    else
      var (next, quit) := AfterMethod(st);
      (next, if quit then [0] else [])
  }

  class NdbCli {
    const meta: MetaObject
    var methodName: string
    var methodArgs: seq<string>
    var signalNames: seq<string>
    var timeout: int
    var printApi: bool
    var signalComplete: bool
    var methodComplete: bool
    var errString: string
    var exitRequests: seq<int>
    var signalsConnected: bool
    var timerArmed: bool

    /** The tool after `main` has set the method, its arguments, the signals to
      wait for, the timeout and the API flag. */
    constructor (meta: MetaObject, methodName: string, methodArgs: seq<string>, signalNames: seq<string>,
                 timeout: int, printApi: bool)
      ensures this.meta == meta && this.methodName == methodName && this.methodArgs == methodArgs
      ensures this.signalNames == signalNames && this.timeout == timeout && this.printApi == printApi
      ensures !signalComplete && !methodComplete && errString == "" && exitRequests == []
      ensures !signalsConnected && !timerArmed
    {
      this.meta := meta;
      this.methodName := methodName;
      this.methodArgs := methodArgs;
      this.signalNames := signalNames;
      this.timeout := timeout;
      this.printApi := printApi;
      signalComplete, methodComplete := false, false;
      errString, exitRequests := "", [];
      signalsConnected, timerArmed := false, false;
    }

    /** The completion flags, seen as the shared join rule. */
    function JoinOf(): JoinState
      reads this`methodName, this`signalNames, this`methodComplete, this`signalComplete
    {
      JoinState(methodName != "", |signalNames| > 0, methodComplete, signalComplete)
    }

    /** `getMethodIndex`: the first invokable method with the requested name
      and as many parameters as arguments, or -1. */
    method GetMethodIndex() returns (index: int)
      requires WellFormed(meta)
      ensures index == FirstInvokable(meta, methodName, |methodArgs|, meta.methodOffset)
    {
      var i := meta.methodOffset;
      while i < |meta.methods|
        invariant meta.methodOffset <= i <= |meta.methods|
        invariant FirstInvokable(meta, methodName, |methodArgs|, meta.methodOffset) ==
                  FirstInvokable(meta, methodName, |methodArgs|, i)
      {
        var method_ := meta.methods[i];
        if method_.name == methodName && (method_.kind == Method || method_.kind == Slot) {
          if |method_.params| == |methodArgs| {
            return i;
          }
        }
        i := i + 1;
      }
      return -1;
    }

    /** `callMethodInvoke`. `invoke` is the outcome of the reflective call and
      the wait for its reply (an error message on failure). `sent` is what
      was passed to the call. */
    method CallMethodInvoke(toInt: string -> Option<int>, invoke: Result<(), string>)
      returns (rv: int, sent: seq<ParamValue>)
      requires WellFormed(meta)
      modifies this`errString
      ensures rv == 0 <==> InvokeSucceeds(meta, methodName, methodArgs, toInt, invoke)
      ensures var index := FirstInvokable(meta, methodName, |methodArgs|, meta.methodOffset);
        if index == -1 then
          rv == -1 && errString == "non-existent method or invalid parameter count"
        else
          var params := meta.methods[index].params;
          if |params| > 10 then
            rv == -1 && errString == "a maximum of 10 parameters are allowed"
          else
            match ConvertParams(params, methodArgs, toInt)
            case Failure(k) => rv == -1 && errString == "unable to convert parameter " + params[k].name
            case Success(values) =>
              sent == values &&
              if invoke.Success? then rv == 0 && errString == old(errString)
              else rv == -1 && errString == invoke.error
    {
      var methodIndex := GetMethodIndex();
      if methodIndex < 0 {
        errString := "non-existent method or invalid parameter count";
        return -1, [];
      }
      var m := meta.methods[methodIndex];
      if |m.params| > 10 {
        errString := "a maximum of 10 parameters are allowed";
        return -1, [];
      }
      var converted := ConvertArgs(m.params, methodArgs, toInt);
      if converted.Failure? {
        errString := "unable to convert parameter " + m.params[converted.error].name;
        return -1, [];
      }
      sent := converted.value;
      if invoke.Failure? {
        errString := invoke.error;
        return -1, sent;
      }
      return 0, sent;
    }

    /** `handleSignal`: only a requested signal counts; it quits when there is
      no method or the method already returned, else it is remembered. */
    method HandleSignal(sigName: string)
      modifies this`signalComplete, this`exitRequests
      ensures sigName !in signalNames ==> signalComplete == old(signalComplete) && exitRequests == old(exitRequests)
      ensures sigName in signalNames ==>
        var (st, quit) := AfterSignal(old(JoinOf()));
        JoinOf() == st && exitRequests == old(exitRequests) + (if quit then [0] else [])
    {
      if sigName in signalNames {
        if methodName == "" || methodComplete {
          exitRequests := exitRequests + [0];
        } else {
          signalComplete := true;
        }
      }
    }

    /** `handleTimeout`: exit with status 1. */
    method HandleTimeout()
      modifies this`exitRequests
      ensures exitRequests == old(exitRequests) + [1]
    {
      exitRequests := exitRequests + [1];
    }

    /** The method part of `start`: call it; exit with status 1 when the call
      fails, else apply the join rule. */
    method StartMethod(toInt: string -> Option<int>, invoke: Result<(), string>)
      requires WellFormed(meta) && methodName != ""
      modifies this`errString, this`exitRequests, this`methodComplete
      ensures var (st, exits) := MethodOutcome(InvokeSucceeds(meta, methodName, methodArgs, toInt, invoke), old(JoinOf()));
        JoinOf() == st && exitRequests == old(exitRequests) + exits
    {
      var rv, sent := CallMethodInvoke(toInt, invoke);
      if rv != 0 {
        exitRequests := exitRequests + [1];
      } else {
        if |signalNames| > 0 && signalComplete {
          exitRequests := exitRequests + [0];
        } else if |signalNames| == 0 {
          exitRequests := exitRequests + [0];
        } else {
          methodComplete := true;
        }
      }
    }

    /** `start`. `valid` is the proxy's `isValid()`; printing the API and
      connecting the fixed list of proxy signals are recorded, not modelled. */
    method Start(valid: bool, toInt: string -> Option<int>, invoke: Result<(), string>)
      requires WellFormed(meta)
      modifies this`errString, this`exitRequests, this`methodComplete, this`signalsConnected, this`timerArmed
      ensures signalsConnected == (old(signalsConnected) || |signalNames| > 0)
      ensures timerArmed == (old(timerArmed) || timeout > 0)
      ensures var before := old(exitRequests) + (if valid then [] else [1]) + (if printApi then [0] else []);
        if methodName == "" then exitRequests == before && JoinOf() == old(JoinOf())
        else
          var (st, exits) := MethodOutcome(InvokeSucceeds(meta, methodName, methodArgs, toInt, invoke), old(JoinOf()));
          JoinOf() == st && exitRequests == before + exits
    {
      if !valid {
        exitRequests := exitRequests + [1];
      }
      if printApi {
        exitRequests := exitRequests + [0];
      }
      assert exitRequests == old(exitRequests) + (if valid then [] else [1]) + (if printApi then [0] else []);
      assert JoinOf() == old(JoinOf());
      if |signalNames| > 0 {
        signalsConnected := true;
      }
      if methodName != "" {
        StartMethod(toInt, invoke);
      }
      if timeout > 0 {
        timerArmed := true;
      }
    }
  }

  /** The conversion loop of `callMethodInvoke`: each argument converted
      with its parameter's type, breaking at the first one that fails. */
  method ConvertArgs(params: seq<Param>, args: seq<string>, toInt: string -> Option<int>)
    returns (r: Result<seq<ParamValue>, nat>)
    requires |params| == |args|
    ensures r == ConvertParams(params, args, toInt)
  {
    var sent := [];
    for i := 0 to |params|
      invariant ConvertParams(params[..i], args[..i], toInt) == Success(sent)
    {
      assert params[..i + 1][..i] == params[..i] && args[..i + 1][..i] == args[..i];
      var p := ConvertParam(args[i], params[i].typ, toInt);
      if p.None? {
        assert ConvertParams(params[..i + 1], args[..i + 1], toInt) == Failure(i);
        ConvertFailureExtends(params, args, i + 1, toInt);
        return Failure(i);
      }
      sent := sent + [p.value];
    }
    assert params[..|params|] == params && args[..|params|] == args;
    return Success(sent);
  }

  /** A conversion failure in a prefix of the parameters is the failure of
      the whole list. */
  lemma {:induction false} ConvertFailureExtends(params: seq<Param>, args: seq<string>, n: nat, toInt: string -> Option<int>)
    requires n <= |params| == |args|
    requires ConvertParams(params[..n], args[..n], toInt).Failure?
    ensures ConvertParams(params, args, toInt) == ConvertParams(params[..n], args[..n], toInt)
  {
    if n < |params| {
      var m := |params| - 1;
      assert params[..m][..n] == params[..n] && args[..m][..n] == args[..n];
      ConvertFailureExtends(params[..m], args[..m], n, toInt);
    } else {
      assert params[..n] == params && args[..n] == args;
    }
  }

  /** The failure reported is the FIRST parameter that does not convert. */
  lemma ConvertReportsFirstFailure(params: seq<Param>, args: seq<string>, k: nat, toInt: string -> Option<int>)
    requires |params| == |args| && k < |params|
    requires ConvertParam(args[k], params[k].typ, toInt).None?
    requires forall j :: 0 <= j < k ==> ConvertParam(args[j], params[j].typ, toInt).Some?
    ensures ConvertParams(params, args, toInt) == Failure(k)
  {
    var r := ConvertParams(params, args, toInt);
    assert r.Failure?;
  }
}
