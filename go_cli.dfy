/** The introspection-driven Go CLI (`ndb-cli`): the interface lookup, the
    overload and coercion scan of `callMethod`, the requested-signal set and the
    signal filter of `waitForSignal`. The D-Bus connection, the introspection
    call, the remote call and the goroutine that waits for a signal are inputs
    to the model (their outcomes are parameters). */
module GoCli {
  import opened Wrappers
  import opened Text
  import opened DBusValues

  /** Introspection data: `introspect.Arg`, `Method`, `Signal`, `Interface`. */
  datatype Arg = Arg(name: string, typ: string, direction: string)
  datatype Method = Method(name: string, args: seq<Arg>)
  datatype Signal = Signal(name: string, args: seq<Arg>)
  datatype Interface = Interface(name: string, methods: seq<Method>, signals: seq<Signal>)

  // ---------------------------------------------------------------- signals

  /** The `signals` flag type: a set of requested signal names. */
  class SignalSet {
    var names: set<string>

    constructor ()
      ensures names == {}
    {
      names := {};
    }

    /** `Set` inserts a name; inserting it again changes nothing. */
    method Set(sigName: string)
      modifies this
      ensures names == old(names) + {sigName}
      ensures old(sigName in names) ==> names == old(names)
    {
      names := names + {sigName};
    }

    function Exists(signal: string): (r: bool)
      reads this
      ensures r <==> signal in names
    {
      signal in names
    }
  }

  // ---------------------------------------------------------------- initDBus

  /** The loop of `initDBus`: the index of the LAST interface with the given
      name, or -1 when there is none. */
  method LastInterfaceIndex(ifaces: seq<Interface>, name: string) returns (index: int)
    ensures index == -1 <==> forall k :: 0 <= k < |ifaces| ==> ifaces[k].name != name
    ensures index != -1 ==> 0 <= index < |ifaces| && ifaces[index].name == name
    ensures forall k :: index < k < |ifaces| ==> ifaces[k].name != name
  {
    index := -1;
    for i := 0 to |ifaces|
      invariant -1 <= index < i
      invariant index != -1 ==> ifaces[index].name == name
      invariant forall k :: index < k < i ==> ifaces[k].name != name
    {
      if ifaces[i].name == name {
        index := i;
      }
    }
  }

  datatype InitError =
    | ConnectFailed          // "Error connecting to system bus"
    | IntrospectFailed       // "Error introspecting NickelDBus"
    | InterfaceMissing       // "%s not in list of available interfaces"

  // ---------------------------------------------------------------- callMethod

  /** The types of the `in` arguments, in declaration order. */
  function InTypes(args: seq<Arg>): (r: seq<string>)
    ensures |r| <= |args|
  {
    if |args| == 0 then []
    else InTypes(args[..|args| - 1]) + (if args[|args| - 1].direction == "in" then [args[|args| - 1].typ] else [])
  }

  /** Coerce each token with the type at the same position, stopping at the
      first token that does not coerce. */
  function CoerceAll(types: seq<string>, tokens: seq<string>, parseFloat: string -> Option<real>): (r: Option<seq<Value>>)
    requires |types| == |tokens|
    ensures r.Some? ==> |r.value| == |types|
  {
    if |types| == 0 then Some([])
    else
      var n := |types| - 1;
      match CoerceAll(types[..n], tokens[..n], parseFloat)
      case None => None
      case Some(vs) =>
        match StrToDBusType(types[n], tokens[n], parseFloat)
        case Failure(_) => None
        case Success(v) => Some(vs + [v])
  }

  /** The coercion of a whole argument list fails exactly when one token does
      not coerce, and otherwise holds each token's own coercion, well typed. */
  lemma {:induction false} CoerceAllPointwise(types: seq<string>, tokens: seq<string>, parseFloat: string -> Option<real>)
    requires |types| == |tokens|
    ensures var r := CoerceAll(types, tokens, parseFloat);
      && (r.None? <==> exists k :: 0 <= k < |types| && StrToDBusType(types[k], tokens[k], parseFloat).Failure?)
      && (r.Some? ==> forall k :: 0 <= k < |types| ==>
            StrToDBusType(types[k], tokens[k], parseFloat) == Success(r.value[k]) && WellTyped(types[k], r.value[k]))
  {
    if |types| > 0 {
      var n := |types| - 1;
      CoerceAllPointwise(types[..n], tokens[..n], parseFloat);
      var p := CoerceAll(types[..n], tokens[..n], parseFloat);
      if p.None? {
        var k :| 0 <= k < n && StrToDBusType(types[..n][k], tokens[..n][k], parseFloat).Failure?;
        assert StrToDBusType(types[k], tokens[k], parseFloat).Failure?;
      } else if StrToDBusType(types[n], tokens[n], parseFloat).Success? {
        var r := CoerceAll(types, tokens, parseFloat);
        forall k | 0 <= k < |types|
          ensures StrToDBusType(types[k], tokens[k], parseFloat) == Success(r.value[k])
        {
          if k < n { assert types[..n][k] == types[k] && tokens[..n][k] == tokens[k]; }
        }
      }
    }
  }

  lemma CoerceAllSnoc(types: seq<string>, tokens: seq<string>, t: string, tok: string, parseFloat: string -> Option<real>)
    requires |types| == |tokens|
    ensures CoerceAll(types + [t], tokens + [tok], parseFloat) ==
      match CoerceAll(types, tokens, parseFloat)
      case None => None
      case Some(vs) =>
        match StrToDBusType(t, tok, parseFloat)
        case Failure(_) => None
        case Success(v) => Some(vs + [v])
  {
    assert (types + [t])[..|types|] == types;
    assert (tokens + [tok])[..|tokens|] == tokens;
  }

  /** A method is a candidate when its name matches and it declares as many
      `in` arguments as there are tokens. */
  predicate IsCandidate(m: Method, name: string, argc: nat)
  {
    m.name == name && |InTypes(m.args)| == argc
  }

  /** The three variables of the scan. */
  datatype ScanState = ScanState(convArgs: seq<Value>, methodFound: bool, invalidArgs: bool)

  /** One iteration of the outer loop of `callMethod`: a candidate that coerces
      appends its values and clears `invalidArgs`; one that fails empties
      `convArgs` and sets `invalidArgs`; any other method changes nothing. */
  function Step(st: ScanState, m: Method, name: string, args: seq<string>, parseFloat: string -> Option<real>): ScanState
  {
    if IsCandidate(m, name, |args|) then
      match CoerceAll(InTypes(m.args), args, parseFloat)
      case Some(vs) => ScanState(st.convArgs + vs, true, false)
      case None => ScanState([], st.methodFound, true)
    else st
  }

  /** The scan over all methods of the interface, in order, never stopping early. */
  function Scan(ms: seq<Method>, name: string, args: seq<string>, parseFloat: string -> Option<real>): ScanState
  {
    if |ms| == 0 then ScanState([], false, false)
    else Step(Scan(ms[..|ms| - 1], name, args, parseFloat), ms[|ms| - 1], name, args, parseFloat)
  }

  lemma {:induction false} InTypesPrefix(a: seq<Arg>, k: nat)
    requires k <= |a|
    ensures |InTypes(a[..k])| <= |InTypes(a)|
    ensures InTypes(a[..k]) == InTypes(a)[..|InTypes(a[..k])|]
  {
    if k < |a| {
      var b := a[..|a| - 1];
      InTypesPrefix(b, k);
      assert b[..k] == a[..k];
    } else {
      assert a[..k] == a;
    }
  }

  /** Once a prefix of the tokens fails to coerce, the whole list does. */
  lemma {:induction false} CoerceAllPrefixFails(types: seq<string>, tokens: seq<string>, n: nat, parseFloat: string -> Option<real>)
    requires n <= |types| == |tokens|
    requires CoerceAll(types[..n], tokens[..n], parseFloat).None?
    ensures CoerceAll(types, tokens, parseFloat).None?
  {
    if n < |types| {
      var m := |types| - 1;
      assert types[..m][..n] == types[..n] && tokens[..m][..n] == tokens[..n];
      CoerceAllPrefixFails(types[..m], tokens[..m], n, parseFloat);
    } else {
      assert types[..n] == types && tokens[..n] == tokens;
    }
  }

  /** The first inner loop of `callMethod`: the number of `in` arguments. */
  method CountInArgs(margs: seq<Arg>) returns (argCount: nat)
    ensures argCount == |InTypes(margs)|
  {
    argCount := 0;
    for k := 0 to |margs|
      invariant argCount == |InTypes(margs[..k])|
    {
      assert margs[..k + 1][..k] == margs[..k];
      if margs[k].direction == "in" {
        argCount := argCount + 1;
      }
    }
    assert margs[..|margs|] == margs;
  }

  /** One more argument: an `in` argument takes the next of the `in` types,
      any other leaves the prefix of them as it is. */
  lemma InTypesAdvance(margs: seq<Arg>, k: nat, i: nat)
    requires k < |margs| && i <= |InTypes(margs)|
    requires InTypes(margs[..k]) == InTypes(margs)[..i]
    ensures margs[k].direction != "in" ==> InTypes(margs[..k + 1]) == InTypes(margs)[..i]
    ensures margs[k].direction == "in" ==>
      i < |InTypes(margs)| && InTypes(margs)[i] == margs[k].typ && InTypes(margs[..k + 1]) == InTypes(margs)[..i + 1]
  {
    assert margs[..k + 1][..k] == margs[..k];
    InTypesPrefix(margs, k + 1);
    if margs[k].direction == "in" {
      var types := InTypes(margs);
      assert types[..i + 1] == InTypes(margs[..k + 1]);
      assert types[..i + 1][i] == margs[k].typ;
    }
  }

  /** One more token: it either fails the whole coercion or extends the
      coerced prefix by its own value. */
  lemma CoercePrefixStep(types: seq<string>, tokens: seq<string>, i: nat, parseFloat: string -> Option<real>)
    requires i < |types| == |tokens|
    requires CoerceAll(types[..i], tokens[..i], parseFloat).Some?
    ensures StrToDBusType(types[i], tokens[i], parseFloat).Failure? ==> CoerceAll(types, tokens, parseFloat).None?
    ensures StrToDBusType(types[i], tokens[i], parseFloat).Success? ==>
      CoerceAll(types[..i + 1], tokens[..i + 1], parseFloat)
      == Some(CoerceAll(types[..i], tokens[..i], parseFloat).value + [StrToDBusType(types[i], tokens[i], parseFloat).value])
  {
    assert types[..i + 1][..i] == types[..i];
    assert tokens[..i + 1][..i] == tokens[..i];
    if StrToDBusType(types[i], tokens[i], parseFloat).Failure? {
      CoerceAllPrefixFails(types, tokens, i + 1, parseFloat);
    }
  }

  /** The second inner loop of `callMethod`: coerce the `in` arguments in
      order, appending to `convArgs`; on the first failure set `invalidArgs`,
      drop everything collected so far and break. `i` counts the tokens
      consumed. */
  method CoerceInArgs(margs: seq<Arg>, tokens: seq<string>, parseFloat: string -> Option<real>,
                      convArgs0: seq<Value>, invalidArgs0: bool)
    returns (convArgs: seq<Value>, invalidArgs: bool, i: nat)
    requires |tokens| == |InTypes(margs)|
    ensures var c := CoerceAll(InTypes(margs), tokens, parseFloat);
      if c.Some? then convArgs == convArgs0 + c.value && invalidArgs == invalidArgs0 && i == |tokens|
      else convArgs == [] && invalidArgs && i < |tokens|
  {
    ghost var types := InTypes(margs);
    convArgs, invalidArgs, i := convArgs0, invalidArgs0, 0;
    var k := 0;
    while k < |margs|
      invariant k <= |margs| && i <= |tokens|
      invariant InTypes(margs[..k]) == types[..i]
      invariant CoerceAll(types[..i], tokens[..i], parseFloat).Some?
      invariant convArgs == convArgs0 + CoerceAll(types[..i], tokens[..i], parseFloat).value
      invariant invalidArgs == invalidArgs0
    {
      InTypesAdvance(margs, k, i);
      if margs[k].direction == "in" {
        CoercePrefixStep(types, tokens, i, parseFloat);
        var v := StrToDBusType(margs[k].typ, tokens[i], parseFloat);
        if v.Failure? {
          invalidArgs := true;
          convArgs := [];
          return;
        }
        convArgs := convArgs + [v.value];
        i := i + 1;
      }
      k := k + 1;
    }
    InTypesPrefix(margs, k);
    assert margs[..k] == margs;
    assert types[..i] == types && tokens[..i] == tokens;
  }

  /** The outer loop of `callMethod`, as written: every method is visited,
      and after a candidate's coercion `invalidArgs` is cleared only when all
      its tokens were consumed. */
  method ScanOverloads(ms: seq<Method>, name: string, args: seq<string>, parseFloat: string -> Option<real>)
    returns (convArgs: seq<Value>, methodFound: bool, invalidArgs: bool)
    ensures ScanState(convArgs, methodFound, invalidArgs) == Scan(ms, name, args, parseFloat)
  {
    convArgs, methodFound, invalidArgs := [], false, false;
    for j := 0 to |ms|
      invariant ScanState(convArgs, methodFound, invalidArgs) == Scan(ms[..j], name, args, parseFloat)
    {
      assert ms[..j + 1][..j] == ms[..j];
      var m := ms[j];
      if m.name == name {
        var argCount := CountInArgs(m.args);
        if |args| == argCount {
          var i;
          convArgs, invalidArgs, i := CoerceInArgs(m.args, args, parseFloat, convArgs, invalidArgs);
          if i == argCount {
            invalidArgs := false;
          }
          if invalidArgs {
            continue;
          }
          methodFound := true;
        }
      }
    }
    assert ms[..|ms|] == ms;
  }

  // ---------------------------------------------------------------- what the scan decides

  /** The index of the last candidate, or -1. */
  function LastCandidate(ms: seq<Method>, name: string, argc: nat): (c: int)
    ensures -1 <= c < |ms|
    ensures c >= 0 ==> IsCandidate(ms[c], name, argc)
    ensures forall k :: c < k < |ms| ==> !IsCandidate(ms[k], name, argc)
  {
    if |ms| == 0 then -1
    else if IsCandidate(ms[|ms| - 1], name, argc) then |ms| - 1
    else LastCandidate(ms[..|ms| - 1], name, argc)
  }

  predicate Coerces(m: Method, args: seq<string>, parseFloat: string -> Option<real>)
    requires |InTypes(m.args)| == |args|
  {
    CoerceAll(InTypes(m.args), args, parseFloat).Some?
  }

  /** "invalid arguments" is decided by the last candidate alone: it is
      reported exactly when the last candidate fails to coerce. */
  lemma {:induction false} ScanInvalidIffLastCandidateFails(ms: seq<Method>, name: string, args: seq<string>, parseFloat: string -> Option<real>)
    ensures var c := LastCandidate(ms, name, |args|);
      Scan(ms, name, args, parseFloat).invalidArgs <==> c >= 0 && !Coerces(ms[c], args, parseFloat)
  {
    if |ms| > 0 {
      var init := ms[..|ms| - 1];
      ScanInvalidIffLastCandidateFails(init, name, args, parseFloat);
      if !IsCandidate(ms[|ms| - 1], name, |args|) {
        var c := LastCandidate(init, name, |args|);
        assert c >= 0 ==> ms[c] == init[c];
      }
    }
  }

  /** A method is found exactly when some candidate coerces, wherever it
      stands in the list. */
  lemma {:induction false} ScanFoundIffSomeCandidateCoerces(ms: seq<Method>, name: string, args: seq<string>, parseFloat: string -> Option<real>)
    ensures Scan(ms, name, args, parseFloat).methodFound <==>
      exists k :: 0 <= k < |ms| && IsCandidate(ms[k], name, |args|) && Coerces(ms[k], args, parseFloat)
  {
    if |ms| > 0 {
      var n := |ms| - 1;
      var init := ms[..n];
      ScanFoundIffSomeCandidateCoerces(init, name, args, parseFloat);
      if Scan(init, name, args, parseFloat).methodFound {
        var k :| 0 <= k < n && IsCandidate(init[k], name, |args|) && Coerces(init[k], args, parseFloat);
        assert ms[k] == init[k];
      }
      if exists k :: 0 <= k < |ms| && IsCandidate(ms[k], name, |args|) && Coerces(ms[k], args, parseFloat) {
        var k :| 0 <= k < |ms| && IsCandidate(ms[k], name, |args|) && Coerces(ms[k], args, parseFloat);
        if k < n { assert init[k] == ms[k]; }
      }
    }
  }

  /** A candidate whose arguments do not coerce. */
  predicate Fails(m: Method, name: string, args: seq<string>, parseFloat: string -> Option<real>)
  {
    IsCandidate(m, name, |args|) && !Coerces(m, args, parseFloat)
  }

  /** The index of the last candidate that fails to coerce, or -1. */
  function LastFailure(ms: seq<Method>, name: string, args: seq<string>, parseFloat: string -> Option<real>): (f: int)
    ensures -1 <= f < |ms|
    ensures f >= 0 ==> Fails(ms[f], name, args, parseFloat)
    ensures forall k :: f < k < |ms| ==> !Fails(ms[k], name, args, parseFloat)
  {
    if |ms| == 0 then -1
    else if Fails(ms[|ms| - 1], name, args, parseFloat) then |ms| - 1
    else
      var f := LastFailure(ms[..|ms| - 1], name, args, parseFloat);
      assert forall k :: 0 <= k < |ms| - 1 ==> ms[..|ms| - 1][k] == ms[k];
      f
  }

  /** The values one method adds: its coerced values when it is a candidate
      that coerces, else none. */
  function Gain(m: Method, name: string, args: seq<string>, parseFloat: string -> Option<real>): seq<Value>
  {
    if IsCandidate(m, name, |args|) && Coerces(m, args, parseFloat) then CoerceAll(InTypes(m.args), args, parseFloat).value else []
  }

  /** The values of every candidate that coerces, concatenated in list
      order, as if a failing candidate cleared nothing. */
  function Collected(ms: seq<Method>, name: string, args: seq<string>, parseFloat: string -> Option<real>): seq<Value>
  {
    if |ms| == 0 then []
    else Collected(ms[..|ms| - 1], name, args, parseFloat) + Gain(ms[|ms| - 1], name, args, parseFloat)
  }

  /** One scan step either clears `convArgs` (a failing candidate) or adds the
      method's gain to it. */
  lemma StepConvArgs(st: ScanState, m: Method, name: string, args: seq<string>, parseFloat: string -> Option<real>)
    ensures Step(st, m, name, args, parseFloat).convArgs ==
      if Fails(m, name, args, parseFloat) then [] else st.convArgs + Gain(m, name, args, parseFloat)
  {
  }

  /** Given a failing candidate at `f` (or none, `f == -1`) and none after
      it, the scan holds exactly what the methods after `f` gain. */
  lemma {:induction false} ScanCollectsAfter(ms: seq<Method>, f: int, name: string, args: seq<string>, parseFloat: string -> Option<real>)
    requires -1 <= f < |ms|
    requires f >= 0 ==> Fails(ms[f], name, args, parseFloat)
    requires forall k :: f < k < |ms| ==> !Fails(ms[k], name, args, parseFloat)
    ensures Scan(ms, name, args, parseFloat).convArgs == Collected(ms[f + 1..], name, args, parseFloat)
  {
    if |ms| > 0 {
      var n := |ms| - 1;
      StepConvArgs(Scan(ms[..n], name, args, parseFloat), ms[n], name, args, parseFloat);
      if f < n {
        ScanCollectsAfter(ms[..n], f, name, args, parseFloat);
        DropLast(ms, f);
      }
    }
  }

  lemma DropLast(ms: seq<Method>, f: int)
    requires -1 <= f < |ms| - 1
    ensures ms[f + 1..][..|ms| - f - 2] == ms[..|ms| - 1][f + 1..]
    ensures ms[f + 1..][|ms| - f - 2] == ms[|ms| - 1]
  {
  }

  /** What the scan leaves in `convArgs`: the values of the candidates that
      coerce after the last one that failed, concatenated in list order; so
      nothing when the last candidate failed, and every coercing candidate's
      values when none failed. */
  lemma ScanCollectsAfterLastFailure(ms: seq<Method>, name: string, args: seq<string>, parseFloat: string -> Option<real>)
    ensures var f := LastFailure(ms, name, args, parseFloat);
      Scan(ms, name, args, parseFloat).convArgs == Collected(ms[f + 1..], name, args, parseFloat)
  {
    ScanCollectsAfter(ms, LastFailure(ms, name, args, parseFloat), name, args, parseFloat);
  }

  /** With a single candidate the scan does what its authors meant: that
      candidate's coerced values, or "invalid arguments". */
  lemma {:induction false} ScanSingleCandidate(ms: seq<Method>, c: nat, name: string, args: seq<string>, parseFloat: string -> Option<real>)
    requires c < |ms| && IsCandidate(ms[c], name, |args|)
    requires forall k :: 0 <= k < |ms| && k != c ==> !IsCandidate(ms[k], name, |args|)
    ensures var r := CoerceAll(InTypes(ms[c].args), args, parseFloat);
      Scan(ms, name, args, parseFloat) ==
        if r.Some? then ScanState(r.value, true, false) else ScanState([], false, true)
  {
    var n := |ms| - 1;
    if n == c {
      ScanNoCandidate(ms[..n], name, args, parseFloat);
    } else {
      ScanSingleCandidate(ms[..n], c, name, args, parseFloat);
    }
  }

  lemma {:induction false} ScanNoCandidate(ms: seq<Method>, name: string, args: seq<string>, parseFloat: string -> Option<real>)
    requires forall k :: 0 <= k < |ms| ==> !IsCandidate(ms[k], name, |args|)
    ensures Scan(ms, name, args, parseFloat) == ScanState([], false, false)
  {
    if |ms| > 0 {
      ScanNoCandidate(ms[..|ms| - 1], name, args, parseFloat);
    }
  }

  lemma CoerceOneString(tok: string, parseFloat: string -> Option<real>)
    ensures CoerceAll(["s"], [tok], parseFloat) == Some([Str(tok)])
  {
    var e: seq<string> := [];
    var ev: seq<Value> := [];
    CoerceAllSnoc(e, e, "s", tok, parseFloat);
    assert e + ["s"] == ["s"] && e + [tok] == [tok];
    assert CoerceAll(e, e, parseFloat) == Some(ev);
    assert StrToDBusType("s", tok, parseFloat) == Success(Str(tok));
    assert ev + [Str(tok)] == [Str(tok)];
  }

  /** As written, two candidates of the same arity that both coerce leave the
      values of BOTH in `convArgs`: one string argument is sent twice. */
  lemma ScanDuplicateOverloadDoublesArguments(parseFloat: string -> Option<real>)
    ensures var m := Method("Echo", [Arg("msg", "s", "in")]);
      Scan([m, m], "Echo", ["hi"], parseFloat) == ScanState([Str("hi"), Str("hi")], true, false)
  {
    var m := Method("Echo", [Arg("msg", "s", "in")]);
    assert InTypes(m.args) == ["s"];
    CoerceOneString("hi", parseFloat);
    var none: seq<Method> := [];
    assert [m, m][..1] == [m] && [m][..0] == none;
    assert Scan(none, "Echo", ["hi"], parseFloat) == ScanState([], false, false);
    assert Scan([m], "Echo", ["hi"], parseFloat) == ScanState([Str("hi")], true, false);
  }

  datatype SelectError = NoCoercion | NoCandidate

  /** The overload choice the scan is evidently meant to make: the values of
      the FIRST candidate that coerces; "invalid arguments" when there are
      candidates and none coerces; "not found" when there is no candidate. */
  function SelectOverload(ms: seq<Method>, name: string, args: seq<string>, parseFloat: string -> Option<real>): (r: Result<seq<Value>, SelectError>)
    ensures r.Success? ==> exists k :: (0 <= k < |ms| && IsCandidate(ms[k], name, |args|) &&
      CoerceAll(InTypes(ms[k].args), args, parseFloat) == Some(r.value))
    ensures r.Success? ==> |r.value| == |args|
    ensures r == Failure(NoCandidate) <==> forall k :: 0 <= k < |ms| ==> !IsCandidate(ms[k], name, |args|)
    decreases |ms|
  {
    if |ms| == 0 then Failure(NoCandidate)
    else
      var rest := SelectOverload(ms[1..], name, args, parseFloat);
      assert forall k :: 1 <= k < |ms| ==> ms[1..][k - 1] == ms[k];
      if IsCandidate(ms[0], name, |args|) then
        match CoerceAll(InTypes(ms[0].args), args, parseFloat)
        case Some(vs) => Success(vs)
        case None => if rest.Success? then rest else Failure(NoCoercion)
      else rest
  }

  /** A candidate whose arguments coerce. */
  predicate Accepts(m: Method, name: string, args: seq<string>, parseFloat: string -> Option<real>)
  {
    IsCandidate(m, name, |args|) && Coerces(m, args, parseFloat)
  }

  /** The corrected selection takes the FIRST candidate that coerces: every
      method before the one chosen is a non-candidate or fails to coerce. */
  lemma {:induction false} SelectOverloadFirst(ms: seq<Method>, name: string, args: seq<string>, parseFloat: string -> Option<real>)
    requires SelectOverload(ms, name, args, parseFloat).Success?
    ensures exists k :: (0 <= k < |ms| && Accepts(ms[k], name, args, parseFloat)
      && CoerceAll(InTypes(ms[k].args), args, parseFloat) == Some(SelectOverload(ms, name, args, parseFloat).value)
      && forall j :: 0 <= j < k ==> !Accepts(ms[j], name, args, parseFloat))
  {
    var r := SelectOverload(ms, name, args, parseFloat);
    if !Accepts(ms[0], name, args, parseFloat) {
      var tail := ms[1..];
      assert SelectOverload(tail, name, args, parseFloat) == r;
      SelectOverloadFirst(tail, name, args, parseFloat);
      var k :| 0 <= k < |tail| && Accepts(tail[k], name, args, parseFloat)
        && CoerceAll(InTypes(tail[k].args), args, parseFloat) == Some(r.value)
        && forall j :: 0 <= j < k ==> !Accepts(tail[j], name, args, parseFloat);
      assert ms[k + 1] == tail[k];
      forall j | 1 <= j < k + 1
        ensures !Accepts(ms[j], name, args, parseFloat)
      {
        assert ms[j] == tail[j - 1];
      }
    }
  }

  /** "invalid arguments" from the corrected selection means that no
      candidate at all coerces. */
  lemma {:induction false} SelectOverloadNoCoercion(ms: seq<Method>, name: string, args: seq<string>, parseFloat: string -> Option<real>)
    requires SelectOverload(ms, name, args, parseFloat) == Failure(NoCoercion)
    ensures forall k :: 0 <= k < |ms| && IsCandidate(ms[k], name, |args|) ==> !Coerces(ms[k], args, parseFloat)
  {
    var tail := ms[1..];
    var rest := SelectOverload(tail, name, args, parseFloat);
    assert !(IsCandidate(ms[0], name, |args|) && Coerces(ms[0], args, parseFloat));
    assert rest.Failure?;
    if rest.error == NoCoercion {
      SelectOverloadNoCoercion(tail, name, args, parseFloat);
    }
    forall k | 1 <= k < |ms| && IsCandidate(ms[k], name, |args|)
      ensures !Coerces(ms[k], args, parseFloat)
    {
      assert tail[k - 1] == ms[k];
    }
  }

  /** With a single candidate the corrected selection takes it when it coerces. */
  lemma {:induction false} SelectSingleCandidate(ms: seq<Method>, c: nat, name: string, args: seq<string>, parseFloat: string -> Option<real>)
    requires c < |ms| && IsCandidate(ms[c], name, |args|)
    requires forall k :: 0 <= k < |ms| && k != c ==> !IsCandidate(ms[k], name, |args|)
    ensures var r := CoerceAll(InTypes(ms[c].args), args, parseFloat);
      SelectOverload(ms, name, args, parseFloat) == if r.Some? then Success(r.value) else Failure(NoCoercion)
  {
    if c > 0 {
      assert forall k :: 0 <= k < |ms[1..]| ==> ms[1..][k] == ms[k + 1];
      SelectSingleCandidate(ms[1..], c - 1, name, args, parseFloat);
    }
  }

  /** Where exactly one candidate exists the as-written scan and the corrected
      selection agree. */
  lemma ScanAgreesWithSelectOnSingleCandidate(ms: seq<Method>, c: nat, name: string, args: seq<string>, parseFloat: string -> Option<real>)
    requires c < |ms| && IsCandidate(ms[c], name, |args|)
    requires forall k :: 0 <= k < |ms| && k != c ==> !IsCandidate(ms[k], name, |args|)
    ensures var s := Scan(ms, name, args, parseFloat);
      match SelectOverload(ms, name, args, parseFloat)
      case Success(vs) => s == ScanState(vs, true, false)
      case Failure(e) => e == NoCoercion && s == ScanState([], false, true)
  {
    ScanSingleCandidate(ms, c, name, args, parseFloat);
    SelectSingleCandidate(ms, c, name, args, parseFloat);
  }

  /** The selection always succeeds on the two-overload list that makes the
      scan double its arguments, and sends the one value. */
  lemma SelectOverloadDuplicate(parseFloat: string -> Option<real>)
    ensures var m := Method("Echo", [Arg("msg", "s", "in")]);
      SelectOverload([m, m], "Echo", ["hi"], parseFloat) == Success([Str("hi")])
  {
    var m := Method("Echo", [Arg("msg", "s", "in")]);
    assert InTypes(m.args) == ["s"];
    CoerceOneString("hi", parseFloat);
  }

  // ---------------------------------------------------------------- waitForSignal

  /** The part of a signal's member name after its last `.`; the whole name
      when it has no dot. */
  function ShortName(member: string): (r: string)
    ensures '.' !in r
    ensures |r| <= |member| && member[|member| - |r|..] == r
    ensures '.' !in member ==> r == member
  {
    member[LastIndexOf(member, '.') + 1..]
  }

  /** A qualified `interface.Signal` name reduces to the signal's own name. */
  lemma ShortNameOfQualified(iface: string, signal: string)
    requires '.' !in signal
    ensures ShortName(iface + "." + signal) == signal
  {
    var q := iface + ".";
    LastIndexOfAppend(q, signal, '.');
    assert LastIndexOf(q, '.') == |iface|;
    assert (q + signal)[|iface| + 1..] == signal;
  }

  /** The `sigFound` count: declared signals whose name was requested (a name
      declared twice is counted twice). */
  function DeclaredCount(declared: seq<Signal>, names: set<string>): nat
  {
    if |declared| == 0 then 0
    else DeclaredCount(declared[..|declared| - 1], names) + (if declared[|declared| - 1].name in names then 1 else 0)
  }

  function DeclaredNames(declared: seq<Signal>): (r: set<string>)
    ensures forall k :: 0 <= k < |declared| ==> declared[k].name in r
    ensures forall n :: n in r ==> exists k :: 0 <= k < |declared| && declared[k].name == n
  {
    if |declared| == 0 then {}
    else
      var init := declared[..|declared| - 1];
      var r := DeclaredNames(init) + {declared[|declared| - 1].name};
      assert forall k :: 0 <= k < |init| ==> init[k] == declared[k];
      r
  }

  predicate DistinctNames(declared: seq<Signal>)
  {
    forall i, j :: 0 <= i < j < |declared| ==> declared[i].name != declared[j].name
  }

  /** Dropping the last signal keeps the names distinct, and the dropped
      name is not among the rest. */
  lemma DistinctNamesInit(declared: seq<Signal>)
    requires |declared| > 0 && DistinctNames(declared)
    ensures DistinctNames(declared[..|declared| - 1])
    ensures declared[|declared| - 1].name !in DeclaredNames(declared[..|declared| - 1])
  {
    var init := declared[..|declared| - 1];
    forall i, j | 0 <= i < j < |init| ensures init[i].name != init[j].name {
      assert init[i] == declared[i] && init[j] == declared[j];
    }
    forall k | 0 <= k < |init| ensures init[k].name != declared[|declared| - 1].name {
      assert init[k] == declared[k];
    }
  }

  lemma CardAddFresh(a: set<string>, x: string, names: set<string>)
    requires x !in a
    ensures |(a + {x}) * names| == |a * names| + (if x in names then 1 else 0)
  {
    if x in names {
      assert (a + {x}) * names == a * names + {x};
    } else {
      assert (a + {x}) * names == a * names;
    }
  }

  lemma {:induction false} DeclaredCountDistinct(declared: seq<Signal>, names: set<string>)
    requires DistinctNames(declared)
    ensures DeclaredCount(declared, names) == |DeclaredNames(declared) * names|
  {
    if |declared| > 0 {
      var init := declared[..|declared| - 1];
      DistinctNamesInit(declared);
      DeclaredCountDistinct(init, names);
      CardAddFresh(DeclaredNames(init), declared[|declared| - 1].name, names);
    }
  }

  lemma {:induction false} SubsetCard(a: set<string>, b: set<string>)
    requires a <= b
    ensures |a| <= |b|
  {
    if a != {} {
      var y :| y in a;
      SubsetCard(a - {y}, b - {y});
    }
  }

  lemma SubsetOfEqualSize(a: set<string>, n: set<string>)
    ensures |a * n| == |n| <==> n <= a
  {
    var i := a * n;
    if n <= a {
      assert i == n;
    } else {
      var x :| x in n && x !in a;
      SubsetCard(i, n - {x});
    }
  }

  /** With distinct declared names, the check of `waitForSignal` passes
      exactly when every requested name is a declared signal. */
  lemma SignalCheckIffDeclared(declared: seq<Signal>, names: set<string>)
    requires DistinctNames(declared)
    ensures DeclaredCount(declared, names) == |names| <==> names <= DeclaredNames(declared)
  {
    DeclaredCountDistinct(declared, names);
    SubsetOfEqualSize(DeclaredNames(declared), names);
  }

  /** Because the check compares counts, a signal declared twice can stand in
      for a requested name that is not declared at all. */
  lemma SignalCheckCountsDuplicates()
    ensures var declared := [Signal("A", []), Signal("A", [])];
      DeclaredCount(declared, {"A", "B"}) == |{"A", "B"}| && "B" !in DeclaredNames(declared)
  {
    var declared := [Signal("A", []), Signal("A", [])];
    assert declared[..1] == [Signal("A", [])];
    assert declared[..1][..0] == [];
    assert |{"A", "B"}| == 2;
  }

  /** A signal delivered to the waiting loop, with the nanoseconds that
      passed in the current `select` before it arrived. */
  datatype Notification = Notification(member: string, idle: nat)

  datatype WaitOutcome =
    | Matched(name: string)      // the signal is printed and the wait succeeds
    | SignalsNotFound            // "one or more signals not found"
    | AddMatchFailed             // "error adding match signal"
    | TimedOut(seconds: int)     // "timeout after %ds"
    | StillWaiting               // the notifications so far did not end the wait

  const NanosPerSecond: int := 1_000_000_000
  const MaxInt64: int := 0x7FFF_FFFF_FFFF_FFFF
  /** The largest timeout, in seconds, whose duration fits in an `int64`. */
  const MaxTimeoutSeconds: int := 9_223_372_036

  /** Go's `int64` arithmetic: the value wrapped into [-2^63, 2^63). */
  function WrapInt64(x: int): (r: int)
    ensures -MaxInt64 - 1 <= r <= MaxInt64
    ensures (x - r) % 0x1_0000_0000_0000_0000 == 0
  {
    var m := x % 0x1_0000_0000_0000_0000;
    if m > MaxInt64 then m - 0x1_0000_0000_0000_0000 else m
  }

  /** The timer's duration in nanoseconds: `time.Duration(sigTimeout) *
      time.Second`, which wraps around in 64 bits, and the largest duration
      when that product is 0. */
  function TimerDuration(sigTimeout: int): int
  {
    var d := WrapInt64(sigTimeout * NanosPerSecond);
    if d == 0 then MaxInt64 else d
  }

  /** The `select` timer fires once `idle` nanoseconds without a notification
      reach its duration; a duration that is not positive fires at once. The
      timer is re-armed on every iteration, so it measures idle time. */
  predicate TimerFires(duration: int, idle: nat)
  {
    idle >= duration
  }

  /** The `for`/`select` loop with a timer of `duration` nanoseconds: the
      notifications that arrive, then `silence` nanoseconds in which none
      arrives. A timeout reports `sigTimeout`. */
  function Await(names: set<string>, sigTimeout: int, duration: int, stream: seq<Notification>, silence: nat): (r: WaitOutcome)
    ensures r.Matched? || r.TimedOut? || r.StillWaiting?
    ensures r.TimedOut? ==> r.seconds == sigTimeout
  {
    if |stream| == 0 then (if TimerFires(duration, silence) then TimedOut(sigTimeout) else StillWaiting)
    else if TimerFires(duration, stream[0].idle) then TimedOut(sigTimeout)
    else if ShortName(stream[0].member) in names then Matched(ShortName(stream[0].member))
    else Await(names, sigTimeout, duration, stream[1..], silence)
  }

  /** A match is a requested short name that arrived. */
  lemma {:induction false} AwaitMatchedArrived(names: set<string>, sigTimeout: int, duration: int, stream: seq<Notification>, silence: nat)
    ensures var r := Await(names, sigTimeout, duration, stream, silence);
      r.Matched? ==> r.name in names && exists k :: 0 <= k < |stream| && ShortName(stream[k].member) == r.name
  {
    if |stream| > 0 && !TimerFires(duration, stream[0].idle) && ShortName(stream[0].member) !in names {
      var rest := stream[1..];
      AwaitMatchedArrived(names, sigTimeout, duration, rest, silence);
      var r := Await(names, sigTimeout, duration, rest, silence);
      if r.Matched? {
        var k :| 0 <= k < |rest| && ShortName(rest[k].member) == r.name;
        assert stream[k + 1] == rest[k];
      }
    }
  }

  /** A timeout means the timer fired, before some notification or in the
      final silence. */
  lemma {:induction false} AwaitTimedOutFired(names: set<string>, sigTimeout: int, duration: int, stream: seq<Notification>, silence: nat)
    ensures Await(names, sigTimeout, duration, stream, silence).TimedOut? ==>
      TimerFires(duration, silence) || exists k :: 0 <= k < |stream| && TimerFires(duration, stream[k].idle)
  {
    if |stream| > 0 && !TimerFires(duration, stream[0].idle) && ShortName(stream[0].member) !in names {
      var rest := stream[1..];
      AwaitTimedOutFired(names, sigTimeout, duration, rest, silence);
      if Await(names, sigTimeout, duration, rest, silence).TimedOut? && !TimerFires(duration, silence) {
        var k :| 0 <= k < |rest| && TimerFires(duration, rest[k].idle);
        assert stream[k + 1] == rest[k];
      }
    }
  }

  /** The wait goes on exactly when no requested name arrived and the timer
      never fired. */
  lemma {:induction false} AwaitWaitingIff(names: set<string>, sigTimeout: int, duration: int, stream: seq<Notification>, silence: nat)
    ensures Await(names, sigTimeout, duration, stream, silence).StillWaiting? <==>
      !TimerFires(duration, silence) && forall k :: 0 <= k < |stream| ==>
        ShortName(stream[k].member) !in names && !TimerFires(duration, stream[k].idle)
  {
    if |stream| > 0 && !TimerFires(duration, stream[0].idle) && ShortName(stream[0].member) !in names {
      var rest := stream[1..];
      AwaitWaitingIff(names, sigTimeout, duration, rest, silence);
      if Await(names, sigTimeout, duration, rest, silence).StillWaiting? {
        forall k | 1 <= k < |stream|
          ensures ShortName(stream[k].member) !in names && !TimerFires(duration, stream[k].idle)
        {
          assert stream[k] == rest[k - 1];
        }
      } else if !TimerFires(duration, silence) {
        var k :| 0 <= k < |rest| && (ShortName(rest[k].member) in names || TimerFires(duration, rest[k].idle));
        assert stream[k + 1] == rest[k];
      }
    }
  }

  /** The wait ends on the first notification whose short name was requested,
      provided no timer fired before it; everything before it is ignored. */
  lemma {:induction false} AwaitMatchesFirstRequested(names: set<string>, sigTimeout: int, duration: int, stream: seq<Notification>, silence: nat, k: nat)
    requires k < |stream|
    requires forall j :: 0 <= j <= k ==> !TimerFires(duration, stream[j].idle)
    requires forall j :: 0 <= j < k ==> ShortName(stream[j].member) !in names
    requires ShortName(stream[k].member) in names
    ensures Await(names, sigTimeout, duration, stream, silence) == Matched(ShortName(stream[k].member))
  {
    if k > 0 {
      assert forall j :: 0 <= j < |stream| - 1 ==> stream[1..][j] == stream[j + 1];
      AwaitMatchesFirstRequested(names, sigTimeout, duration, stream[1..], silence, k - 1);
    }
  }

  /** Within the representable range the duration is the timeout in
      nanoseconds, and a timeout of 0 stands for the largest duration. */
  lemma TimerDurationInRange(sigTimeout: int)
    requires -MaxTimeoutSeconds <= sigTimeout <= MaxTimeoutSeconds
    ensures TimerDuration(sigTimeout) == if sigTimeout == 0 then MaxInt64 else sigTimeout * NanosPerSecond
  {
    var x := sigTimeout * NanosPerSecond;
    assert -MaxInt64 <= x <= MaxInt64;
    if x < 0 {
      assert x % 0x1_0000_0000_0000_0000 == x + 0x1_0000_0000_0000_0000;
    }
  }

  /** A positive timeout with no notification at all ends the wait once that
      many seconds have passed, and not before. */
  lemma SilentWaitTimesOut(names: set<string>, sigTimeout: int, silence: nat)
    requires 0 < sigTimeout <= MaxTimeoutSeconds
    ensures Await(names, sigTimeout, TimerDuration(sigTimeout), [], silence) ==
      if silence >= sigTimeout * NanosPerSecond then TimedOut(sigTimeout) else StillWaiting
  {
    TimerDurationInRange(sigTimeout);
  }

  /** A negative timeout gives a negative duration, which fires at once:
      the wait times out whatever arrives. */
  lemma NegativeTimeoutFiresAtOnce(names: set<string>, sigTimeout: int, stream: seq<Notification>, silence: nat)
    requires -MaxTimeoutSeconds <= sigTimeout < 0
    ensures Await(names, sigTimeout, TimerDuration(sigTimeout), stream, silence) == TimedOut(sigTimeout)
  {
    TimerDurationInRange(sigTimeout);
  }

  /** One second past the representable range the product wraps around to a
      negative duration: a huge timeout also fires at once. */
  lemma OverflowingTimeoutFiresAtOnce(names: set<string>, stream: seq<Notification>, silence: nat)
    ensures TimerDuration(MaxTimeoutSeconds + 1) < 0
    ensures Await(names, MaxTimeoutSeconds + 1, TimerDuration(MaxTimeoutSeconds + 1), stream, silence) == TimedOut(MaxTimeoutSeconds + 1)
  {
    var x := (MaxTimeoutSeconds + 1) * NanosPerSecond;
    assert x == 9_223_372_037_000_000_000;
    assert x % 0x1_0000_0000_0000_0000 == x;
  }

  /** The whole of `waitForSignal`: the name check before any subscription,
      the subscription, then the loop. */
  function WaitSpec(declared: seq<Signal>, names: set<string>, sigTimeout: int, addMatchOk: bool,
                    stream: seq<Notification>, silence: nat): WaitOutcome
  {
    if DeclaredCount(declared, names) != |names| then SignalsNotFound
    else if !addMatchOk then AddMatchFailed
    else Await(names, sigTimeout, TimerDuration(sigTimeout), stream, silence)
  }

  // ---------------------------------------------------------------- the call

  datatype CallError =
    | InvalidArguments                        // "invalid arguments"
    | MethodNotFound(methodName: string)          // "method '%s' not found"
    | CallFailed(methodName: string, reason: string)
    | WaitFailed(wait: WaitOutcome)           // "error waiting for signal after method call"

  datatype CallStatus = Returned | Failed(error: CallError) | Blocked

  /** What `callMethod` does: whether the remote call is made, with which
      values, what reply body is printed, and how it ends. */
  datatype CallReport = CallReport(called: bool, sent: seq<Value>, printed: seq<Value>, status: CallStatus)

  /** `callMethod` end to end. `reply` is the outcome of the remote call; the
      wait runs beside the call and its outcome is read only after a
      successful reply. */
  function CallSpec(methods: seq<Method>, declared: seq<Signal>, name: string, args: seq<string>,
                    parseFloat: string -> Option<real>, sigNames: set<string>, sigTimeout: int,
                    reply: Result<seq<Value>, string>, addMatchOk: bool, stream: seq<Notification>, silence: nat): CallReport
  {
    var s := Scan(methods, name, args, parseFloat);
    if s.invalidArgs then CallReport(false, [], [], Failed(InvalidArguments))
    else if !s.methodFound then CallReport(false, [], [], Failed(MethodNotFound(name)))
    else
      match reply
      case Failure(reason) => CallReport(true, s.convArgs, [], Failed(CallFailed(name, reason)))
      case Success(body) =>
        if |sigNames| == 0 then CallReport(true, s.convArgs, body, Returned)
        else
          match WaitSpec(declared, sigNames, sigTimeout, addMatchOk, stream, silence)
          case Matched(_) => CallReport(true, s.convArgs, body, Returned)
          case StillWaiting => CallReport(true, s.convArgs, body, Blocked)
          case w => CallReport(true, s.convArgs, body, Failed(WaitFailed(w)))
  }

  /** The remote call is made only when the last candidate coerced; no call
      is made in either error case. */
  lemma CallOnlyAfterSuccessfulCoercion(methods: seq<Method>, declared: seq<Signal>, name: string, args: seq<string>,
                                        parseFloat: string -> Option<real>, sigNames: set<string>, sigTimeout: int,
                                        reply: Result<seq<Value>, string>, addMatchOk: bool, stream: seq<Notification>, silence: nat)
    ensures var r := CallSpec(methods, declared, name, args, parseFloat, sigNames, sigTimeout, reply, addMatchOk, stream, silence);
      var c := LastCandidate(methods, name, |args|);
      r.called <==> c >= 0 && Coerces(methods[c], args, parseFloat)
  {
    ScanInvalidIffLastCandidateFails(methods, name, args, parseFloat);
    ScanFoundIffSomeCandidateCoerces(methods, name, args, parseFloat);
  }

  /** What the call sends: the values of the candidates that coerce after the
      last one that failed, concatenated in list order; nothing when no call
      is made. */
  lemma CallSendsCollected(methods: seq<Method>, declared: seq<Signal>, name: string, args: seq<string>,
                           parseFloat: string -> Option<real>, sigNames: set<string>, sigTimeout: int,
                           reply: Result<seq<Value>, string>, addMatchOk: bool, stream: seq<Notification>, silence: nat)
    ensures var r := CallSpec(methods, declared, name, args, parseFloat, sigNames, sigTimeout, reply, addMatchOk, stream, silence);
      && (r.called ==> r.sent == Collected(methods[LastFailure(methods, name, args, parseFloat) + 1..], name, args, parseFloat))
      && (!r.called ==> r.sent == [])
  {
    ScanCollectsAfterLastFailure(methods, name, args, parseFloat);
  }

  /** The call is made even when the requested signals are not declared: the
      name check runs in the waiting goroutine, after the call was started. */
  lemma CallMadeDespiteUndeclaredSignal(parseFloat: string -> Option<real>, stream: seq<Notification>, silence: nat)
    ensures var m := Method("pwrShutdown", []);
      var r := CallSpec([m], [], "pwrShutdown", [], parseFloat, {"nosuchSignal"}, 0, Success([]), true, stream, silence);
      r.called && r.status == Failed(WaitFailed(SignalsNotFound))
  {
    var m := Method("pwrShutdown", []);
    var none: seq<Method> := [];
    assert [m][..0] == none;
    assert CoerceAll([], [], parseFloat) == Some([]);
    assert Scan([m], "pwrShutdown", [], parseFloat).methodFound;
  }

  // ---------------------------------------------------------------- the CLI object

  /** The `dbusCLI` struct; the connection is implicit. */
  class DBusCli {
    var dbusIface: string
    var node: seq<Interface>
    var ifaceIndex: int

    constructor (iface: string)
      ensures dbusIface == iface && node == [] && ifaceIndex == 0
    {
      dbusIface, node, ifaceIndex := iface, [], 0;
    }

    /** After a successful `initDBus`: the index names the interface. */
    predicate Valid()
      reads this
    {
      0 <= ifaceIndex < |node| && node[ifaceIndex].name == dbusIface
    }

    /** `initDBus`: connect, introspect, find the interface. */
    method InitDBus(connected: bool, introspection: Option<seq<Interface>>) returns (err: Option<InitError>)
      modifies this
      ensures dbusIface == old(dbusIface)
      ensures !connected ==> err == Some(ConnectFailed) && node == old(node) && ifaceIndex == old(ifaceIndex)
      ensures connected && introspection.None? ==>
        err == Some(IntrospectFailed) && node == [] && ifaceIndex == old(ifaceIndex)
      ensures connected && introspection.Some? ==> node == introspection.value
      ensures connected && introspection.Some? ==>
        (err.None? <==> exists k :: 0 <= k < |node| && node[k].name == dbusIface)
      ensures connected && introspection.Some? && err.None? ==>
        Valid() && forall k :: ifaceIndex < k < |node| ==> node[k].name != dbusIface
      ensures connected && introspection.Some? && err.Some? ==> err == Some(InterfaceMissing) && ifaceIndex == -1
    {
      if !connected {
        return Some(ConnectFailed);
      }
      if introspection.None? {
        node := [];
        return Some(IntrospectFailed);
      }
      node := introspection.value;
      ifaceIndex := LastInterfaceIndex(node, dbusIface);
      if ifaceIndex < 0 {
        return Some(InterfaceMissing);
      }
      return None;
    }

    /** `waitForSignal`, minus the goroutine: the `sigFound` loop, the
      subscription, and the loop over the notifications. */
    method WaitForSignal(sigNames: SignalSet, sigTimeout: int, addMatchOk: bool, stream: seq<Notification>, silence: nat)
      returns (w: WaitOutcome)
      requires Valid()
      ensures w == WaitSpec(node[ifaceIndex].signals, sigNames.names, sigTimeout, addMatchOk, stream, silence)
    {
      var declared := node[ifaceIndex].signals;
      var sigFound := 0;
      for k := 0 to |declared|
        invariant sigFound == DeclaredCount(declared[..k], sigNames.names)
      {
        assert declared[..k + 1][..k] == declared[..k];
        if sigNames.Exists(declared[k].name) {
          sigFound := sigFound + 1;
        }
      }
      assert declared[..|declared|] == declared;
      if sigFound != |sigNames.names| {
        return SignalsNotFound;
      }
      if !addMatchOk {
        return AddMatchFailed;
      }
      return Await(sigNames.names, sigTimeout, TimerDuration(sigTimeout), stream, silence);
    }

    /** `callMethod`. */
    method CallMethod(methodName: string, methodArgs: seq<string>, sigNames: SignalSet, sigTimeout: int,
                      parseFloat: string -> Option<real>, reply: Result<seq<Value>, string>,
                      addMatchOk: bool, stream: seq<Notification>, silence: nat)
      returns (report: CallReport)
      requires Valid()
      ensures report == CallSpec(node[ifaceIndex].methods, node[ifaceIndex].signals, methodName, methodArgs,
                                 parseFloat, sigNames.names, sigTimeout, reply, addMatchOk, stream, silence)
    {
      var convArgs, methodFound, invalidArgs := ScanOverloads(node[ifaceIndex].methods, methodName, methodArgs, parseFloat);
      if invalidArgs {
        return CallReport(false, [], [], Failed(InvalidArguments));
      }
      if !methodFound {
        return CallReport(false, [], [], Failed(MethodNotFound(methodName)));
      }
      var w := StillWaiting;
      if |sigNames.names| > 0 {
        w := WaitForSignal(sigNames, sigTimeout, addMatchOk, stream, silence);
      }
      if reply.Failure? {
        return CallReport(true, convArgs, [], Failed(CallFailed(methodName, reply.error)));
      }
      if |sigNames.names| > 0 {
        match w
        case Matched(_) =>
        case StillWaiting => return CallReport(true, convArgs, reply.value, Blocked);
        case _ => return CallReport(true, convArgs, reply.value, Failed(WaitFailed(w)));
      }
      return CallReport(true, convArgs, reply.value, Returned);
    }
  }
}
