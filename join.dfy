/** The completion rule shared by both Qt command-line tools: when a method is
    called and signals are awaited, the tool quits only once the method has
    returned AND a requested signal has arrived, in whichever order. */
module Join {

  datatype JoinState = JoinState(hasMethod: bool, hasSignals: bool, methodComplete: bool, signalComplete: bool)

  datatype Event = MethodReturned | SignalArrived

  /** The state before anything happened. */
  function Initial(hasMethod: bool, hasSignals: bool): JoinState
  {
    JoinState(hasMethod, hasSignals, false, false)
  }

  /** What `start` does after a successful call: quit when no signal is
      awaited or one already arrived, else remember that the method returned.
      The boolean is true when quitting is requested. */
  function AfterMethod(st: JoinState): (JoinState, bool)
  {
    if st.hasSignals && st.signalComplete then (st, true)
    else if !st.hasSignals then (st, true)
    else (st.(methodComplete := true), false)
  }

  /** What the signal handler does for a requested signal: quit when there is
      no method or it already returned, else remember that the signal came. */
  function AfterSignal(st: JoinState): (JoinState, bool)
  {
    if !st.hasMethod || st.methodComplete then (st, true)
    else (st.(signalComplete := true), false)
  }

  function Apply(st: JoinState, e: Event): (JoinState, bool)
  {
    match e
    case MethodReturned => AfterMethod(st)
    case SignalArrived => AfterSignal(st)
  }

  /** The state after a run of events, and how many times quitting was
      requested on the way. */
  function Run(st: JoinState, events: seq<Event>): (JoinState, nat)
  {
    if |events| == 0 then (st, 0)
    else
      var (mid, quits) := Run(st, events[..|events| - 1]);
      var (next, quit) := Apply(mid, events[|events| - 1]);
      (next, quits + if quit then 1 else 0)
  }

  /** Runs that can happen: the method returns at most once and only when
      there is one; signals arrive only when some were requested. */
  predicate Possible(hasMethod: bool, hasSignals: bool, events: seq<Event>)
  {
    && (forall k :: 0 <= k < |events| && events[k] == MethodReturned ==> hasMethod)
    && (forall k :: 0 <= k < |events| && events[k] == SignalArrived ==> hasSignals)
    && (forall i, j :: 0 <= i < j < |events| && events[i] == MethodReturned ==> events[j] != MethodReturned)
  }

  /** Everything the tool waits for has happened. */
  predicate Done(hasMethod: bool, hasSignals: bool, events: seq<Event>)
  {
    |events| > 0 && (hasMethod ==> MethodReturned in events) && (hasSignals ==> SignalArrived in events)
  }

  /** Quitting is requested exactly once the run holds everything the tool
      waits for: the method's return when there is a method, a requested
      signal when signals were requested, in either order. Until then the two
      flags record exactly what has happened. */
  lemma {:induction false} QuitIffBothDone(hasMethod: bool, hasSignals: bool, events: seq<Event>)
    requires Possible(hasMethod, hasSignals, events)
    ensures var (st, quits) := Run(Initial(hasMethod, hasSignals), events);
      && (quits > 0 <==> Done(hasMethod, hasSignals, events))
      && (!Done(hasMethod, hasSignals, events) ==>
            && st.hasMethod == hasMethod && st.hasSignals == hasSignals
            && (st.methodComplete <==> MethodReturned in events)
            && (st.signalComplete <==> hasMethod && SignalArrived in events))
  {
    if |events| > 0 {
      var n := |events| - 1;
      var init := events[..n];
      assert Possible(hasMethod, hasSignals, init);
      QuitIffBothDone(hasMethod, hasSignals, init);
      assert events == init + [events[n]];
      assert forall x :: x in events <==> x in init || x == events[n];
      if events[n] == MethodReturned {
        assert MethodReturned !in init;
      }
    }
  }

  /** The first request to quit comes at exactly the event that completes
      what the tool waits for: the run before it requested none, and it
      requests one. */
  lemma FirstQuitCompletesWait(hasMethod: bool, hasSignals: bool, events: seq<Event>)
    requires Possible(hasMethod, hasSignals, events) && |events| > 0
    ensures var before := events[..|events| - 1];
      (Run(Initial(hasMethod, hasSignals), before).1 == 0 && Run(Initial(hasMethod, hasSignals), events).1 > 0)
      <==> (!Done(hasMethod, hasSignals, before) && Done(hasMethod, hasSignals, events))
  {
    var before := events[..|events| - 1];
    assert Possible(hasMethod, hasSignals, before);
    QuitIffBothDone(hasMethod, hasSignals, before);
    QuitIffBothDone(hasMethod, hasSignals, events);
  }

  /** Quitting is not requested only once: with no method, every requested
      signal that arrives asks to quit again. */
  lemma {:induction false} EverySignalQuitsWithoutMethod(events: seq<Event>)
    requires forall k :: 0 <= k < |events| ==> events[k] == SignalArrived
    ensures Run(Initial(false, true), events) == (Initial(false, true), |events|)
  {
    if |events| > 0 {
      EverySignalQuitsWithoutMethod(events[..|events| - 1]);
    }
  }
}
