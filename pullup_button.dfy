/**
 * The Pullup button: two state flags driven by the click handler and by the
 * callback its `setTimeout` schedules. The 600 ms delay is not modelled: a
 * scheduled callback is counted in `pendingTimers` until it fires.
 * The button receives only an event id and a class name; it writes no storage.
 */
module Pullup {

  datatype ButtonState = ButtonState(isPulledUp: bool, isAnimating: bool, pendingTimers: nat)

  const Idle: ButtonState := ButtonState(false, false, 0)

  /** What can happen to the button: a click on it, or one scheduled callback firing. */
  datatype Input = Click | TimerFires

  /** `disabled={isPulledUp || isAnimating}`. */
  predicate Disabled(s: ButtonState)
    ensures Disabled(s) <==> Label(s) == "Joined" || s.isAnimating
    ensures Consistent(s) ==> (Disabled(s) <==> s.isPulledUp || s.pendingTimers > 0)
  {
    s.isPulledUp || s.isAnimating
  }

  /** The caption: "Joined" once pulled up, "Pullup" before. */
  function Label(s: ButtonState): (caption: string)
    ensures caption == "Joined" <==> s.isPulledUp
    ensures caption == "Pullup" <==> !s.isPulledUp
  {
    if s.isPulledUp then "Joined" else "Pullup"
  }

  /** `handlePullup`: nothing once pulled up; otherwise start animating and schedule the completion. */
  function AfterHandlePullup(s: ButtonState): (t: ButtonState)
    ensures s.isPulledUp ==> t == s
    ensures !s.isPulledUp ==> !t.isPulledUp && t.isAnimating && t.pendingTimers == s.pendingTimers + 1
  {
    if s.isPulledUp then s else s.(isAnimating := true, pendingTimers := s.pendingTimers + 1)
  }

  /** The scheduled callback: joined, no longer animating. With nothing scheduled nothing fires. */
  function AfterTimer(s: ButtonState): (t: ButtonState)
    ensures s.pendingTimers > 0 ==> t.isPulledUp && !t.isAnimating && t.pendingTimers == s.pendingTimers - 1
    ensures s.pendingTimers == 0 ==> t == s
  {
    if s.pendingTimers == 0 then s else ButtonState(true, false, s.pendingTimers - 1)
  }

  /** One input; a click on a disabled button never reaches the handler. */
  function Step(s: ButtonState, input: Input): (t: ButtonState)
    ensures input == Click && (s.isPulledUp || s.isAnimating) ==> t == s
    ensures input == Click && !Disabled(s) ==> t == AfterHandlePullup(s)
    ensures input == TimerFires ==> t == AfterTimer(s)
  {
    match input
    case Click => if Disabled(s) then s else AfterHandlePullup(s)
    case TimerFires => AfterTimer(s)
  }

  function Run(s: ButtonState, inputs: seq<Input>): ButtonState
    decreases |inputs|
  {
    if inputs == [] then s else Run(Step(s, inputs[0]), inputs[1..])
  }

  /** `n` clicks and nothing else. */
  function Clicks(n: nat): seq<Input> {
    if n == 0 then [] else [Click] + Clicks(n - 1)
  }

  /** A disabled button stays exactly as it is however often it is clicked. */
  lemma {:induction false} DisabledIgnoresClicks(s: ButtonState, n: nat)
    requires Disabled(s)
    ensures Run(s, Clicks(n)) == s
  {
    if n > 0 {
      assert Clicks(n)[0] == Click && Clicks(n)[1..] == Clicks(n - 1);
      DisabledIgnoresClicks(s, n - 1);
    }
  }

  /** No step takes `isPulledUp` back to false. */
  lemma StepKeepsJoined(s: ButtonState, input: Input)
    requires s.isPulledUp
    ensures Step(s, input).isPulledUp
  {
  }

  /** Joined is monotonic over any sequence of clicks and callbacks. */
  lemma {:induction false} RunKeepsJoined(s: ButtonState, inputs: seq<Input>)
    requires s.isPulledUp
    ensures Run(s, inputs).isPulledUp
    decreases |inputs|
  {
    if inputs != [] {
      StepKeepsJoined(s, inputs[0]);
      RunKeepsJoined(Step(s, inputs[0]), inputs[1..]);
    }
  }

  /**
   * The states reachable through the button: at most one callback pending,
   * animating exactly while one is pending, and never animating once joined.
   */
  predicate Consistent(s: ButtonState) {
    s.pendingTimers <= 1 && (s.isAnimating <==> s.pendingTimers == 1) && !(s.isPulledUp && s.isAnimating)
  }

  lemma {:induction false} RunStaysConsistent(s: ButtonState, inputs: seq<Input>)
    requires Consistent(s)
    ensures Consistent(Run(s, inputs))
    decreases |inputs|
  {
    if inputs != [] {
      assert Consistent(Step(s, inputs[0]));
      RunStaysConsistent(Step(s, inputs[0]), inputs[1..]);
    }
  }

  /** From idle, a click starts the animation and the callback then joins. */
  lemma ClickThenTimerJoins()
    ensures Step(Idle, Click) == ButtonState(false, true, 1)
    ensures Run(Idle, [Click, TimerFires]) == ButtonState(true, false, 0)
    ensures Label(Run(Idle, [Click, TimerFires])) == "Joined"
  {
    assert Run(Idle, [Click, TimerFires]) == Run(ButtonState(false, true, 1), [TimerFires]);
    assert [TimerFires][1..] == [];
  }

  class PullupButton {
    const eventId: string
    var isPulledUp: bool
    var isAnimating: bool
    var pendingTimers: nat

    function State(): ButtonState
      reads this
    {
      ButtonState(isPulledUp, isAnimating, pendingTimers)
    }

    constructor (eventId: string)
      ensures this.eventId == eventId && State() == Idle
    {
      this.eventId := eventId;
      isPulledUp, isAnimating, pendingTimers := false, false, 0;
    }

    method HandlePullup()
      modifies this
      ensures State() == AfterHandlePullup(old(State()))
    {
      if isPulledUp {
        return;
      }
      isAnimating := true;
      pendingTimers := pendingTimers + 1;
    }

    /** One scheduled callback runs, if any is pending. */
    method FireTimer()
      modifies this
      ensures State() == AfterTimer(old(State()))
    {
      if pendingTimers > 0 {
        isPulledUp := true;
        isAnimating := false;
        pendingTimers := pendingTimers - 1;
      }
    }

    /** A click: the browser delivers it to `handlePullup` only while the button is enabled. */
    method Click()
      modifies this
      ensures State() == Step(old(State()), Input.Click)
    {
      if !(isPulledUp || isAnimating) {
        HandlePullup();
      }
    }
  }
}
