/** The SOS page's quick alert: a five-second countdown, started by the
    quick-alert button and cancellable, that sends the SOS when it runs
    out. `QuickAlert` holds the page state the handlers update; `Step` and
    `Run` describe the same machine on values, for reasoning about whole
    runs of events. */
module SosPage {
  import opened Js

  /** The seconds a quick alert waits before sending. */
  const QuickDelay: nat := 5

  /** The two pieces of state the countdown uses: `countdown` (`None` is
      null) and `autoSendEnabled`. */
  datatype Countdown = Countdown(remaining: Option<nat>, autoSend: bool)

  const Idle := Countdown(None, false)

  /** What the handlers keep true: a countdown runs exactly when auto-send
      is on, and between timer expiries it shows 1 to 5 seconds. */
  predicate WellFormed(c: Countdown) {
    && (c.remaining.Some? <==> c.autoSend)
    && (c.remaining.Some? ==> 1 <= c.remaining.value <= QuickDelay)
  }

  /** `handleQuickTrigger`, one expiry of the one-second timer together with
      the effect it causes, and `cancelCountdown`. */
  datatype Event = QuickTrigger | Tick | Cancel

  datatype StepResult = StepResult(next: Countdown, fired: bool)

  /** One event. A tick counts a running countdown down by one; when that
      reaches 0 the effect sends the SOS and clears both fields. With no
      countdown there is no timer, so a tick changes nothing. */
  function Step(c: Countdown, e: Event): (r: StepResult)
    ensures e == QuickTrigger ==> r == StepResult(Countdown(Some(QuickDelay), true), false)
    ensures e == Cancel ==> r == StepResult(Idle, false)
    ensures e == Tick ==> (r.fired <==> c.remaining.Some? && c.remaining.value <= 1)
    ensures e == Tick && r.fired ==> r.next == Idle
    ensures e == Tick && c.remaining.Some? && !r.fired ==>
      r.next == Countdown(Some(c.remaining.value - 1), c.autoSend)
    ensures e == Tick && c.remaining.None? ==> r.next == c
  {
    match e
    case QuickTrigger => StepResult(Countdown(Some(QuickDelay), true), false)
    case Cancel => StepResult(Idle, false)
    case Tick =>
      match c.remaining
      case None => StepResult(c, false)
      case Some(n) =>
        if n <= 1 then StepResult(Idle, true)
        else StepResult(Countdown(Some(n - 1), c.autoSend), false)
  }

  /** Every event keeps the countdown state well formed. */
  lemma StepKeepsWellFormed(c: Countdown, e: Event)
    requires WellFormed(c)
    ensures WellFormed(Step(c, e).next)
  {
  }

  datatype RunResult = RunResult(final: Countdown, fires: nat)

  /** The state after a run of events and how many times the SOS was sent. */
  function Run(c: Countdown, events: seq<Event>): RunResult
    decreases |events|
  {
    if events == [] then RunResult(c, 0)
    else
      var first := Step(c, events[0]);
      var rest := Run(first.next, events[1..]);
      RunResult(rest.final, rest.fires + if first.fired then 1 else 0)
  }

  function Ticks(k: nat): (r: seq<Event>)
    ensures |r| == k
    ensures forall i :: 0 <= i < k ==> r[i] == Tick
  {
    seq(k, _ => Tick)
  }

  /** With no countdown, ticks change nothing and send nothing. */
  lemma {:induction false} IdleTicks(k: nat)
    ensures Run(Idle, Ticks(k)) == RunResult(Idle, 0)
  {
    if k > 0 {
      assert Ticks(k)[1..] == Ticks(k - 1);
      IdleTicks(k - 1);
    }
  }

  /** Fewer ticks than the seconds left only count down. */
  lemma {:induction false} TicksCountDown(n: nat, k: nat)
    requires k < n
    ensures Run(Countdown(Some(n), true), Ticks(k)) == RunResult(Countdown(Some(n - k), true), 0)
  {
    if k > 0 {
      assert Ticks(k)[1..] == Ticks(k - 1);
      TicksCountDown(n - 1, k - 1);
    }
  }

  /** Once as many ticks as seconds left have passed, the SOS has been sent
      exactly once and the countdown is gone, however many more ticks follow. */
  lemma {:induction false} TicksFireOnce(n: nat, k: nat)
    requires 1 <= n <= k
    ensures Run(Countdown(Some(n), true), Ticks(k)) == RunResult(Idle, 1)
  {
    assert Ticks(k)[1..] == Ticks(k - 1);
    if n == 1 {
      IdleTicks(k - 1);
    } else {
      TicksFireOnce(n - 1, k - 1);
    }
  }

  /** A quick alert left alone sends the SOS on the fifth tick and not
      before, whatever state it was started from. */
  lemma QuickAlertSendsOnFifthTick(c: Countdown)
    ensures Run(c, [QuickTrigger] + Ticks(QuickDelay - 1)) == RunResult(Countdown(Some(1), true), 0)
    ensures Run(c, [QuickTrigger] + Ticks(QuickDelay)) == RunResult(Idle, 1)
  {
    assert ([QuickTrigger] + Ticks(QuickDelay - 1))[1..] == Ticks(QuickDelay - 1);
    TicksCountDown(QuickDelay, QuickDelay - 1);
    assert ([QuickTrigger] + Ticks(QuickDelay))[1..] == Ticks(QuickDelay);
    TicksFireOnce(QuickDelay, QuickDelay);
  }

  /** After a cancel no tick sends anything. */
  lemma CancelStopsSending(c: Countdown, k: nat)
    ensures Run(c, [Cancel] + Ticks(k)) == RunResult(Idle, 0)
  {
    assert ([Cancel] + Ticks(k))[1..] == Ticks(k);
    IdleTicks(k);
  }

  function QuickTriggers(events: seq<Event>): nat {
    if events == [] then 0
    else (if events[0] == QuickTrigger then 1 else 0) + QuickTriggers(events[1..])
  }

  function Pending(c: Countdown): nat {
    if c.remaining.Some? then 1 else 0
  }

  /** Each SOS sent, and a countdown still running at the end, is owed to a
      distinct quick trigger (or to the countdown already running at the
      start): a quick alert never sends twice. */
  lemma {:induction false} SendsAtMostOncePerTrigger(c: Countdown, events: seq<Event>)
    ensures Run(c, events).fires + Pending(Run(c, events).final) <= QuickTriggers(events) + Pending(c)
    decreases |events|
  {
    if events != [] {
      SendsAtMostOncePerTrigger(Step(c, events[0]).next, events[1..]);
    }
  }

  /** The quick-alert button is shown while no SOS is active and can be
      pressed only while auto-send is off. */
  predicate QuickAlertPressable(sosActive: bool, c: Countdown) {
    !sosActive && !c.autoSend
  }

  /** A running countdown cannot be restarted from the button. */
  lemma RunningCountdownLocksButton(sosActive: bool, c: Countdown)
    requires WellFormed(c) && c.remaining.Some?
    ensures !QuickAlertPressable(sosActive, c)
  {
  }

  /** The page's countdown and message state, updated by its handlers. */
  class QuickAlert {
    var countdown: Option<nat>
    var autoSendEnabled: bool
    var sosMessage: string

    function State(): Countdown
      reads this
    {
      Countdown(countdown, autoSendEnabled)
    }

    ghost predicate Valid()
      reads this
    {
      WellFormed(State())
    }

    /** The initial state: no countdown, auto-send off, empty message. */
    constructor ()
      ensures State() == Idle && sosMessage == ""
      ensures Valid()
    {
      countdown := None;
      autoSendEnabled := false;
      sosMessage := "";
    }

    /** `handleQuickTrigger` */
    method QuickTrigger()
      requires Valid()
      modifies this
      ensures State() == Step(old(State()), Event.QuickTrigger).next
      ensures sosMessage == old(sosMessage)
      ensures Valid()
    {
      countdown := Some(QuickDelay);
      autoSendEnabled := true;
    }

    /** `cancelCountdown` */
    method Cancel()
      requires Valid()
      modifies this
      ensures State() == Step(old(State()), Event.Cancel).next
      ensures sosMessage == old(sosMessage)
      ensures Valid()
    {
      countdown := None;
      autoSendEnabled := false;
    }

    /** The timer's expiry: `setCountdown(countdown - 1)`, then, if that
        reaches 0, the effect that calls `handleTrigger` (reported as
        `fired`) and clears the countdown. */
    method Tick() returns (fired: bool)
      requires Valid()
      modifies this
      ensures StepResult(State(), fired) == Step(old(State()), Event.Tick)
      ensures sosMessage == old(sosMessage)
      ensures Valid()
    {
      fired := false;
      if countdown.Some? {
        countdown := Some(countdown.value - 1);
        if countdown.value == 0 {
          fired := true;
          countdown := None;
          autoSendEnabled := false;
        }
      }
    }

    /** Typing in the message box. */
    method EditMessage(text: string)
      modifies this`sosMessage
      ensures sosMessage == text
    {
      sosMessage := text;
    }

    /** `handleResolve`: the message box is emptied once `resolveSOS()`
        has succeeded; when it fails (`succeeded` false) the handler stops
        before that and the message stays. The countdown is left as it is. */
    method Resolve(succeeded: bool)
      modifies this`sosMessage
      ensures succeeded ==> sosMessage == ""
      ensures !succeeded ==> sosMessage == old(sosMessage)
    {
      if succeeded {
        sosMessage := "";
      }
    }
  }
}
