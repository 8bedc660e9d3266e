/**
 * src/app/components/ConfirmationLettermodal.tsx: the "check your e-mail"
 * dialog, whose resend button unlocks after a 30 second countdown.
 */
module ConfirmationLetter {
  import opened Web

  const CountdownStart := 30

  /** The countdown and whether resending is allowed. */
  datatype Timer = Timer(countdown: int, canResend: bool)

  /** The state on opening, and after a successful resend. */
  const Reset := Timer(CountdownStart, false)

  /** The timer never leaves 0..30 and unlocks exactly when it reaches 0. */
  predicate Valid(t: Timer) {
    0 <= t.countdown <= CountdownStart && (t.canResend <==> t.countdown == 0)
  }

  /** One interval tick: down by one, or from 1 (or less) to 0 with resending unlocked. */
  function Tick(t: Timer): (r: Timer)
    ensures t.countdown > 1 ==> r == t.(countdown := t.countdown - 1)
    ensures t.countdown <= 1 ==> r == Timer(0, true)
    ensures Valid(t) ==> Valid(r)
  {
    if t.countdown <= 1 then Timer(0, true) else t.(countdown := t.countdown - 1)
  }

  /** `n` ticks. */
  function Ticks(t: Timer, n: nat): Timer {
    if n == 0 then t else Tick(Ticks(t, n - 1))
  }

  /** Fewer than 30 ticks after opening, resending is still locked and `30 - n` seconds remain; from the 30th tick on it is unlocked. */
  lemma {:induction false} TicksAfterOpen(n: nat)
    ensures n < CountdownStart ==> Ticks(Reset, n) == Timer(CountdownStart - n, false)
    ensures n >= CountdownStart ==> Ticks(Reset, n) == Timer(0, true)
  {
    if n > 0 {
      TicksAfterOpen(n - 1);
      var prev := Ticks(Reset, n - 1);
      assert Ticks(Reset, n) == Tick(prev);
      if n - 1 < CountdownStart {
        assert prev.countdown == CountdownStart - (n - 1);
      }
    }
  }

  /** Every reachable timer is valid, however many ticks pass. */
  lemma {:induction false} TicksStayValid(t: Timer, n: nat)
    requires Valid(t)
    ensures Valid(Ticks(t, n))
  {
    if n > 0 {
      TicksStayValid(t, n - 1);
    }
  }

  /** The subscribe endpoint's body as the resend reads it: its `success` flag. */
  datatype ResendBody = ResendBody(success: bool)

  /** The dialog's timer state and whether its interval is running (only while the dialog is open). */
  class ResendTimer {
    var countdown: int
    var canResend: bool
    var running: bool

    constructor ()
      ensures countdown == CountdownStart && !canResend && !running
    {
      countdown := CountdownStart;
      canResend := false;
      running := false;
    }

    function State(): Timer
      reads this
    {
      Timer(countdown, canResend)
    }

    /** The effect when `isOpen` becomes true: reset and start the interval. */
    method Open()
      modifies this
      ensures State() == Reset && running
    {
      countdown := CountdownStart;
      canResend := false;
      running := true;
    }

    /** The effect's cleanup when the dialog closes: the interval stops, the timer keeps its value. */
    method Close()
      modifies this
      ensures !running && State() == old(State())
    {
      running := false;
    }

    /** One interval callback; there is none while the dialog is closed. */
    method OnTick()
      requires running
      modifies this
      ensures State() == Tick(old(State())) && running
    {
      if countdown <= 1 {
        canResend := true;
        countdown := 0;
      } else {
        countdown := countdown - 1;
      }
    }

    /**
     * `handleResend`: nothing while locked; otherwise post again, and a
     * reply whose body says `success` restarts the countdown. A failed call
     * or unreadable body changes nothing.
     */
    method HandleResend(reply: FetchReply<ResendBody>) returns (sent: bool)
      modifies this
      ensures sent == old(canResend)
      ensures old(canResend) && reply.Response? && reply.json.Some? && reply.json.value.success ==> State() == Reset
      ensures !(old(canResend) && reply.Response? && reply.json.Some? && reply.json.value.success) ==> State() == old(State())
      ensures running == old(running)
    {
      sent := false;
      if !canResend {
        return;
      }
      sent := true;
      if reply.Response? && reply.json.Some? && reply.json.value.success {
        countdown := CountdownStart;
        canResend := false;
      }
    }
  }
}
