/** The resend cooldown: after a resend, a one-second interval counts a timeout down
    from 60 and, once it reads 0, clears the "just resent" flag and stops itself. */
module Cooldown {

  /** Seconds the resend button stays disabled. */
  const ResendCooldownSeconds := 60

  /** `resentVerificationCode`, `resentVerificationCodeTimeout`, and whether the
      interval stored in `resentVerificationInterval` is still scheduled. */
  datatype State = State(resent: bool, timeout: int, intervalActive: bool)

  /** Nothing resent yet: the component's initial values, no interval. */
  const Idle := State(false, 0, false)

  /** The state a resend leaves behind. */
  const Started := State(true, ResendCooldownSeconds, true)

  /** The states the component can be in: the timeout stays within 0..60, the interval
      runs exactly while the flag is set, and a cleared flag has a zero timeout. */
  ghost predicate Valid(c: State)
  {
    0 <= c.timeout <= ResendCooldownSeconds &&
    c.resent == c.intervalActive &&
    (!c.resent ==> c.timeout == 0)
  }

  /** One firing of the interval callback. */
  function Tick(c: State): (r: State)
    ensures Valid(c) ==> Valid(r)
    ensures r.resent ==> c.resent
    ensures c.timeout == 0 ==> !r.resent && !r.intervalActive && r.timeout == 0
    ensures c.timeout != 0 ==> r.resent == c.resent && r.intervalActive == c.intervalActive &&
                               r.timeout + 1 == c.timeout
  {
    if c.timeout == 0 then c.(resent := false, intervalActive := false)
    else c.(timeout := c.timeout - 1)
  }

  /** The state after the interval has been due `n` times; once cleared, it fires no more. */
  function Run(c: State, n: nat): (r: State)
    ensures !c.intervalActive ==> r == c
    ensures r.resent ==> c.resent
    ensures r.timeout <= c.timeout
    decreases n
  {
    if n == 0 || !c.intervalActive then c else Run(Tick(c), n - 1)
  }

  /** Running `a` ticks and then `b` more is running `a + b` ticks. */
  lemma {:induction false} RunAdditive(c: State, a: nat, b: nat)
    ensures Run(c, a + b) == Run(Run(c, a), b)
    decreases a
  {
    if a > 0 && c.intervalActive {
      RunAdditive(Tick(c), a - 1, b);
    }
  }

  /** While the timeout has not reached 0, each tick takes exactly one second off it. */
  lemma {:induction false} CountsDown(t: int, n: nat)
    requires n <= t
    ensures Run(State(true, t, true), n) == State(true, t - n, true)
    decreases n
  {
    if n > 0 {
      CountsDown(t - 1, n - 1);
    }
  }

  /** Every state reachable from a resend is valid; in particular the timeout is
      never negative. */
  lemma {:induction false} RunKeepsValid(c: State, n: nat)
    requires Valid(c)
    ensures Valid(Run(c, n))
    ensures Run(c, n).timeout >= 0
    decreases n
  {
    if n > 0 && c.intervalActive {
      RunKeepsValid(Tick(c), n - 1);
    }
  }

  /** After a resend, the flag is still set after 60 ticks and is cleared by the 61st,
      which also stops the interval; further ticks change nothing. */
  lemma CooldownEndsOnTick61(n: nat)
    ensures n <= ResendCooldownSeconds ==>
      Run(Started, n) == State(true, ResendCooldownSeconds - n, true)
    ensures n > ResendCooldownSeconds ==> Run(Started, n) == Idle
    ensures Run(Started, n).resent <==> n <= ResendCooldownSeconds
  {
    if n <= ResendCooldownSeconds {
      CountsDown(ResendCooldownSeconds, n);
    } else {
      CountsDown(ResendCooldownSeconds, ResendCooldownSeconds);
      RunAdditive(Started, ResendCooldownSeconds + 1, n - ResendCooldownSeconds - 1);
      assert Run(Started, ResendCooldownSeconds + 1) == Idle by {
        RunAdditive(Started, ResendCooldownSeconds, 1);
      }
    }
  }
}
