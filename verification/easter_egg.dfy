/** The easter egg on the logo: a counter of logo clicks that shows a
    message on the fifth click and starts again from zero. */
module EasterEgg {

  const ClicksToReveal := 5

  /** One logo click on the counter: `clickCount++`, and when it has reached
      5 the message is shown and the counter goes back to 0. The result is the
      new counter and whether the message was shown. */
  function LogoClickStep(clickCount: int): (r: (int, bool))
    ensures r.1 <==> clickCount == ClicksToReveal - 1
    ensures r.1 ==> r.0 == 0
    ensures !r.1 ==> r.0 == clickCount + 1
  {
    var bumped := clickCount + 1;
    if bumped == ClicksToReveal then (0, true) else (bumped, false)
  }

  /** The counter after n logo clicks since the page loaded. */
  function CountAfter(n: nat): int
  {
    if n == 0 then 0 else LogoClickStep(CountAfter(n - 1)).0
  }

  /** Whether the n-th logo click (counting from 1) shows the message. */
  function Reveals(n: nat): bool
    requires n >= 1
  {
    LogoClickStep(CountAfter(n - 1)).1
  }

  /** How many times the message has been shown in the first n clicks. */
  function RevealCount(n: nat): nat
  {
    if n == 0 then 0 else RevealCount(n - 1) + (if Reveals(n) then 1 else 0)
  }

  /** Between clicks the counter is the number of clicks modulo 5, so it
      always lies in 0..4. */
  lemma {:induction false} CountAfterIsRemainder(n: nat)
    ensures CountAfter(n) == n % ClicksToReveal
    ensures 0 <= CountAfter(n) < ClicksToReveal
  {
    if n > 0 {
      CountAfterIsRemainder(n - 1);
    }
  }

  /** The message is shown on exactly every fifth click, and the counter is
      0 right after it. */
  lemma RevealsEveryFifthClick(n: nat)
    requires n >= 1
    ensures Reveals(n) <==> n % ClicksToReveal == 0
    ensures Reveals(n) ==> CountAfter(n) == 0
  {
    CountAfterIsRemainder(n - 1);
    CountAfterIsRemainder(n);
    assert Reveals(n) <==> CountAfter(n - 1) == ClicksToReveal - 1;
    assert CountAfter(n) == LogoClickStep(CountAfter(n - 1)).0;
  }

  /** In n clicks the message is shown n / 5 times. */
  lemma {:induction false} RevealCountIsQuotient(n: nat)
    ensures RevealCount(n) == n / ClicksToReveal
  {
    if n > 0 {
      RevealCountIsQuotient(n - 1);
      RevealsEveryFifthClick(n);
    }
  }
}
