/** The "Typing..." indicator (`TypingIndicatorView`): a dot counter that cycles on every timer tick. */
module TypingIndicator {

  const MaxDots: nat := 3

  /** One tick: one more dot, wrapping from `MaxDots` back to none. */
  function NextDotCount(n: nat): (m: nat)
    ensures m <= MaxDots
    ensures n < MaxDots ==> m == n + 1
    ensures n == MaxDots ==> m == 0
  {
    (n + 1) % (MaxDots + 1)
  }

  /** The count after `k` ticks from `n`. */
  function Ticks(n: nat, k: nat): nat {
    if k == 0 then n else NextDotCount(Ticks(n, k - 1))
  }

  /** One tick on a count taken modulo `MaxDots + 1`. */
  lemma NextOfModulo(a: nat)
    ensures NextDotCount(a % (MaxDots + 1)) == (a + 1) % (MaxDots + 1)
  {
    var q, r := a / (MaxDots + 1), a % (MaxDots + 1);
    assert a == (MaxDots + 1) * q + r;
    if r < MaxDots {
      assert a + 1 == (MaxDots + 1) * q + (r + 1);
    } else {
      assert a + 1 == (MaxDots + 1) * (q + 1);
    }
  }

  /** `k` ticks from a count in range advance it by `k`, modulo `MaxDots + 1`. */
  lemma {:induction false} TicksAreModular(n: nat, k: nat)
    requires n <= MaxDots
    ensures Ticks(n, k) == (n + k) % (MaxDots + 1)
  {
    if k > 0 {
      TicksAreModular(n, k - 1);
      NextOfModulo(n + k - 1);
    }
  }

  /** From nothing the dots go 1, 2, 3 and back to none; any count returns to itself after `MaxDots + 1` ticks. */
  lemma TicksCycle(n: nat)
    requires n <= MaxDots
    ensures Ticks(0, 1) == 1 && Ticks(0, 2) == 2 && Ticks(0, 3) == 3 && Ticks(0, 4) == 0
    ensures Ticks(n, MaxDots + 1) == n
  {
    TicksAreModular(n, MaxDots + 1);
  }

  /** `String(repeating: ".", count: n)`. */
  function Dots(n: nat): (s: string)
    ensures |s| == n && forall i :: 0 <= i < n ==> s[i] == '.'
  {
    if n == 0 then "" else Dots(n - 1) + "."
  }

  /** The indicator's text: "Typing" and then exactly `n` dots. */
  function Label(n: nat): (s: string)
    ensures |s| == 6 + n && s[..6] == "Typing"
    ensures forall i :: 6 <= i < |s| ==> s[i] == '.'
  {
    "Typing" + Dots(n)
  }

  class Indicator {
    var dotCount: nat

    /** The count never leaves `0..MaxDots`. */
    predicate Valid()
      reads this
    {
      dotCount <= MaxDots
    }

    constructor ()
      ensures dotCount == 0 && Valid()
    {
      dotCount := 0;
    }

    method Tick()
      modifies this
      ensures dotCount == NextDotCount(old(dotCount)) && Valid()
    {
      dotCount := (dotCount + 1) % (MaxDots + 1);
    }

    /** What the indicator shows now: from "Typing" up to "Typing...". */
    function Text(): (t: string)
      reads this
      requires Valid()
      ensures |t| == 6 + dotCount <= 6 + MaxDots && t[..6] == "Typing"
      ensures forall i :: 6 <= i < |t| ==> t[i] == '.'
    {
      Label(dotCount)
    }
  }
}
