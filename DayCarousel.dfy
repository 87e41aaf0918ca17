/**
 * The day carousel of `ItineraryDisplay`: `currentDayIndex` and the three
 * ways the buttons change it. The previous and next buttons are shown only
 * when there are at least two day sections, and one dot button per day calls
 * `goToDay` with that day's index.
 */
module DayCarousel {

  /** JavaScript's `%`: the remainder takes the sign of the dividend. */
  function JsRem(a: int, n: int): (r: int)
    requires n > 0
    ensures a >= 0 ==> 0 <= r < n && r == a % n
    ensures a < 0 ==> -n < r <= 0
  {
    if a >= 0 then a % n else -((-a) % n)
  }

  /** Unlike Dafny's `%`, the JavaScript remainder of a negated dividend is the negated remainder. */
  lemma {:induction false} JsRemOdd(a: int, n: int)
    requires n > 0
    ensures JsRem(-a, n) == -JsRem(a, n)
  {
  }

  /** `(prevIndex + 1) % daySections.length`. */
  function Next(i: int, n: int): int
    requires n > 0
  {
    JsRem(i + 1, n)
  }

  /** `(prevIndex - 1 + daySections.length) % daySections.length`. */
  function Previous(i: int, n: int): int
    requires n > 0
  {
    JsRem(i - 1 + n, n)
  }

  /** From a valid index, both buttons give a valid index; next wraps from the last day to the first and previous the other way. */
  lemma {:induction false} StepsInRange(i: int, n: int)
    requires 0 <= i < n
    ensures 0 <= Next(i, n) < n && 0 <= Previous(i, n) < n
    ensures Next(i, n) == if i == n - 1 then 0 else i + 1
    ensures Previous(i, n) == if i == 0 then n - 1 else i - 1
  {
    NextStep(i, n);
    PreviousStep(i, n);
  }

  /** The next button moves one day on, from the last day to the first. */
  lemma {:induction false} NextStep(i: int, n: int)
    requires 0 <= i < n
    ensures Next(i, n) == if i == n - 1 then 0 else i + 1
  {
    if i == n - 1 {
      ModSelf(n);
    } else {
      ModBelow(i + 1, n);
    }
  }

  /** The previous button moves one day back, from the first day to the last. */
  lemma {:induction false} PreviousStep(i: int, n: int)
    requires 0 <= i < n
    ensures Previous(i, n) == if i == 0 then n - 1 else i - 1
  {
    if i == 0 {
      ModBelow(n - 1, n);
    } else {
      ModShift(i - 1, n);
    }
  }

  lemma {:induction false} ModBelow(x: int, n: int)
    requires 0 <= x < n
    ensures x % n == x
  {
  }

  lemma {:induction false} ModSelf(n: int)
    requires n > 0
    ensures n % n == 0
  {
  }

  lemma {:induction false} ModShift(x: int, n: int)
    requires 0 <= x < n
    ensures (x + n) % n == x
  {
    assert x + n == x + 1 * n;
  }

  /** Previous undoes next and next undoes previous. */
  lemma {:induction false} NextPreviousInverse(i: int, n: int)
    requires 0 <= i < n
    ensures Previous(Next(i, n), n) == i
    ensures Next(Previous(i, n), n) == i
  {
    StepsInRange(i, n);
    StepsInRange(Next(i, n), n);
    StepsInRange(Previous(i, n), n);
  }

  /** The carousel's state: the index of the day shown among `count` day sections. */
  class Carousel {
    const count: nat
    var index: int

    ghost predicate Valid()
      reads this
    {
      0 <= index < count
    }

    /** `useState(0)`; the carousel is shown only when there is a day section. */
    constructor (count: nat)
      requires count > 0
      ensures this.count == count && index == 0 && Valid()
    {
      this.count := count;
      index := 0;
    }

    /** The next button. */
    method GoToNext()
      requires Valid()
      modifies this
      ensures index == Next(old(index), count) && Valid()
    {
      StepsInRange(index, count);
      index := (index + 1) % count;
    }

    /** The previous button. */
    method GoToPrevious()
      requires Valid()
      modifies this
      ensures index == Previous(old(index), count) && Valid()
    {
      StepsInRange(index, count);
      index := (index - 1 + count) % count;
    }

    /** A dot button: its own index, one of `0 .. count - 1`. */
    method GoToDay(day: nat)
      requires Valid() && day < count
      modifies this
      ensures index == day && Valid()
    {
      index := day;
    }
  }
}
