/** The per-performance pricing and volume-credit rules of StatementPrinter.statement(),
    stated as pure functions of the genre and the audience size. */
module Pricing {
  import opened Wrappers
  import opened JavaInt

  /** A non-negative Java `int` constant. */
  type Constant = x: int | 0 <= x <= MAX

  /** A positive Java `int` constant (a divisor). */
  type PositiveConstant = x: int | 0 < x <= MAX witness 1

  // The values of the Constants class are not part of this model: each is an arbitrary
  // constant of its type, and every property below holds whatever they are.
  const TRAGEDY_BASE_AMOUNT: Constant
  const TRAGEDY_AUDIENCE_THRESHOLD: Constant
  const TRAGEDY_OVER_BASE_CAPACITY_PER_PERSON: Constant
  const COMEDY_BASE_AMOUNT: Constant
  const COMEDY_AUDIENCE_THRESHOLD: Constant
  const COMEDY_OVER_BASE_CAPACITY_AMOUNT: Constant
  const COMEDY_OVER_BASE_CAPACITY_PER_PERSON: Constant
  const COMEDY_AMOUNT_PER_AUDIENCE: Constant
  const BASE_VOLUME_CREDIT_THRESHOLD: Constant
  const COMEDY_EXTRA_VOLUME_FACTOR: PositiveConstant

  /** The play types the statement knows how to price. */
  datatype Genre = Tragedy | Comedy

  /** The case label under which the statement's switch prices a genre. */
  function Label(g: Genre): string
  {
    match g
    case Tragedy => "tragedy"
    case Comedy => "comedy"
  }

  /** The switch on the play's type string: an exact match of a case label selects the
      genre, any other string falls to the default branch. */
  function ParseGenre(playType: string): (g: Option<Genre>)
    ensures g.None? <==> playType != "tragedy" && playType != "comedy"
  {
    if playType == "tragedy" then Some(Tragedy)
    else if playType == "comedy" then Some(Comedy)
    else None
  }

  /** A type string selects a genre exactly when it is that genre's case label. */
  lemma ParseGenreLabel(playType: string, g: Genre)
    ensures ParseGenre(playType) == Some(g) <==> playType == Label(g)
  {
    match g
    case Tragedy =>
    case Comedy =>
  }

  /** The charge for one performance in cents, with unbounded integers (the statement
      computes this value wrapped to a Java int). */
  function AmountFor(g: Genre, audience: int): int
  {
    match g
    case Tragedy =>
      TRAGEDY_BASE_AMOUNT
      + (if audience > TRAGEDY_AUDIENCE_THRESHOLD
         then TRAGEDY_OVER_BASE_CAPACITY_PER_PERSON * (audience - TRAGEDY_AUDIENCE_THRESHOLD)
         else 0)
    case Comedy =>
      COMEDY_BASE_AMOUNT
      + (if audience > COMEDY_AUDIENCE_THRESHOLD
         then COMEDY_OVER_BASE_CAPACITY_AMOUNT
              + COMEDY_OVER_BASE_CAPACITY_PER_PERSON * (audience - COMEDY_AUDIENCE_THRESHOLD)
         else 0)
      + COMEDY_AMOUNT_PER_AUDIENCE * audience
  }

  /** The volume credits for one performance, with Java's `Math.max` over a Java-int
      subtraction and, for comedy, Java's truncating division. */
  function CreditsFor(g: Genre, audience: int32): (r: int)
    ensures audience >= 0 ==>
      r == (if audience > BASE_VOLUME_CREDIT_THRESHOLD then audience - BASE_VOLUME_CREDIT_THRESHOLD else 0)
           + (if g == Comedy then audience / COMEDY_EXTRA_VOLUME_FACTOR else 0)
    ensures audience >= 0 ==> r >= 0
  {
    var over := Wrap(audience - BASE_VOLUME_CREDIT_THRESHOLD);
    assert audience >= 0 ==> over == audience - BASE_VOLUME_CREDIT_THRESHOLD by {
      if audience >= 0 {
        WrapInRange(audience - BASE_VOLUME_CREDIT_THRESHOLD);
      }
    }
    Max(over, 0) + (if g == Comedy then Div(audience, COMEDY_EXTRA_VOLUME_FACTOR) else 0)
  }

  /** Up to its threshold a tragedy costs exactly its base amount. */
  lemma TragedyUpToThreshold(audience: int)
    requires audience <= TRAGEDY_AUDIENCE_THRESHOLD
    ensures AmountFor(Tragedy, audience) == TRAGEDY_BASE_AMOUNT
  {
  }

  /** Each seat past the threshold adds the tragedy's per-person rate. */
  lemma TragedyOverThreshold(extra: nat)
    ensures AmountFor(Tragedy, TRAGEDY_AUDIENCE_THRESHOLD + extra)
         == TRAGEDY_BASE_AMOUNT + TRAGEDY_OVER_BASE_CAPACITY_PER_PERSON * extra
  {
  }

  /** Up to its threshold a comedy costs its base amount plus the flat rate per seat. */
  lemma ComedyUpToThreshold(audience: int)
    requires audience <= COMEDY_AUDIENCE_THRESHOLD
    ensures AmountFor(Comedy, audience) == COMEDY_BASE_AMOUNT + COMEDY_AMOUNT_PER_AUDIENCE * audience
  {
  }

  /** Past its threshold a comedy adds the fixed surcharge once, then the per-person rate
      for each extra seat, on top of the flat rate for every seat. */
  lemma ComedyOverThreshold(extra: nat)
    requires extra > 0
    ensures AmountFor(Comedy, COMEDY_AUDIENCE_THRESHOLD + extra)
         == AmountFor(Comedy, COMEDY_AUDIENCE_THRESHOLD) + COMEDY_OVER_BASE_CAPACITY_AMOUNT
            + (COMEDY_OVER_BASE_CAPACITY_PER_PERSON + COMEDY_AMOUNT_PER_AUDIENCE) * extra
  {
  }

  /** Above its threshold the charge of a genre grows by the same amount for every
      additional seat: the per-person rate, plus the flat rate for comedy. */
  lemma AmountSlopeOverThreshold(g: Genre, audience: int, more: nat)
    requires audience > (if g == Tragedy then TRAGEDY_AUDIENCE_THRESHOLD else COMEDY_AUDIENCE_THRESHOLD)
    ensures AmountFor(g, audience + more) - AmountFor(g, audience)
         == more * (if g == Tragedy then TRAGEDY_OVER_BASE_CAPACITY_PER_PERSON
                    else COMEDY_OVER_BASE_CAPACITY_PER_PERSON + COMEDY_AMOUNT_PER_AUDIENCE)
  {
  }

  /** For a non-negative audience the exact charge is at least its genre's base amount. */
  lemma AmountNonNegative(g: Genre, audience: int)
    requires audience >= 0
    ensures AmountFor(g, audience) >= (if g == Tragedy then TRAGEDY_BASE_AMOUNT else COMEDY_BASE_AMOUNT) >= 0
  {
    match g
    case Tragedy =>
      if audience > TRAGEDY_AUDIENCE_THRESHOLD {
        ScaleMonotone(TRAGEDY_OVER_BASE_CAPACITY_PER_PERSON, 0, audience - TRAGEDY_AUDIENCE_THRESHOLD);
      }
    case Comedy =>
      if audience > COMEDY_AUDIENCE_THRESHOLD {
        ScaleMonotone(COMEDY_OVER_BASE_CAPACITY_PER_PERSON, 0, audience - COMEDY_AUDIENCE_THRESHOLD);
      }
      ScaleMonotone(COMEDY_AMOUNT_PER_AUDIENCE, 0, audience);
  }

  /** A larger audience never has a smaller exact charge. */
  lemma AmountMonotone(g: Genre, a: int, b: int)
    requires a <= b
    ensures AmountFor(g, a) <= AmountFor(g, b)
  {
    match g
    case Tragedy =>
      OverThresholdMonotone(TRAGEDY_OVER_BASE_CAPACITY_PER_PERSON, TRAGEDY_AUDIENCE_THRESHOLD, a, b);
    case Comedy =>
      OverThresholdMonotone(COMEDY_OVER_BASE_CAPACITY_PER_PERSON, COMEDY_AUDIENCE_THRESHOLD, a, b);
      ScaleMonotone(COMEDY_AMOUNT_PER_AUDIENCE, a, b);
  }

  /** The per-person charge past a threshold does not shrink as the audience grows. */
  lemma OverThresholdMonotone(rate: int, threshold: int, a: int, b: int)
    requires rate >= 0 && a <= b
    ensures (if a > threshold then rate * (a - threshold) else 0)
         <= (if b > threshold then rate * (b - threshold) else 0)
  {
    if a > threshold {
      ScaleMonotone(rate, a - threshold, b - threshold);
    } else if b > threshold {
      ScaleMonotone(rate, 0, b - threshold);
    }
  }

  /** A non-negative rate applied to more units yields no less. */
  lemma ScaleMonotone(rate: int, x: int, y: int)
    requires rate >= 0 && x <= y
    ensures rate * x <= rate * y
  {
    assert rate * y - rate * x == rate * (y - x);
  }

  /** A larger (non-negative) audience never earns fewer credits. */
  lemma CreditsMonotone(g: Genre, a: int32, b: int32)
    requires 0 <= a <= b
    ensures CreditsFor(g, a) <= CreditsFor(g, b)
  {
    DivMonotone(a, b, COMEDY_EXTRA_VOLUME_FACTOR);
  }

  /** While the exact charge of a non-negative audience fits in a Java int, the charge the
      statement computes in Java ints is exact. */
  lemma ChargeExact(g: Genre, audience: int)
    requires audience >= 0 && AmountFor(g, audience) <= MAX
    ensures Wrap(AmountFor(g, audience)) == AmountFor(g, audience)
  {
    AmountNonNegative(g, audience);
    WrapInRange(AmountFor(g, audience));
  }

  /** While the exact charge of the larger audience fits in a Java int, the charge computed
      in Java ints does not fall as the (non-negative) audience grows. */
  lemma WrappedChargeMonotone(g: Genre, a: int, b: int)
    requires 0 <= a <= b && AmountFor(g, b) <= MAX
    ensures Wrap(AmountFor(g, a)) <= Wrap(AmountFor(g, b))
  {
    AmountMonotone(g, a, b);
    ChargeExact(g, a);
    ChargeExact(g, b);
  }
}
