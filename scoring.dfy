/**
 * The per-record formulas of the normaliser: loan-to-value, equity, loan
 * age, the APS score with its loan-age sub-score, the tier rule and the
 * Credit Confidence Index (CCI). A value pandas may hold as NaN is an
 * Option; comparisons with NaN are false, arithmetic with NaN is NaN.
 */
module Scoring {
  import opened Wrappers
  import opened Rounding
  import opened Frames

  /** `clip(0, 100)`. */
  function Clip(x: real): (r: real)
    ensures 0.0 <= r <= 100.0
    ensures 0.0 <= x <= 100.0 ==> r == x
  {
    if x < 0.0 then 0.0 else if x > 100.0 then 100.0 else x
  }

  function Min(a: real, b: real): real {
    if a <= b then a else b
  }

  function Max(a: real, b: real): real {
    if a >= b then a else b
  }

  // ---------------------------------------------------------------------
  // Loan-to-value and equity

  /**
   * `LTV %`: `((balance / value) * 100).round(2)`, then `fillna(0)` and
   * `clip(0, 100)`. Dividing a positive balance by a zero value gives +inf,
   * which the clip saturates to 100; a negative one gives -inf, clipped to
   * 0; 0/0 and a NaN operand give NaN, filled with 0.
   */
  function LtvPct(balance: Option<real>, value: Option<real>): (ltv: real)
    ensures 0.0 <= ltv <= 100.0
    ensures OnGrid(ltv, 2)
  {
    match (balance, value)
    case (Some(b), Some(v)) =>
      if v == 0.0 then
        IntegerOnGrid(0, 2);
        IntegerOnGrid(100, 2);
        if b > 0.0 then 100.0 else 0.0
      else
        var rounded := Round(b / v * 100.0, 2);
        IntegerOnGrid(0, 2);
        IntegerOnGrid(100, 2);
        Clip(rounded)
    case _ =>
      IntegerOnGrid(0, 2);
      0.0
  }

  /** `Equity %`: `(100 - LTV %).round(2)`. */
  function EquityPct(ltv: real): (equity: real)
    ensures 0.0 <= ltv <= 100.0 ==> 0.0 <= equity <= 100.0
  {
    if 0.0 <= ltv <= 100.0 then RoundWithin(100.0 - ltv, 2, 0, 100); Round(100.0 - ltv, 2)
    else Round(100.0 - ltv, 2)
  }

  /** `Equity_Dollars`: `(value * (Equity % / 100)).round(0)`; NaN when the value is NaN. */
  function EquityDollars(value: Option<real>, equity: real): (dollars: Option<real>)
    ensures dollars.Some? <==> value.Some?
    ensures value.Some? ==>
      value.value * equity / 100.0 - 0.5 <= dollars.value <= value.value * equity / 100.0 + 0.5
  {
    match value
    case Some(v) =>
      Some(Round(v * (equity / 100.0), 0))
    case None => None
  }

  // ---------------------------------------------------------------------
  // Loan age

  /**
   * Months counted from year 0, month 0: the calendar month a date falls in.
   * For a valid month the index gives back the year and the month.
   */
  function MonthIndex(d: Date): (i: int)
    ensures 1 <= d.month <= 12 ==> (i - 1) / 12 == d.year && (i - 1) % 12 == d.month - 1
  {
    d.year * 12 + d.month
  }

  /**
   * `calculate_months`: whole calendar months from the loan date to today,
   * day of month ignored, never negative; a missing date gives 0.
   */
  function LoanAgeMonths(loanDate: Option<Date>, today: Date): (months: nat)
    ensures loanDate.None? ==> months == 0
    ensures loanDate.Some? && MonthIndex(loanDate.value) <= MonthIndex(today) ==>
      months == MonthIndex(today) - MonthIndex(loanDate.value)
    ensures loanDate.Some? && MonthIndex(loanDate.value) > MonthIndex(today) ==> months == 0
  {
    match loanDate
    case None => 0
    case Some(d) =>
      var total := (today.year - d.year) * 12 + (today.month - d.month);
      if total > 0 then total else 0
  }

  // ---------------------------------------------------------------------
  // APS score

  /**
   * The loan-age sub-score: a ramp to 50 below 18 months, the 18-36 month
   * plateau at 100, a decay to 70 at 60 months, then a slower decay floored
   * at 40.
   */
  function AgeScore(m: real): (a: real)
    ensures m >= 0.0 ==> 0.0 <= a <= 100.0
  {
    if m < 18.0 then (m / 18.0) * 50.0
    else if m <= 36.0 then 100.0
    else if m <= 60.0 then 100.0 - ((m - 36.0) / 24.0) * 30.0
    else Max(40.0, 70.0 - ((m - 60.0) / 60.0) * 30.0)
  }

  /** The weighted combination before rounding: in [0, 100] when its inputs are. */
  function RawApsScore(equity: real, age: real, ltv: real): (raw: real)
    ensures 0.0 <= equity <= 100.0 && 0.0 <= ltv <= 100.0 && age >= 0.0 ==> 0.0 <= raw <= 100.0
  {
    equity * 0.40 + AgeScore(age) * 0.30 + (100.0 - ltv) * 0.30
  }

  /** `APS_Score (v2.0)`: the weighted combination rounded to one decimal. */
  function ApsScore(equity: real, age: real, ltv: real): (score: real)
    ensures 0.0 <= equity <= 100.0 && 0.0 <= ltv <= 100.0 && age >= 0.0 ==> 0.0 <= score <= 100.0
  {
    var raw := RawApsScore(equity, age, ltv);
    if 0.0 <= equity <= 100.0 && 0.0 <= ltv <= 100.0 && age >= 0.0 then
      RoundWithin(raw, 1, 0, 100);
      Round(raw, 1)
    else Round(raw, 1)
  }

  // ---------------------------------------------------------------------
  // Tier

  datatype Tier = Platinum | Gold | Silver | Nurture {
    /** The label written to the `APS_Tier` column. */
    function Label(): string {
      match this
      case Platinum => "Platinum"
      case Gold => "Gold"
      case Silver => "Silver"
      case Nurture => "Nurture"
    }

    /** Platinum > Gold > Silver > Nurture. */
    function Rank(): nat {
      match this
      case Platinum => 3
      case Gold => 2
      case Silver => 1
      case Nurture => 0
    }
  }

  /** NaN compares false. */
  predicate AtLeast(x: Option<real>, bound: real) {
    x.Some? && x.value >= bound
  }

  predicate AtMost(x: Option<real>, bound: real) {
    x.Some? && x.value <= bound
  }

  /** The rule table: minimum score, maximum LTV and minimum equity dollars per tier. */
  function MinScore(t: Tier): real {
    match t
    case Platinum => 80.0
    case Gold => 65.0
    case Silver => 50.0
    case Nurture => 0.0
  }

  function MaxLtv(t: Tier): real {
    match t
    case Platinum => 30.0
    case Gold => 50.0
    case Silver => 65.0
    case Nurture => 100.0
  }

  function MinEquityDollars(t: Tier): real {
    match t
    case Platinum => 500000.0
    case Gold => 300000.0
    case Silver => 200000.0
    case Nurture => 0.0
  }

  /**
   * A record qualifies for a tier when all three of its thresholds hold;
   * anyone qualifies for Nurture. A NaN field (None) qualifies for nothing
   * above Nurture, since every comparison with NaN is false.
   */
  predicate Qualifies(t: Tier, score: Option<real>, ltv: Option<real>, equityDollars: Option<real>)
    ensures Qualifies(t, score, ltv, equityDollars) && t != Nurture ==>
      score.Some? && ltv.Some? && equityDollars.Some?
  {
    t == Nurture ||
    (AtLeast(score, MinScore(t)) && AtMost(ltv, MaxLtv(t)) && AtLeast(equityDollars, MinEquityDollars(t)))
  }

  /**
   * `assign_tier`: the rules tried top-down, first match wins. The result is
   * the highest-ranked tier the record qualifies for.
   */
  function AssignTier(score: Option<real>, ltv: Option<real>, equityDollars: Option<real>): (t: Tier)
    ensures Qualifies(t, score, ltv, equityDollars)
    ensures forall u: Tier :: u.Rank() > t.Rank() ==> !Qualifies(u, score, ltv, equityDollars)
  {
    if AtLeast(score, 80.0) && AtMost(ltv, 30.0) && AtLeast(equityDollars, 500000.0) then Platinum
    else if AtLeast(score, 65.0) && AtMost(ltv, 50.0) && AtLeast(equityDollars, 300000.0) then Gold
    else if AtLeast(score, 50.0) && AtMost(ltv, 65.0) && AtLeast(equityDollars, 200000.0) then Silver
    else Nurture
  }

  // ---------------------------------------------------------------------
  // CCI

  /** Up to 40 points for equity. */
  function EquityComponent(equity: real): (c: real)
    ensures equity >= 0.0 ==> 0.0 <= c
    ensures c <= 40.0
  {
    Min(40.0, (equity / 100.0) * 40.0)
  }

  /** Up to 35 points for a low LTV. */
  function LtvComponent(ltv: real): (c: real)
    ensures ltv >= 0.0 ==> c <= 35.0
    ensures 0.0 <= c
  {
    Max(0.0, 35.0 - (ltv / 100.0) * 35.0)
  }

  /** Up to 25 points for loan age: 15 * m/18 below 18 months, 25 * m/60 (capped) from 18 on. */
  function AgeComponent(m: real): (c: real)
    ensures m >= 0.0 ==> 0.0 <= c <= 25.0
  {
    if m >= 18.0 then Min(25.0, 25.0 * (m / 60.0)) else (m / 18.0) * 15.0
  }

  /** The three components summed: in [0, 100] for non-negative inputs. */
  function RawCci(equity: real, ltv: real, age: real): (raw: real)
    ensures equity >= 0.0 && ltv >= 0.0 && age >= 0.0 ==> 0.0 <= raw <= 100.0
  {
    EquityComponent(equity) + LtvComponent(ltv) + AgeComponent(age)
  }

  /** `CCI`: the three components summed, rounded to one decimal. */
  function Cci(equity: real, ltv: real, age: real): (cci: real)
    ensures equity >= 0.0 && ltv >= 0.0 && age >= 0.0 ==> 0.0 <= cci <= 100.0
  {
    var raw := RawCci(equity, ltv, age);
    if equity >= 0.0 && ltv >= 0.0 && age >= 0.0 then
      RoundWithin(raw, 1, 0, 100);
      Round(raw, 1)
    else Round(raw, 1)
  }

  // ---------------------------------------------------------------------
  // Properties

  /**
   * The degenerate LTV inputs: an undefined ratio (a NaN operand, or 0/0)
   * and a non-positive balance over a zero value give 0; a positive balance
   * over a zero value saturates to 100.
   */
  lemma LtvDegenerateCases(balance: Option<real>, value: Option<real>)
    ensures balance.None? || value.None? ==> LtvPct(balance, value) == 0.0
    ensures value == Some(0.0) && balance.Some? && balance.value <= 0.0 ==> LtvPct(balance, value) == 0.0
    ensures value == Some(0.0) && balance.Some? && balance.value > 0.0 ==> LtvPct(balance, value) == 100.0
  {
  }

  /**
   * With a non-zero value, LTV follows the true ratio: within half a cent of
   * a percent inside [0, 100], 100 above it, 0 below it.
   */
  lemma {:induction false} LtvTracksRatio(b: real, v: real)
    requires v != 0.0
    ensures var r := b / v * 100.0;
      && (r >= 100.0 ==> LtvPct(Some(b), Some(v)) == 100.0)
      && (r <= 0.0 ==> LtvPct(Some(b), Some(v)) == 0.0)
      && (0.0 <= r <= 100.0 ==> r - 0.005 <= LtvPct(Some(b), Some(v)) <= r + 0.005)
  {
    var r := b / v * 100.0;
    if r >= 100.0 {
      RoundWithin(r, 2, 100, r.Floor + 1);
    } else if r <= 0.0 {
      RoundWithin(r, 2, r.Floor, 0);
    } else {
      RoundWithin(r, 2, 0, 100);
    }
  }

  /** Equity % is exactly the complement of LTV %: the two always sum to 100. */
  lemma {:induction false} EquityComplementsLtv(balance: Option<real>, value: Option<real>)
    ensures EquityPct(LtvPct(balance, value)) + LtvPct(balance, value) == 100.0
    ensures 0.0 <= EquityPct(LtvPct(balance, value)) <= 100.0
  {
    var ltv := LtvPct(balance, value);
    ComplementOnGrid(100, ltv, 2);
    RoundOnGrid(100.0 - ltv, 2);
  }

  /** The day of month plays no part in the loan age, on either date. */
  lemma LoanAgeIgnoresDay(y: int, m: int, d1: int, d2: int, today1: Date, today2: Date)
    requires today1.year == today2.year && today1.month == today2.month
    ensures LoanAgeMonths(Some(Date(y, m, d1)), today1) == LoanAgeMonths(Some(Date(y, m, d2)), today2)
  {
  }

  /** The calendar month after `d`'s month (day kept). */
  function NextMonth(d: Date): (n: Date)
    requires 1 <= d.month <= 12
    ensures MonthIndex(n) == MonthIndex(d) + 1
  {
    if d.month == 12 then Date(d.year + 1, 1, d.day) else Date(d.year, d.month + 1, d.day)
  }

  /** Once a loan date is not in the future, each calendar month adds one month of age. */
  lemma LoanAgeAdvances(loan: Date, today: Date)
    requires 1 <= today.month <= 12
    requires MonthIndex(loan) <= MonthIndex(today)
    ensures LoanAgeMonths(Some(loan), NextMonth(today)) == LoanAgeMonths(Some(loan), today) + 1
  {
  }

  /** The documented breakpoints of the age sub-score, and its floor of 40 from 120 months on. */
  lemma AgeScoreBreakpoints(m: real)
    ensures AgeScore(0.0) == 0.0
    ensures AgeScore(18.0) == 100.0 && AgeScore(36.0) == 100.0
    ensures 18.0 <= m <= 36.0 ==> AgeScore(m) == 100.0
    ensures AgeScore(60.0) == 70.0
    ensures m >= 120.0 ==> AgeScore(m) == 40.0
    ensures 0.0 <= m < 18.0 ==> AgeScore(m) < 50.0
  {
  }

  /** From the start of the plateau on, a longer loan age never scores higher. */
  lemma AgeScoreNonIncreasing(a: real, b: real)
    requires 18.0 <= a <= b
    ensures AgeScore(b) <= AgeScore(a)
  {
  }

  /** Below the plateau the sub-score rises with the loan age. */
  lemma AgeScoreRampIncreasing(a: real, b: real)
    requires a <= b < 18.0
    ensures AgeScore(a) <= AgeScore(b)
  {
  }

  /**
   * Since equity is the complement of LTV, the score is
   * 0.7 * (100 - LTV) + 0.3 * age sub-score, and lies in [0, 100].
   */
  lemma ApsScoreOfComplement(ltv: real, age: real)
    requires 0.0 <= ltv <= 100.0 && age >= 0.0
    ensures RawApsScore(100.0 - ltv, age, ltv) == 0.70 * (100.0 - ltv) + 0.30 * AgeScore(age)
    ensures 0.0 <= RawApsScore(100.0 - ltv, age, ltv) <= 100.0
  {
  }

  /** Rounding to one decimal moves the score by at most 0.05. */
  lemma {:induction false} ApsScoreNearRaw(equity: real, age: real, ltv: real)
    ensures RawApsScore(equity, age, ltv) - 0.05 <= ApsScore(equity, age, ltv) <= RawApsScore(equity, age, ltv) + 0.05
  {
  }

  /** The rules are nested: a Platinum record also meets Gold's and Silver's conditions. */
  lemma TierRulesNested(score: Option<real>, ltv: Option<real>, dollars: Option<real>)
    ensures Qualifies(Platinum, score, ltv, dollars) ==> Qualifies(Gold, score, ltv, dollars)
    ensures Qualifies(Gold, score, ltv, dollars) ==> Qualifies(Silver, score, ltv, dollars)
  {
  }

  /** A higher score never yields a lower tier. */
  lemma {:induction false} TierMonotoneInScore(s1: real, s2: real, ltv: Option<real>, dollars: Option<real>)
    requires s1 <= s2
    ensures AssignTier(Some(s1), ltv, dollars).Rank() <= AssignTier(Some(s2), ltv, dollars).Rank()
  {
    var t := AssignTier(Some(s1), ltv, dollars);
    assert Qualifies(t, Some(s2), ltv, dollars);
  }

  /** A lower LTV never yields a lower tier. */
  lemma {:induction false} TierAntitoneInLtv(score: Option<real>, l1: real, l2: real, dollars: Option<real>)
    requires l1 <= l2
    ensures AssignTier(score, Some(l2), dollars).Rank() <= AssignTier(score, Some(l1), dollars).Rank()
  {
    var t := AssignTier(score, Some(l2), dollars);
    assert Qualifies(t, score, Some(l1), dollars);
  }

  /** More equity dollars never yield a lower tier. */
  lemma {:induction false} TierMonotoneInEquity(score: Option<real>, ltv: Option<real>, d1: real, d2: real)
    requires d1 <= d2
    ensures AssignTier(score, ltv, Some(d1)).Rank() <= AssignTier(score, ltv, Some(d2)).Rank()
  {
    var t := AssignTier(score, ltv, Some(d1));
    assert Qualifies(t, score, ltv, Some(d2));
  }

  /** NaN equity dollars (an unparseable value) can only be Nurture. */
  lemma TierWithoutEquityDollars(score: Option<real>, ltv: Option<real>)
    ensures AssignTier(score, ltv, None) == Nurture
  {
  }

  /** Score 85 and LTV 25 are Platinum with $600,000 of equity, but Nurture with $100,000. */
  lemma TierExamples()
    ensures AssignTier(Some(85.0), Some(25.0), Some(600000.0)) == Platinum
    ensures AssignTier(Some(85.0), Some(25.0), Some(100000.0)) == Nurture
  {
  }

  /**
   * The CCI age component drops at the 18-month boundary (about 14.17
   * points at 17 months, 7.5 at 18) and reaches its cap of 25 at 60 months.
   */
  lemma CciAgeComponentShape(m: real)
    ensures AgeComponent(17.0) > 14.16 && AgeComponent(18.0) == 7.5
    ensures m >= 60.0 ==> AgeComponent(m) == 25.0
    ensures 18.0 <= m <= 60.0 ==> AgeComponent(m) == 25.0 * m / 60.0
  {
  }

  /** With equity the complement of LTV, the first two CCI components sum to 75 - 0.75 * LTV. */
  lemma CciOfComplement(ltv: real, age: real)
    requires 0.0 <= ltv <= 100.0
    ensures RawCci(100.0 - ltv, ltv, age) == 75.0 - 0.75 * ltv + AgeComponent(age)
  {
  }
}
