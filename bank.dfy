/** The bank of the monthly tick: rate drift, interest, overdraft, credit score and
    credit limit. */
module Bank {
  import opened Types
  import opened Numbers

  const MIN_DEPOSIT_RATE: real := 0.01
  const MAX_DEPOSIT_RATE: real := 0.12
  const MIN_SCORE: int := 300
  const MAX_SCORE: int := 850

  /** The deposit rate moves by (u - 0.5) * 0.005 and is clamped to [0.01, 0.12]. */
  function DriftDepositRate(rate: real, u: real): (r: real)
    ensures MIN_DEPOSIT_RATE <= r <= MAX_DEPOSIT_RATE
    ensures IsUnit(u) && MIN_DEPOSIT_RATE <= rate <= MAX_DEPOSIT_RATE ==> -0.0025 <= r - rate <= 0.0025
  {
    var change := (u - 0.5) * 0.005;
    Max(MIN_DEPOSIT_RATE, Min(MAX_DEPOSIT_RATE, rate + change))
  }

  /** Risk premium over the deposit rate: 0.02 at the best score, 0.20 at the worst. */
  function RiskPremium(score: int): (p: real)
    ensures MIN_SCORE <= score <= MAX_SCORE ==> 0.02 <= p <= 0.20
  {
    0.02 + ((850 - score) as real / 550.0) * 0.18
  }

  /** A better score never costs a higher premium. */
  lemma PremiumFallsWithScore(s1: int, s2: int)
    requires s1 <= s2
    ensures RiskPremium(s2) <= RiskPremium(s1)
  {
  }

  /** The loan rate after the drift: the new deposit rate plus the premium of the
      score held before the tick. With a score in range it is the deposit rate plus
      a premium in [0.02, 0.20]. */
  function LoanRate(newDepositRate: real, priorScore: int): (r: real)
    ensures MIN_SCORE <= priorScore <= MAX_SCORE ==> newDepositRate + 0.02 <= r <= newDepositRate + 0.20
  {
    newDepositRate + RiskPremium(priorScore)
  }

  /** One month of interest on a balance at an annual rate. */
  function MonthlyInterest(balance: real, annualRate: real): (i: real)
    ensures balance >= 0.0 && annualRate >= 0.0 ==> i >= 0.0
  {
    balance * (annualRate / 12.0)
  }

  datatype InterestStep = InterestStep(cash: real, debt: real, missed: bool)

  /** Loan interest is paid from cash when cash covers it; otherwise it is added to
      the debt and the payment is reported as missed. */
  function PayInterest(cash: real, debt: real, interest: real): InterestStep
  {
    var owed := debt + interest;
    if cash >= interest then InterestStep(cash - interest, owed - interest, false)
    else InterestStep(cash, owed, true)
  }

  /** Either way the month's interest costs exactly `interest` of net position;
      paid interest leaves the debt as it was, missed interest leaves the cash. */
  lemma InterestCostsNetPosition(cash: real, debt: real, interest: real)
    ensures var r := PayInterest(cash, debt, interest);
      r.debt - r.cash == debt - cash + interest &&
      (r.missed <==> cash < interest) &&
      (!r.missed ==> r.debt == debt && r.cash == cash - interest) &&
      (r.missed ==> r.cash == cash && r.debt == debt + interest)
  {
  }

  datatype OverdraftStep = OverdraftStep(cash: real, debt: real, shortfall: Option<real>)

  /** Negative cash is turned into debt: the shortfall is borrowed and cash becomes 0. */
  function CoverOverdraft(cash: real, debt: real): OverdraftStep
  {
    if cash < 0.0 then
      var shortfall := -cash;
      OverdraftStep(0.0, debt + shortfall, Some(shortfall))
    else OverdraftStep(cash, debt, None)
  }

  /** After the conversion cash is not negative, the net position debt - cash is
      unchanged, non-negative debt stays non-negative, and nothing happens when cash
      was already non-negative. */
  lemma OverdraftPreservesNetPosition(cash: real, debt: real)
    ensures var r := CoverOverdraft(cash, debt);
      r.cash >= 0.0 && r.debt - r.cash == debt - cash &&
      (debt >= 0.0 ==> r.debt >= 0.0) &&
      (cash >= 0.0 <==> r == OverdraftStep(cash, debt, None))
  {
  }

  /** Debt over the credit limit (a limit below 1 counts as 1). */
  function Utilization(debt: real, limit: int): real
  {
    debt / Max(1.0, limit as real)
  }

  /** Score change from the utilization: -10, -5, -1, +1 with low positive debt,
      +0.5 without debt. */
  function UtilizationDelta(debt: real, limit: int): (d: real)
    ensures d in {-10.0, -5.0, -1.0, 1.0, 0.5}
  {
    var u := Utilization(debt, limit);
    if u > 1.1 then -10.0
    else if u > 0.8 then -5.0
    else if u > 0.3 then -1.0
    else if debt > 0.0 then 1.0
    else 0.5
  }

  /** The random jitter: with probability 0.1 (chance draw below 0.1), a move of
      (u - 0.5) * 4. */
  function Jitter(chance: real, u: real): (j: real)
    ensures chance >= 0.1 ==> j == 0.0
    ensures chance < 0.1 ==> j / 4.0 + 0.5 == u
    ensures IsUnit(u) ==> -2.0 <= j < 2.0
  {
    if chance < 0.1 then (u - 0.5) * 4.0 else 0.0
  }

  /** The new credit score: the old one plus the utilization change and the jitter,
      floored and clamped to [300, 850]. */
  function NextScore(score: int, debt: real, limit: int, chance: real, u: real): (r: int)
    ensures MIN_SCORE <= r <= MAX_SCORE
  {
    var raw := score as real + UtilizationDelta(debt, limit) + Jitter(chance, u);
    MaxInt(MIN_SCORE, MinInt(MAX_SCORE, raw.Floor))
  }

  /** Without debt and without jitter the score stays put: the +0.5 is floored away. */
  lemma ScoreSteadyWithoutDebt(score: int, limit: int, chance: real, u: real)
    requires MIN_SCORE <= score <= MAX_SCORE && chance >= 0.1
    ensures NextScore(score, 0.0, limit, chance, u) == score
  {
    assert UtilizationDelta(0.0, limit) == 0.5;
  }

  /** Utilization above 0.3 never raises the score unless the jitter does. */
  lemma ScoreFallsWhenOverused(score: int, debt: real, limit: int, chance: real, u: real)
    requires MIN_SCORE <= score <= MAX_SCORE && chance >= 0.1
    requires Utilization(debt, limit) > 0.3
    ensures NextScore(score, debt, limit, chance, u) <= score
    ensures score > MIN_SCORE ==> NextScore(score, debt, limit, chance, u) < score
  {
  }

  /** One tick moves the score by at most 12 points down and 2 points up. */
  lemma ScoreMoveBounded(score: int, debt: real, limit: int, chance: real, u: real)
    requires MIN_SCORE <= score <= MAX_SCORE && IsUnit(u)
    ensures score - 12 <= NextScore(score, debt, limit, chance, u) <= score + 2
  {
    var raw := score as real + UtilizationDelta(debt, limit) + Jitter(chance, u);
    assert score as real - 12.0 <= raw < score as real + 3.0;
  }

  /** The credit limit: a base of max(5000, 6 * salary + 0.1 * positive net worth)
      scaled by max(0.1, (score - 200) / 400), floored. */
  function CreditLimit(salary: int, score: int, netWorth: real): (r: int)
    ensures r >= 500
  {
    var scoreMultiplier := Max(0.1, (score - 200) as real / 400.0);
    var base := Max(5000.0, salary as real * 6.0 + Max(0.0, netWorth) * 0.1);
    ScaleAtLeast(base, 5000.0, scoreMultiplier, 0.1);
    (base * scoreMultiplier).Floor
  }

  /** A higher salary, score or net worth never lowers the credit limit. */
  lemma CreditLimitMonotone(sal1: int, sc1: int, nw1: real, sal2: int, sc2: int, nw2: real)
    requires sal1 <= sal2 && sc1 <= sc2 && nw1 <= nw2
    ensures CreditLimit(sal1, sc1, nw1) <= CreditLimit(sal2, sc2, nw2)
  {
    var m1, m2 := Max(0.1, (sc1 - 200) as real / 400.0), Max(0.1, (sc2 - 200) as real / 400.0);
    var b1 := Max(5000.0, sal1 as real * 6.0 + Max(0.0, nw1) * 0.1);
    var b2 := Max(5000.0, sal2 as real * 6.0 + Max(0.0, nw2) * 0.1);
    ScaleAtLeast(b2, b1, m2, m1);
  }
}
