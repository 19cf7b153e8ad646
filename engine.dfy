/** The game engine on state values: the monthly tick and the player's actions as
    functions from one PlayerState to the next, and what they keep. */
module Engine {
  import opened Types
  import opened Numbers
  import opened Constants
  import opened Ledger
  import opened Career
  import opened Bank
  import opened Market

  /** The state a new game starts in. */
  function InitialState(): PlayerState
  {
    PlayerState(
      0, 5000.0, 0.0, 650, 10000, 0.15, 0.0, 0.04, 5000.0, NONE, [], None,
      map[Service := 0.0, Business := 0.0, Tech := 0.0, Medical := 0.0],
      None, Normal, INITIAL_STOCKS, [HistoryPoint(0, 5000.0)], false, [])
  }

  // ---------------------------------------------------------------------------
  // The monthly tick

  /** Every uniform draw of one tick, in the roles the tick gives them. */
  datatype TickDraws = TickDraws(
    rateDrift: real,              // deposit-rate drift
    scoreChance: real,            // whether the score jitters
    scoreJitter: real,            // the size of the jitter
    prices: seq<PriceDraws>,      // one set per instrument
    eventRoll: real,              // whether something happens
    burnoutRoll: real,            // whether it is a burnout (hard work only)
    marketFactors: seq<real>)     // bull/bear factor per instrument

  /** One set of price draws and one market factor per instrument. */
  predicate DrawsFit(d: TickDraws, s: PlayerState)
  {
    |d.prices| == |s.stocks| && |d.marketFactors| == |s.stocks|
  }

  predicate UnitDraws(d: TickDraws)
  {
    IsUnit(d.rateDrift) && IsUnit(d.scoreChance) && IsUnit(d.scoreJitter) &&
    IsUnit(d.eventRoll) && IsUnit(d.burnoutRoll) &&
    (forall i :: 0 <= i < |d.prices| ==> UnitPriceDraws(d.prices[i])) &&
    (forall i :: 0 <= i < |d.marketFactors| ==> IsUnit(d.marketFactors[i]))
  }

  /** What happens to the player in a month. */
  datatype Outcome = Quiet | BurnoutHit | News(event: GameEvent)

  /** Something happens with probability 0.2 when working hard, else 0.1. */
  function EventChance(i: Intensity): real
  {
    if i == Hard then 0.2 else 0.1
  }

  /** The month's outcome: when the event roll hits, a hard worker burns out with
      probability 0.3; otherwise the event generator is asked and its answer (None
      when it is off or fails) decides. */
  function RollEvent(i: Intensity, eventRoll: real, burnoutRoll: real, evt: Option<GameEvent>): (o: Outcome)
    ensures o.BurnoutHit? ==> i == Hard
    ensures o.News? ==> evt == Some(o.event)
    ensures eventRoll >= EventChance(i) ==> o == Quiet
  {
    if eventRoll < EventChance(i) then
      if i == Hard && burnoutRoll < 0.3 then BurnoutHit
      else match evt
        case None => Quiet
        case Some(e) => News(e)
    else Quiet
  }

  const BURNOUT_COST: real := 2000.0

  /** The cash effect of the outcome. */
  function Impact(o: Outcome): real
  {
    match o
    case Quiet => 0.0
    case BurnoutHit => -BURNOUT_COST
    case News(e) => e.cashImpact
  }

  /** The log entries of the outcome, in the order they are written. */
  function OutcomeNotes(o: Outcome): seq<LogEntry>
  {
    match o
    case Quiet => []
    case BurnoutHit => [LogEntry(Danger, Burnout)]
    case News(e) =>
      [LogEntry(if e.cashImpact >= 0.0 then Success else Danger, EventNews(e.description, e.cashImpact))] +
      (match e.marketImpact
       case Bull => [LogEntry(Success, BullMarket)]
       case Bear => [LogEntry(Danger, BearMarket)]
       case Neutral => [])
  }

  /** The instruments after the outcome: news reprices, anything else leaves them. */
  function AfterOutcome(stocks: seq<Stock>, o: Outcome, factors: seq<real>): (r: seq<Stock>)
    requires |factors| == |stocks|
    ensures |r| == |stocks|
  {
    match o
    case News(e) => RepriceAll(stocks, e.marketImpact, factors)
    case _ => stocks
  }

  function OptionalNote(b: bool, e: LogEntry): seq<LogEntry>
  {
    if b then [e] else []
  }

  function NoteList(e: Option<LogEntry>): seq<LogEntry>
  {
    match e
    case None => []
    case Some(x) => [x]
  }

  /** The banking half of the tick, before dividends: cash after salary, expenses
      and interest, overdraft conversion, the new score and limit, the new rates. */
  datatype BankStep = BankStep(cash: real, debt: real, deposit: real, depositRate: real,
                               loanRate: real, score: int, limit: int, notes: seq<LogEntry>)

  function Banking(s: PlayerState, d: TickDraws): BankStep
  {
    var salary := Salary(s.currentJob, s.courses, s.workIntensity);
    var newDepositRate := DriftDepositRate(s.depositRate, d.rateDrift);
    var newLoanRate := LoanRate(newDepositRate, s.creditScore);
    var depositInterest := MonthlyInterest(s.deposit, s.depositRate);
    var loanInterest := MonthlyInterest(s.debt, s.loanRate);
    var paid := PayInterest(s.cash + salary as real - Expenses(salary), s.debt, loanInterest);
    var covered := CoverOverdraft(paid.cash, paid.debt);
    var newScore := NextScore(s.creditScore, covered.debt, s.creditLimit, d.scoreChance, d.scoreJitter);
    var newLimit := CreditLimit(salary, newScore, s.netWorth);
    BankStep(covered.cash, covered.debt, s.deposit + depositInterest, newDepositRate, newLoanRate,
             newScore, newLimit,
             OptionalNote(paid.missed, LogEntry(Danger, MissedInterest)) +
             NoteList(match covered.shortfall
                      case None => None
                      case Some(x) => Some(LogEntry(Warning, Overdraft(x)))))
  }

  /** The record at the end of a running month: the month counter advances, the
      new figures replace the old ones, the net worth joins the history and the game
      ends at the horizon. */
  function MonthEnd(s: PlayerState, cash: real, debt: real, deposit: real, depositRate: real,
                    loanRate: real, score: int, limit: int, stocks: seq<Stock>, study: StudyStep,
                    experience: map<JobCategory, real>, intensity: Intensity, netWorth: real,
                    messages: seq<LogEntry>): PlayerState
  {
    var next := s.gameMonth + 1;
    s.(gameMonth := next, cash := cash, debt := debt, deposit := deposit, depositRate := depositRate,
       loanRate := loanRate, creditScore := score, creditLimit := limit, stocks := stocks,
       courses := study.courses, education := study.education, activeCourse := study.active,
       experience := experience, workIntensity := intensity, netWorth := netWorth,
       history := s.history + [HistoryPoint(next, netWorth)], isGameOver := next >= MAX_MONTHS,
       messages := messages)
  }

  /** The month up to the moved prices: the bank's figures, the cash after any
      dividends, the entries logged so far, the study step, the new prices and the
      net worth before the month's event. */
  datatype MidMonth = MidMonth(bank: BankStep, dividends: real, cash: real, notes: seq<LogEntry>,
                               study: StudyStep, moved: seq<Stock>, netWorth: real)

  function BeforeEvent(s: PlayerState, d: TickDraws): (m: MidMonth)
    requires DrawsFit(d, s)
    ensures |m.moved| == |s.stocks|
  {
    var b := Banking(s, d);
    var dividends := Dividends(s.stocks, s.gameMonth);
    var cash := if dividends > 0.0 then b.cash + dividends else b.cash;
    var study := AdvanceStudy(s.activeCourse, s.courses, s.education);
    var moved := StepAll(s.stocks, d.prices);
    MidMonth(b, dividends, cash,
             b.notes + OptionalNote(dividends > 0.0, LogEntry(Success, DividendsReceived(dividends))) +
             NoteList(study.note),
             study, moved, NetWorth(cash, b.debt, b.deposit, moved))
  }

  /** The rest of the month: the event, experience, and the new record. */
  function AfterEvent(s: PlayerState, d: TickDraws, evt: Option<GameEvent>, m: MidMonth): PlayerState
    requires |d.marketFactors| == |m.moved|
  {
    var outcome := RollEvent(s.workIntensity, d.eventRoll, d.burnoutRoll, evt);
    var notes := m.notes + OutcomeNotes(outcome) +
                 NoteList(ExperienceNote(s.experience, s.currentJob, s.workIntensity));
    MonthEnd(s, m.cash + Impact(outcome), m.bank.debt, m.bank.deposit, m.bank.depositRate, m.bank.loanRate,
             m.bank.score, m.bank.limit, AfterOutcome(m.moved, outcome, d.marketFactors), m.study,
             GainExperience(s.experience, s.currentJob, s.workIntensity),
             if outcome.BurnoutHit? then Normal else s.workIntensity,
             m.netWorth, PushAll(s.messages, notes))
  }

  /** One month of the game. A finished game is left as it is. */
  function Tick(s: PlayerState, d: TickDraws, evt: Option<GameEvent>): PlayerState
    requires DrawsFit(d, s)
  {
    if s.isGameOver then s else AfterEvent(s, d, evt, BeforeEvent(s, d))
  }

  // ---------------------------------------------------------------------------
  // What every reachable state satisfies

  predicate UniqueSymbols(stocks: seq<Stock>)
  {
    forall i, j :: 0 <= i < j < |stocks| ==> stocks[i].symbol != stocks[j].symbol
  }

  predicate HoldingsValid(stocks: seq<Stock>)
  {
    forall i :: 0 <= i < |stocks| ==> stocks[i].price > 0.0 && stocks[i].owned >= 0.0
  }

  predicate HistoryValid(s: PlayerState)
  {
    |s.history| == s.gameMonth + 1 &&
    forall i :: 0 <= i < |s.history| ==> s.history[i].month == i
  }

  predicate ExperienceValid(experience: map<JobCategory, real>)
  {
    forall c: JobCategory :: c in experience && experience[c] >= 0.0
  }

  predicate Invariant(s: PlayerState)
  {
    MIN_SCORE <= s.creditScore <= MAX_SCORE &&
    MIN_DEPOSIT_RATE <= s.depositRate <= MAX_DEPOSIT_RATE &&
    s.loanRate >= 0.0 && s.deposit >= 0.0 && s.debt >= 0.0 && s.creditLimit >= 500 &&
    s.gameMonth <= MAX_MONTHS && (s.isGameOver <==> s.gameMonth >= MAX_MONTHS) &&
    HistoryValid(s) && HoldingsValid(s.stocks) && UniqueSymbols(s.stocks) &&
    ExperienceValid(s.experience) && |s.messages| <= LOG_CAP
  }

  /** A new game satisfies the invariant. */
  lemma InitialStateValid()
    ensures Invariant(InitialState())
  {
    InitialHoldingsValid();
    InitialSymbolsUnique();
    var s := InitialState();
    forall c: JobCategory
      ensures c in s.experience && s.experience[c] >= 0.0
    {
      assert c == Service || c == Business || c == Tech || c == Medical;
    }
  }

  lemma InitialHoldingsValid()
    ensures HoldingsValid(INITIAL_STOCKS)
  {
    InitialStocksFresh();
    forall i | 0 <= i < |INITIAL_STOCKS|
      ensures INITIAL_STOCKS[i].price > 0.0 && INITIAL_STOCKS[i].owned >= 0.0
    {
      assert INITIAL_STOCKS[i] in INITIAL_STOCKS;
    }
  }

  // ---------------------------------------------------------------------------
  // Properties of the tick

  /** A finished game does not move. */
  lemma TickAfterGameOver(s: PlayerState, d: TickDraws, evt: Option<GameEvent>)
    requires DrawsFit(d, s) && s.isGameOver
    ensures Tick(s, d, evt) == s
  {
  }

  /** A tick advances the month by one, records exactly one history point (the new
      month and the stored net worth), ends the game exactly at the horizon and leaves
      the job in place. */
  lemma TickAdvances(s: PlayerState, d: TickDraws, evt: Option<GameEvent>)
    requires DrawsFit(d, s) && !s.isGameOver
    ensures var r := Tick(s, d, evt);
      r.gameMonth == s.gameMonth + 1 &&
      r.history == s.history + [HistoryPoint(r.gameMonth, r.netWorth)] &&
      (r.isGameOver <==> r.gameMonth >= MAX_MONTHS) &&
      r.currentJob == s.currentJob
  {
  }

  /** The score after a tick is in [300, 850] and the deposit rate in [0.01, 0.12];
      the loan rate is the new deposit rate plus 0.02 to 0.20 when the score before
      the tick was in range. */
  lemma TickRatesInRange(s: PlayerState, d: TickDraws, evt: Option<GameEvent>)
    requires DrawsFit(d, s) && !s.isGameOver
    ensures var r := Tick(s, d, evt);
      MIN_SCORE <= r.creditScore <= MAX_SCORE &&
      MIN_DEPOSIT_RATE <= r.depositRate <= MAX_DEPOSIT_RATE &&
      (MIN_SCORE <= s.creditScore <= MAX_SCORE ==> r.depositRate + 0.02 <= r.loanRate <= r.depositRate + 0.20)
  {
  }

  /** Debt never turns negative in a tick: interest is only added or paid, and the
      overdraft adds the shortfall. */
  lemma TickKeepsDebtNonNegative(s: PlayerState, d: TickDraws, evt: Option<GameEvent>)
    requires DrawsFit(d, s) && s.debt >= 0.0 && s.loanRate >= 0.0
    ensures Tick(s, d, evt).debt >= 0.0
  {
    var salary := Salary(s.currentJob, s.courses, s.workIntensity);
    var loanInterest := MonthlyInterest(s.debt, s.loanRate);
    var paid := PayInterest(s.cash + salary as real - Expenses(salary), s.debt, loanInterest);
    OverdraftPreservesNetPosition(paid.cash, paid.debt);
  }

  /** Experience grows only in the category of the job held, by 0.5, 1 or 1.5
      twelfths of a year according to the intensity before any burnout. */
  lemma TickExperience(s: PlayerState, d: TickDraws, evt: Option<GameEvent>, cat: JobCategory)
    requires DrawsFit(d, s) && !s.isGameOver
    ensures var r := Tick(s, d, evt);
      (s.currentJob.None? || cat != s.currentJob.value.category ==>
         ExperienceIn(r.experience, cat) == ExperienceIn(s.experience, cat)) &&
      (s.currentJob.Some? && cat == s.currentJob.value.category ==>
         ExperienceIn(r.experience, cat) == ExperienceIn(s.experience, cat) + Growth(s.workIntensity))
  {
    ExperienceGrowsInJobCategoryOnly(s.experience, s.currentJob, s.workIntensity, cat);
  }

  /** The study countdown: a running study with more than one month left keeps
      running one month shorter and changes neither courses nor education; with one
      month or less left it ends and its course id is appended or its level taken. */
  lemma TickStudy(s: PlayerState, d: TickDraws, evt: Option<GameEvent>)
    requires DrawsFit(d, s) && !s.isGameOver && s.activeCourse.Some?
    ensures var r := Tick(s, d, evt);
      var a := s.activeCourse.value;
      (a.monthsLeft > 1 ==>
         r.activeCourse == Some(a.(monthsLeft := a.monthsLeft - 1)) &&
         r.courses == s.courses && r.education == s.education) &&
      (a.monthsLeft <= 1 ==>
         r.activeCourse.None? &&
         (a.id.Training? && FindCourse(a.id.courseId).Some? ==> r.courses == s.courses + [a.id.courseId]) &&
         (a.id.Training? ==> r.education == s.education) &&
         (a.id.Degree? ==> r.courses == s.courses && r.education == a.id.level))
  {
    var st := AdvanceStudy(s.activeCourse, s.courses, s.education);
    var r := Tick(s, d, evt);
    assert r.activeCourse == st.active && r.courses == st.courses && r.education == st.education;
  }

  /** The stored net worth is taken before the month's outcome: it is the net worth
      at the new cash before the outcome's cash effect and at the prices before any
      repricing. Without an outcome it agrees with the state it is stored in. */
  lemma TickNetWorthBeforeOutcome(s: PlayerState, d: TickDraws, evt: Option<GameEvent>)
    requires DrawsFit(d, s) && !s.isGameOver
    ensures var r := Tick(s, d, evt);
      var o := RollEvent(s.workIntensity, d.eventRoll, d.burnoutRoll, evt);
      r.netWorth == NetWorth(r.cash - Impact(o), r.debt, r.deposit, StepAll(s.stocks, d.prices)) &&
      (o == Quiet ==> r.netWorth == NetWorth(r.cash, r.debt, r.deposit, r.stocks)) &&
      (o == BurnoutHit ==> r.netWorth == NetWorth(r.cash, r.debt, r.deposit, r.stocks) + BURNOUT_COST)
  {
  }

  /** Each instrument's history grows by exactly one price, at least 0.01, which is
      also its price unless news repriced it; symbol, holdings and cost basis stay. */
  lemma TickPrices(s: PlayerState, d: TickDraws, evt: Option<GameEvent>, i: int)
    requires DrawsFit(d, s) && !s.isGameOver && 0 <= i < |s.stocks|
    ensures var r := Tick(s, d, evt);
      var t := r.stocks[i];
      var o := RollEvent(s.workIntensity, d.eventRoll, d.burnoutRoll, evt);
      |r.stocks| == |s.stocks| &&
      |t.history| == |s.stocks[i].history| + 1 &&
      t.history[..|s.stocks[i].history|] == s.stocks[i].history &&
      t.history[|s.stocks[i].history|] >= MIN_PRICE &&
      (!o.News? ==> t.price == t.history[|s.stocks[i].history|]) &&
      t.symbol == s.stocks[i].symbol && t.owned == s.stocks[i].owned &&
      t.averageCost == s.stocks[i].averageCost && t.volatility == s.stocks[i].volatility
  {
    StepAllShape(s.stocks, d.prices, i);
  }

  /** The banking step never leaves cash negative: a shortfall becomes debt. */
  lemma BankingCashNonNegative(s: PlayerState, d: TickDraws)
    ensures Banking(s, d).cash >= 0.0
  {
    var salary := Salary(s.currentJob, s.courses, s.workIntensity);
    var loanInterest := MonthlyInterest(s.debt, s.loanRate);
    var paid := PayInterest(s.cash + salary as real - Expenses(salary), s.debt, loanInterest);
    OverdraftPreservesNetPosition(paid.cash, paid.debt);
  }

  /** Before the outcome's cash effect, cash ends the month non-negative; so a quiet
      month leaves it non-negative, while a burnout can take it down to -2000 and
      news by its own impact. */
  lemma TickCash(s: PlayerState, d: TickDraws, evt: Option<GameEvent>)
    requires DrawsFit(d, s) && !s.isGameOver && PricesNonNegative(s.stocks)
    ensures var r := Tick(s, d, evt);
      var o := RollEvent(s.workIntensity, d.eventRoll, d.burnoutRoll, evt);
      r.cash - Impact(o) >= 0.0 &&
      (o == Quiet ==> r.cash >= 0.0) &&
      (o == BurnoutHit ==> r.cash >= -BURNOUT_COST)
  {
    BankingCashNonNegative(s, d);
    DividendsNonNegative(s.stocks, s.gameMonth);
  }

  lemma StepAllValid(stocks: seq<Stock>, draws: seq<PriceDraws>)
    requires |draws| == |stocks| && HoldingsValid(stocks) && UniqueSymbols(stocks)
    ensures HoldingsValid(StepAll(stocks, draws)) && UniqueSymbols(StepAll(stocks, draws))
  {
    var r := StepAll(stocks, draws);
    forall i | 0 <= i < |r|
      ensures r[i].price > 0.0 && r[i].owned >= 0.0 && r[i].symbol == stocks[i].symbol
    {
      StepAllShape(stocks, draws, i);
    }
  }

  lemma AfterOutcomeValid(stocks: seq<Stock>, o: Outcome, factors: seq<real>)
    requires |factors| == |stocks| && HoldingsValid(stocks) && UniqueSymbols(stocks)
    requires forall i :: 0 <= i < |factors| ==> IsUnit(factors[i])
    ensures HoldingsValid(AfterOutcome(stocks, o, factors)) && UniqueSymbols(AfterOutcome(stocks, o, factors))
  {
    var r := AfterOutcome(stocks, o, factors);
    forall i | 0 <= i < |r|
      ensures r[i].price > 0.0 && r[i].owned >= 0.0 && r[i].symbol == stocks[i].symbol
    {
      if o.News? {
        assert r[i] == RepriceStock(stocks[i], o.event.marketImpact, factors[i]);
      }
    }
  }

  /** With draws in [0, 1) a tick keeps the invariant. */
  lemma TickPreservesInvariant(s: PlayerState, d: TickDraws, evt: Option<GameEvent>)
    requires DrawsFit(d, s) && UnitDraws(d) && Invariant(s)
    ensures Invariant(Tick(s, d, evt))
  {
    if !s.isGameOver {
      var r := Tick(s, d, evt);
      var moved := StepAll(s.stocks, d.prices);
      var o := RollEvent(s.workIntensity, d.eventRoll, d.burnoutRoll, evt);
      StepAllValid(s.stocks, d.prices);
      AfterOutcomeValid(moved, o, d.marketFactors);
      assert r.stocks == AfterOutcome(moved, o, d.marketFactors);
      TickRatesInRange(s, d, evt);
      TickAdvances(s, d, evt);
      TickKeepsDebtNonNegative(s, d, evt);
      assert HistoryValid(r) by {
        forall i | 0 <= i < |r.history|
          ensures r.history[i].month == i
        {
          if i < |s.history| {
            assert r.history[i] == s.history[i];
          }
        }
      }
      assert ExperienceValid(r.experience) by {
        forall c: JobCategory
          ensures c in r.experience && r.experience[c] >= 0.0
        {
          ExperienceGrowsInJobCategoryOnly(s.experience, s.currentJob, s.workIntensity, c);
          assert ExperienceIn(r.experience, c) >= ExperienceIn(s.experience, c);
        }
      }
    }
  }

  // ---------------------------------------------------------------------------
  // The player's actions

  /** The holding after buying `amount` units for `cost` in total: the units are
      added and the average cost becomes the weighted mean of old and new units. */
  function AddHolding(s: Stock, amount: real, cost: real): (t: Stock)
    requires s.owned >= 0.0 && amount > 0.0
    ensures t.owned == s.owned + amount
    ensures t.averageCost * t.owned == s.averageCost * s.owned + cost
    ensures t.(owned := s.owned, averageCost := s.averageCost) == s
  {
    var oldTotalCost := s.owned * s.averageCost;
    var newTotalOwned := s.owned + amount;
    s.(owned := newTotalOwned, averageCost := (oldTotalCost + cost) / newTotalOwned)
  }

  /** Buying an instrument at its price: with holdings and average cost not negative
      the new average cost lies between the old one and the price. */
  lemma AverageCostBetween(s: Stock, amount: real)
    requires s.owned >= 0.0 && amount > 0.0 && s.averageCost >= 0.0 && s.price >= 0.0
    ensures var t := AddHolding(s, amount, s.price * amount);
      Min(s.averageCost, s.price) <= t.averageCost <= Max(s.averageCost, s.price)
  {
    var t := AddHolding(s, amount, s.price * amount);
    WeightedMeanBetween(s.averageCost, s.owned, s.price, amount, t.averageCost);
  }

  /** Every instrument with the symbol takes the purchase. */
  function BuyInto(stocks: seq<Stock>, symbol: string, amount: real, cost: real): (r: seq<Stock>)
    requires HoldingsValid(stocks) && amount > 0.0
    ensures |r| == |stocks|
  {
    seq(|stocks|, k requires 0 <= k < |stocks| =>
      if stocks[k].symbol == symbol then AddHolding(stocks[k], amount, cost) else stocks[k])
  }

  /** Buying `amount` units: a non-positive amount or an unknown symbol is ignored,
      too little cash is logged, otherwise the cost leaves cash and the holding grows. */
  function BuyStock(s: PlayerState, symbol: string, amount: real): PlayerState
    requires HoldingsValid(s.stocks)
  {
    if amount <= 0.0 then s
    else match FindStock(s.stocks, symbol)
      case None => s
      case Some(i) =>
        var cost := s.stocks[i].price * amount;
        if s.cash >= cost then
          s.(cash := s.cash - cost, stocks := BuyInto(s.stocks, symbol, amount, cost),
             messages := PushLog(s.messages, LogEntry(Success, Bought(symbol, amount))))
        else s.(messages := PushLog(s.messages, LogEntry(Danger, InsufficientFunds)))
  }

  /** Every instrument with the symbol gives up the units, never below zero. */
  function SellFrom(stocks: seq<Stock>, symbol: string, amount: real): (r: seq<Stock>)
    ensures |r| == |stocks|
  {
    seq(|stocks|, k requires 0 <= k < |stocks| =>
      if stocks[k].symbol == symbol then stocks[k].(owned := Max(0.0, stocks[k].owned - amount)) else stocks[k])
  }

  /** Selling `amount` units: allowed when at most 0.0001 more than the holding; the
      proceeds go to cash, the holding shrinks (not below 0), the average cost stays. */
  function SellStock(s: PlayerState, symbol: string, amount: real): PlayerState
  {
    if amount <= 0.0 then s
    else match FindStock(s.stocks, symbol)
      case None => s
      case Some(i) =>
        var stock := s.stocks[i];
        if stock.owned >= amount - 0.0001 then
          var gain := stock.price * amount;
          var profit := (stock.price - stock.averageCost) * amount;
          s.(cash := s.cash + gain, stocks := SellFrom(s.stocks, symbol, amount),
             messages := PushLog(s.messages, SaleEntry(symbol, amount, profit)))
        else s
  }

  /** The log entry of a sale: a success when it made a profit or broke even, a
      warning otherwise. */
  function SaleEntry(symbol: string, amount: real, profit: real): (e: LogEntry)
    ensures e.note == Sold(symbol, amount, profit)
    ensures e.kind == Success <==> profit >= 0.0
  {
    LogEntry(if profit >= 0.0 then Success else Warning, Sold(symbol, amount, profit))
  }

  /** Applying for a job: the education level is checked first, then the experience
      in the job's category; a hire resets the intensity to normal. */
  function ApplyForJob(s: PlayerState, job: Job): PlayerState
  {
    if s.education.Index() < job.reqEducation.Index() then
      s.(messages := PushLog(s.messages, LogEntry(Danger, EducationRequired(job.reqEducation))))
    else if ExperienceIn(s.experience, job.category) < job.reqExpYears then
      s.(messages := PushLog(s.messages, LogEntry(Danger, ExperienceRequired(job.reqExpYears))))
    else
      s.(currentJob := Some(job), workIntensity := Normal,
         messages := PushLog(s.messages, LogEntry(Success, Hired(job.id))))
  }

  function QuitJob(s: PlayerState): PlayerState
  {
    if s.currentJob.Some? then s.(currentJob := None, workIntensity := Normal) else s
  }

  function SetWorkIntensity(s: PlayerState, i: Intensity): PlayerState
  {
    s.(workIntensity := i)
  }

  /** Starting a degree: refused while studying, for a level without a price (NONE)
      and without the cash; the level is not compared with the current one. */
  function StartEducation(s: PlayerState, level: EducationLevel): PlayerState
  {
    if s.activeCourse.Some? then s
    else match (EducationCost(level), EducationDuration(level))
      case (Some(cost), Some(months)) =>
        if s.cash >= cost then
          s.(cash := s.cash - cost, activeCourse := Some(ActiveCourse(Degree(level), months)))
        else s
      case _ => s
  }

  /** Buying a course: refused while studying and without the cash. */
  function BuyCourse(s: PlayerState, course: Course): PlayerState
  {
    if s.activeCourse.Some? then s
    else if s.cash >= course.cost then
      s.(cash := s.cash - course.cost, activeCourse := Some(ActiveCourse(Training(course.id), course.durationMonths)))
    else s
  }

  /** Repaying: needs the cash and some debt; the whole amount leaves cash even when
      it exceeds the debt, which stops at zero. */
  function RepayDebt(s: PlayerState, amount: real): PlayerState
  {
    if s.cash >= amount && s.debt > 0.0 then
      s.(cash := s.cash - amount, debt := Max(0.0, s.debt - amount))
    else s
  }

  /** Borrowing: refused above the credit left (limit minus debt). */
  function TakeLoan(s: PlayerState, amount: real): PlayerState
  {
    if amount > s.creditLimit as real - s.debt then s
    else s.(cash := s.cash + amount, debt := s.debt + amount)
  }

  function DepositCash(s: PlayerState, amount: real): PlayerState
  {
    if amount <= 0.0 then s
    else if s.cash >= amount then s.(cash := s.cash - amount, deposit := s.deposit + amount)
    else s
  }

  /** Withdrawing: the amount leaves the deposit and, as the code is written, leaves
      cash as well. */
  function WithdrawDeposit(s: PlayerState, amount: real): PlayerState
  {
    if amount <= 0.0 then s
    else if s.deposit >= amount then s.(cash := s.cash - amount, deposit := s.deposit - amount)
    else s
  }

  /** Placing a casino bet: the stake leaves cash when cash covers it; the flag
      tells whether the game may go on. */
  function GambleBet(s: PlayerState, amount: real): (r: (PlayerState, bool))
    ensures r.1 <==> s.cash >= amount
  {
    if s.cash >= amount then (s.(cash := s.cash - amount), true)
    else (s.(messages := PushLog(s.messages, LogEntry(Danger, CasinoNoFunds))), false)
  }

  function GambleWin(s: PlayerState, amount: real, game: string): PlayerState
  {
    s.(cash := s.cash + amount, messages := PushLog(s.messages, LogEntry(Success, CasinoWin(amount, game))))
  }

  function AdminAddCash(s: PlayerState, amount: real): PlayerState
  {
    s.(cash := s.cash + amount, messages := PushLog(s.messages, LogEntry(Success, CheatCash(amount))))
  }

  /** The score setter clamps to [300, 850]. */
  function AdminSetScore(s: PlayerState, value: int): (r: PlayerState)
    ensures MIN_SCORE <= r.creditScore <= MAX_SCORE
    ensures MIN_SCORE <= value <= MAX_SCORE ==> r.creditScore == value
    ensures r.(creditScore := s.creditScore) == s
  {
    s.(creditScore := MinInt(MAX_SCORE, MaxInt(MIN_SCORE, value)))
  }

  /** The education setter also drops any study in progress. */
  function AdminSetEdu(s: PlayerState, level: EducationLevel): PlayerState
  {
    s.(education := level, activeCourse := None,
       messages := PushLog(s.messages, LogEntry(Success, CheatEducation(level))))
  }

  /** The job setter takes a job of the board by id; unknown ids are ignored. */
  function AdminSetJob(s: PlayerState, jobId: string): PlayerState
  {
    match FindJob(jobId)
    case None => s
    case Some(job) =>
      s.(currentJob := Some(job), messages := PushLog(s.messages, LogEntry(Success, CheatJob(job.id))))
  }

  // ---------------------------------------------------------------------------
  // Properties of the actions

  /** With unique symbols the purchase lands on the one matching instrument. */
  lemma BuyIntoOne(stocks: seq<Stock>, symbol: string, amount: real, cost: real, i: int)
    requires HoldingsValid(stocks) && UniqueSymbols(stocks) && amount > 0.0
    requires 0 <= i < |stocks| && stocks[i].symbol == symbol
    ensures BuyInto(stocks, symbol, amount, cost) == stocks[i := AddHolding(stocks[i], amount, cost)]
  {
    var r := BuyInto(stocks, symbol, amount, cost);
    forall k | 0 <= k < |stocks| && k != i
      ensures r[k] == stocks[k]
    {
      assert stocks[k].symbol != symbol by {
        if k < i {} else { assert stocks[i].symbol != stocks[k].symbol; }
      }
    }
  }

  /** With unique symbols the sale lands on the one matching instrument. */
  lemma SellFromOne(stocks: seq<Stock>, symbol: string, amount: real, i: int)
    requires UniqueSymbols(stocks) && 0 <= i < |stocks| && stocks[i].symbol == symbol
    ensures SellFrom(stocks, symbol, amount) == stocks[i := stocks[i].(owned := Max(0.0, stocks[i].owned - amount))]
  {
    var r := SellFrom(stocks, symbol, amount);
    forall k | 0 <= k < |stocks| && k != i
      ensures r[k] == stocks[k]
    {
      assert stocks[k].symbol != symbol by {
        if k < i {} else { assert stocks[i].symbol != stocks[k].symbol; }
      }
    }
  }

  /** The position's value after a purchase at the current price grows by the cost. */
  lemma BoughtValue(s: Stock, amount: real)
    requires s.owned >= 0.0 && amount > 0.0
    ensures var t := AddHolding(s, amount, s.price * amount);
      t.price * t.owned == s.price * s.owned + s.price * amount
  {
    assert s.price * (s.owned + amount) == s.price * s.owned + s.price * amount;
  }

  /** The position's value after a sale within the holding falls by the proceeds. */
  lemma SoldValue(s: Stock, amount: real)
    requires s.owned >= amount
    ensures var t := s.(owned := s.owned - amount);
      t.price * t.owned == s.price * s.owned + -(s.price * amount)
  {
    assert s.price * (s.owned - amount) == s.price * s.owned - s.price * amount;
  }

  /** A purchase is refused without trace for a non-positive amount or an unknown
      symbol, and with only a log entry when cash is short. */
  lemma BuyStockRefused(s: PlayerState, symbol: string, amount: real)
    requires HoldingsValid(s.stocks)
    ensures amount <= 0.0 || FindStock(s.stocks, symbol).None? ==> BuyStock(s, symbol, amount) == s
    ensures amount > 0.0 && FindStock(s.stocks, symbol).Some? &&
            s.cash < s.stocks[FindStock(s.stocks, symbol).value].price * amount ==>
      BuyStock(s, symbol, amount) == s.(messages := PushLog(s.messages, LogEntry(Danger, InsufficientFunds)))
  {
  }

  /** An accepted purchase changes exactly the cash (by the cost, price times
      amount), the holdings and the log. */
  lemma PurchaseRecord(s: PlayerState, symbol: string, amount: real, i: nat, cost: real)
    requires HoldingsValid(s.stocks)
    requires amount > 0.0 && FindStock(s.stocks, symbol) == Some(i)
    requires cost == s.stocks[i].price * amount && s.cash >= cost
    ensures BuyStock(s, symbol, amount) ==
      s.(cash := s.cash - cost, stocks := BuyInto(s.stocks, symbol, amount, cost),
         messages := PushLog(s.messages, LogEntry(Success, Bought(symbol, amount))))
  {
    var r := BuyStock(s, symbol, amount);
    var e := LogEntry(Success, Bought(symbol, amount));
    assert r.cash == s.cash - cost;
    assert r.messages[0] == e;
    assert r.messages[1..] == PushLog(s.messages, e)[1..];
  }

  /** An accepted purchase moves the cost from cash into the holding at the current
      price, so net worth is unchanged; the units are added and the average cost
      becomes the weighted mean of old and new units (AddHolding); only the log
      changes besides. */
  lemma BuyStockAccepted(s: PlayerState, symbol: string, amount: real, i: nat)
    requires HoldingsValid(s.stocks) && UniqueSymbols(s.stocks)
    requires amount > 0.0 && FindStock(s.stocks, symbol) == Some(i)
    requires s.cash >= s.stocks[i].price * amount
    ensures var r := BuyStock(s, symbol, amount);
      var cost := s.stocks[i].price * amount;
      r == s.(cash := s.cash - cost, stocks := s.stocks[i := AddHolding(s.stocks[i], amount, cost)],
              messages := r.messages)
  {
    var cost := s.stocks[i].price * amount;
    PurchaseRecord(s, symbol, amount, i, cost);
    BuyIntoOne(s.stocks, symbol, amount, cost, i);
  }

  /** An accepted purchase leaves net worth unchanged. */
  lemma BuyStockKeepsNetWorth(s: PlayerState, symbol: string, amount: real, i: nat)
    requires HoldingsValid(s.stocks) && UniqueSymbols(s.stocks)
    requires amount > 0.0 && FindStock(s.stocks, symbol) == Some(i)
    requires s.cash >= s.stocks[i].price * amount
    ensures var r := BuyStock(s, symbol, amount);
      NetWorth(r.cash, r.debt, r.deposit, r.stocks) == NetWorth(s.cash, s.debt, s.deposit, s.stocks)
  {
    var r := BuyStock(s, symbol, amount);
    var cost := s.stocks[i].price * amount;
    BuyStockAccepted(s, symbol, amount, i);
    var stocks' := s.stocks[i := AddHolding(s.stocks[i], amount, cost)];
    assert r.stocks == stocks' && r.cash == s.cash - cost && r.debt == s.debt && r.deposit == s.deposit;
    BuyKeepsNetWorth(s, i, amount);
  }

  lemma BuyKeepsNetWorth(s: PlayerState, i: nat, amount: real)
    requires HoldingsValid(s.stocks) && i < |s.stocks| && amount > 0.0
    ensures var cost := s.stocks[i].price * amount;
      NetWorth(s.cash - cost, s.debt, s.deposit, s.stocks[i := AddHolding(s.stocks[i], amount, cost)])
        == NetWorth(s.cash, s.debt, s.deposit, s.stocks)
  {
    var cost := s.stocks[i].price * amount;
    BoughtValue(s.stocks[i], amount);
    TradeKeepsNetWorth(s.cash, s.debt, s.deposit, s.stocks, i, AddHolding(s.stocks[i], amount, cost), cost);
  }

  /** A sale is refused without trace for a non-positive amount, an unknown symbol
      or more than the holding plus 0.0001. */
  lemma SellStockRefused(s: PlayerState, symbol: string, amount: real)
    ensures amount <= 0.0 || FindStock(s.stocks, symbol).None? ==> SellStock(s, symbol, amount) == s
    ensures amount > 0.0 && FindStock(s.stocks, symbol).Some? &&
            s.stocks[FindStock(s.stocks, symbol).value].owned < amount - 0.0001 ==>
      SellStock(s, symbol, amount) == s
  {
  }

  /** An accepted sale changes exactly the cash (by the proceeds, price times
      amount), the holdings and the log, which gains one entry carrying the
      realised profit. */
  lemma SaleRecord(s: PlayerState, symbol: string, amount: real, i: nat, proceeds: real, profit: real)
    requires amount > 0.0 && FindStock(s.stocks, symbol) == Some(i)
    requires s.stocks[i].owned >= amount - 0.0001
    requires proceeds == s.stocks[i].price * amount
    requires profit == (s.stocks[i].price - s.stocks[i].averageCost) * amount
    ensures SellStock(s, symbol, amount) ==
      s.(cash := s.cash + proceeds, stocks := SellFrom(s.stocks, symbol, amount),
         messages := PushLog(s.messages, SaleEntry(symbol, amount, profit)))
  {
    var r := SellStock(s, symbol, amount);
    var e := SaleEntry(symbol, amount, profit);
    assert r.messages[0] == e;
    assert r.messages[1..] == PushLog(s.messages, e)[1..];
  }

  /** An accepted sale adds the proceeds to cash, lowers the holding (not below 0)
      and keeps the average cost; selling no more than the holding leaves net worth
      unchanged. */
  lemma SellStockAccepted(s: PlayerState, symbol: string, amount: real, i: nat)
    requires UniqueSymbols(s.stocks)
    requires amount > 0.0 && FindStock(s.stocks, symbol) == Some(i)
    requires s.stocks[i].owned >= amount - 0.0001
    ensures var r := SellStock(s, symbol, amount);
      r.cash == s.cash + s.stocks[i].price * amount &&
      r.stocks == s.stocks[i := s.stocks[i].(owned := Max(0.0, s.stocks[i].owned - amount))] &&
      r.stocks[i].averageCost == s.stocks[i].averageCost &&
      (s.stocks[i].owned >= amount ==>
         NetWorth(r.cash, r.debt, r.deposit, r.stocks) == NetWorth(s.cash, s.debt, s.deposit, s.stocks))
  {
    SaleRecord(s, symbol, amount, i, s.stocks[i].price * amount, (s.stocks[i].price - s.stocks[i].averageCost) * amount);
    SellFromOne(s.stocks, symbol, amount, i);
    if s.stocks[i].owned >= amount {
      SoldValue(s.stocks[i], amount);
      TradeKeepsNetWorth(s.cash, s.debt, s.deposit, s.stocks, i,
                         s.stocks[i].(owned := s.stocks[i].owned - amount), -(s.stocks[i].price * amount));
    }
  }

  /** A hire happens exactly when the player qualifies; otherwise only a log entry
      is added. */
  lemma ApplyForJobOutcome(s: PlayerState, job: Job)
    ensures var r := ApplyForJob(s, job);
      (QualifiesFor(s.education, s.experience, job) ==>
         r == s.(currentJob := Some(job), workIntensity := Normal, messages := r.messages)) &&
      (!QualifiesFor(s.education, s.experience, job) ==> r == s.(messages := r.messages)) &&
      |r.messages| > 0 && r.messages[1..] == s.messages[..|r.messages| - 1]
  {
  }

  /** Starting a degree or a course is refused, changing nothing, while a study is
      running or cash falls short; otherwise the price leaves cash and the study
      starts with its full duration. */
  lemma StudyStartOutcome(s: PlayerState, level: EducationLevel, course: Course)
    ensures s.activeCourse.Some? ==> StartEducation(s, level) == s && BuyCourse(s, course) == s
    ensures level == NONE ==> StartEducation(s, level) == s
    ensures s.activeCourse.None? && level != NONE && s.cash >= EducationCost(level).value ==>
      StartEducation(s, level) == s.(cash := s.cash - EducationCost(level).value,
        activeCourse := Some(ActiveCourse(Degree(level), EducationDuration(level).value)))
    ensures s.activeCourse.None? && level != NONE && s.cash < EducationCost(level).value ==>
      StartEducation(s, level) == s
    ensures s.activeCourse.None? && s.cash >= course.cost ==>
      BuyCourse(s, course) == s.(cash := s.cash - course.cost,
        activeCourse := Some(ActiveCourse(Training(course.id), course.durationMonths)))
    ensures s.activeCourse.None? && s.cash < course.cost ==> BuyCourse(s, course) == s
  {
    EducationTablesPositive(level);
  }

  /** A loan is granted exactly up to the credit left; once granted the debt is at
      most the limit, and cash and debt grow by the same amount. */
  lemma TakeLoanOutcome(s: PlayerState, amount: real)
    ensures var r := TakeLoan(s, amount);
      (amount > s.creditLimit as real - s.debt ==> r == s) &&
      (amount <= s.creditLimit as real - s.debt ==>
         r.debt <= r.creditLimit as real && r.debt - s.debt == r.cash - s.cash == amount &&
         r == s.(cash := r.cash, debt := r.debt))
  {
  }

  /** Repaying with the cash for it lowers debt by the amount, stopping at zero: an
      amount above the debt is lost beyond it, so net position falls by the excess. */
  lemma RepayDebtOutcome(s: PlayerState, amount: real)
    ensures var r := RepayDebt(s, amount);
      (s.cash < amount || s.debt <= 0.0 ==> r == s) &&
      (s.cash >= amount && s.debt > 0.0 ==>
         r == s.(cash := r.cash, debt := r.debt) &&
         r.cash == s.cash - amount && r.debt >= 0.0 &&
         (amount <= s.debt ==> r.debt == s.debt - amount && r.cash - r.debt == s.cash - s.debt) &&
         (amount > s.debt ==> r.debt == 0.0 && (r.cash - r.debt) - (s.cash - s.debt) == s.debt - amount))
  {
  }

  /** Moving cash into the deposit keeps net worth; withdrawing, as written, takes
      the amount from both deposit and cash, so net worth falls by twice the amount. */
  lemma DepositWithdrawOutcome(s: PlayerState, amount: real)
    ensures var r := DepositCash(s, amount);
      (amount <= 0.0 || s.cash < amount ==> r == s) &&
      (amount > 0.0 && s.cash >= amount ==>
         r == s.(cash := r.cash, deposit := r.deposit) &&
         r.cash == s.cash - amount && r.deposit == s.deposit + amount &&
         NetWorth(r.cash, r.debt, r.deposit, r.stocks) == NetWorth(s.cash, s.debt, s.deposit, s.stocks))
    ensures var r := WithdrawDeposit(s, amount);
      (amount <= 0.0 || s.deposit < amount ==> r == s) &&
      (amount > 0.0 && s.deposit >= amount ==>
         r == s.(cash := r.cash, deposit := r.deposit) &&
         r.deposit == s.deposit - amount && r.deposit >= 0.0 && r.cash == s.cash - amount &&
         NetWorth(r.cash, r.debt, r.deposit, r.stocks) == NetWorth(s.cash, s.debt, s.deposit, s.stocks) - 2.0 * amount)
  {
  }

  /** A bet takes the stake when cash covers it; otherwise only a log entry is
      added. A win adds its amount and logs it, and nothing else changes. */
  lemma CasinoOutcome(s: PlayerState, amount: real, game: string)
    ensures var (r, ok) := GambleBet(s, amount);
      (ok ==> r == s.(cash := s.cash - amount)) &&
      (!ok ==> r == s.(messages := PushLog(s.messages, LogEntry(Danger, CasinoNoFunds))))
    ensures GambleWin(s, amount, game) ==
      s.(cash := s.cash + amount, messages := PushLog(s.messages, LogEntry(Success, CasinoWin(amount, game))))
  {
  }

  /** The admin setters: education replaces the level and ends any study, a job id
      of the board becomes the current job with the intensity kept; each change is
      logged and nothing else changes. */
  lemma AdminOutcome(s: PlayerState, level: EducationLevel, jobId: string)
    ensures AdminSetEdu(s, level) ==
      s.(education := level, activeCourse := None,
         messages := PushLog(s.messages, LogEntry(Success, CheatEducation(level))))
    ensures FindJob(jobId).None? ==> AdminSetJob(s, jobId) == s
    ensures FindJob(jobId).Some? ==>
      AdminSetJob(s, jobId) ==
        s.(currentJob := FindJob(jobId), messages := PushLog(s.messages, LogEntry(Success, CheatJob(jobId)))) &&
      AdminSetJob(s, jobId).currentJob.value in JOBS
  {
  }

  /** Every action the player can take, with its arguments. */
  datatype Action =
    | Buy(symbol: string, amount: real)
    | Sell(symbol: string, amount: real)
    | Apply(job: Job)
    | Quit
    | SetIntensity(intensity: Intensity)
    | StartDegree(level: EducationLevel)
    | StartCourse(course: Course)
    | Repay(amount: real)
    | Borrow(amount: real)
    | Deposit(amount: real)
    | Withdraw(amount: real)
    | Bet(amount: real)
    | Win(amount: real, game: string)
    | AddCash(amount: real)
    | SetScore(value: int)
    | SetEducation(level: EducationLevel)
    | SetJob(jobId: string)

  function Perform(s: PlayerState, a: Action): PlayerState
    requires HoldingsValid(s.stocks)
  {
    match a
    case Buy(symbol, amount) => BuyStock(s, symbol, amount)
    case Sell(symbol, amount) => SellStock(s, symbol, amount)
    case Apply(job) => ApplyForJob(s, job)
    case Quit => QuitJob(s)
    case SetIntensity(i) => SetWorkIntensity(s, i)
    case StartDegree(level) => StartEducation(s, level)
    case StartCourse(course) => BuyCourse(s, course)
    case Repay(amount) => RepayDebt(s, amount)
    case Borrow(amount) => TakeLoan(s, amount)
    case Deposit(amount) => DepositCash(s, amount)
    case Withdraw(amount) => WithdrawDeposit(s, amount)
    case Bet(amount) => GambleBet(s, amount).0
    case Win(amount, game) => GambleWin(s, amount, game)
    case AddCash(amount) => AdminAddCash(s, amount)
    case SetScore(value) => AdminSetScore(s, value)
    case SetEducation(level) => AdminSetEdu(s, level)
    case SetJob(jobId) => AdminSetJob(s, jobId)
  }

  /** Prices, symbols and price histories of a list of instruments are those of
      another of the same length. */
  predicate SameMarket(a: seq<Stock>, b: seq<Stock>)
  {
    |a| == |b| &&
    forall i :: 0 <= i < |a| ==> a[i].price == b[i].price && a[i].symbol == b[i].symbol &&
                                 a[i].history == b[i].history
  }

  lemma BuyIntoKeepsMarket(stocks: seq<Stock>, symbol: string, amount: real, cost: real)
    requires HoldingsValid(stocks) && amount > 0.0
    ensures SameMarket(BuyInto(stocks, symbol, amount, cost), stocks)
    ensures HoldingsValid(BuyInto(stocks, symbol, amount, cost))
  {
    var r := BuyInto(stocks, symbol, amount, cost);
    forall i | 0 <= i < |stocks|
      ensures r[i].price == stocks[i].price && r[i].symbol == stocks[i].symbol &&
              r[i].history == stocks[i].history && r[i].owned >= 0.0
    {
      if stocks[i].symbol == symbol {
        var t := AddHolding(stocks[i], amount, cost);
        assert r[i] == t;
        assert t.(owned := stocks[i].owned, averageCost := stocks[i].averageCost) == stocks[i];
      }
    }
  }

  lemma SellFromKeepsMarket(stocks: seq<Stock>, symbol: string, amount: real)
    requires HoldingsValid(stocks)
    ensures SameMarket(SellFrom(stocks, symbol, amount), stocks)
    ensures HoldingsValid(SellFrom(stocks, symbol, amount))
  {
  }

  lemma TradesKeepMarket(s: PlayerState, symbol: string, amount: real)
    requires HoldingsValid(s.stocks)
    ensures SameMarket(BuyStock(s, symbol, amount).stocks, s.stocks)
    ensures HoldingsValid(BuyStock(s, symbol, amount).stocks)
    ensures SameMarket(SellStock(s, symbol, amount).stocks, s.stocks)
    ensures HoldingsValid(SellStock(s, symbol, amount).stocks)
  {
    if amount > 0.0 && FindStock(s.stocks, symbol).Some? {
      var i := FindStock(s.stocks, symbol).value;
      BuyIntoKeepsMarket(s.stocks, symbol, amount, s.stocks[i].price * amount);
      SellFromKeepsMarket(s.stocks, symbol, amount);
    }
  }

  /** Only the monthly tick moves the calendar, the history, the recorded net
      worth, the rates, the credit limit and the experience. */
  predicate KeepsClock(r: PlayerState, s: PlayerState)
  {
    r.gameMonth == s.gameMonth && r.history == s.history && r.isGameOver == s.isGameOver &&
    r.netWorth == s.netWorth && r.depositRate == s.depositRate && r.loanRate == s.loanRate &&
    r.creditLimit == s.creditLimit && r.experience == s.experience
  }

  /** Trades keep the clock. */
  lemma TradeKeepsClock(s: PlayerState)
    requires HoldingsValid(s.stocks)
    ensures forall symbol, amount :: KeepsClock(BuyStock(s, symbol, amount), s)
    ensures forall symbol, amount :: KeepsClock(SellStock(s, symbol, amount), s)
  {
    forall symbol, amount
      ensures KeepsClock(SellStock(s, symbol, amount), s)
    {
      var found := FindStock(s.stocks, symbol);
      if amount > 0.0 && found.Some? && s.stocks[found.value].owned >= amount - 0.0001 {
        var stock := s.stocks[found.value];
        SaleRecord(s, symbol, amount, found.value, stock.price * amount, (stock.price - stock.averageCost) * amount);
      }
    }
  }

  /** Job and study actions keep the clock. */
  lemma CareerKeepsClock(s: PlayerState)
    ensures forall job :: KeepsClock(ApplyForJob(s, job), s)
    ensures KeepsClock(QuitJob(s), s)
    ensures forall i :: KeepsClock(SetWorkIntensity(s, i), s)
    ensures forall level :: KeepsClock(StartEducation(s, level), s)
    ensures forall course :: KeepsClock(BuyCourse(s, course), s)
  {
  }

  /** Bank and casino actions keep the clock. */
  lemma MoneyKeepsClock(s: PlayerState)
    ensures forall amount :: KeepsClock(RepayDebt(s, amount), s) && KeepsClock(TakeLoan(s, amount), s)
    ensures forall amount :: KeepsClock(DepositCash(s, amount), s) && KeepsClock(WithdrawDeposit(s, amount), s)
    ensures forall amount :: KeepsClock(GambleBet(s, amount).0, s)
    ensures forall amount, game :: KeepsClock(GambleWin(s, amount, game), s)
  {
  }

  /** Administrator actions keep the clock. */
  lemma AdminKeepsClock(s: PlayerState)
    ensures forall amount :: KeepsClock(AdminAddCash(s, amount), s)
    ensures forall value :: KeepsClock(AdminSetScore(s, value), s)
    ensures forall level :: KeepsClock(AdminSetEdu(s, level), s)
    ensures forall jobId :: KeepsClock(AdminSetJob(s, jobId), s)
  {
  }

  /** No action moves the calendar, the history, the recorded net worth, the
      rates, the credit limit or the experience: only the monthly tick does. */
  lemma ActionKeepsClock(s: PlayerState, a: Action)
    requires HoldingsValid(s.stocks)
    ensures KeepsClock(Perform(s, a), s)
  {
    TradeKeepsClock(s);
    CareerKeepsClock(s);
    MoneyKeepsClock(s);
    AdminKeepsClock(s);
  }

  /** No action changes a price, a symbol or a price history, and holdings stay
      non-negative: trades change only what is owned. */
  lemma ActionKeepsMarket(s: PlayerState, a: Action)
    requires HoldingsValid(s.stocks)
    ensures SameMarket(Perform(s, a).stocks, s.stocks) && HoldingsValid(Perform(s, a).stocks)
  {
    match a {
      case Buy(symbol, amount) => TradesKeepMarket(s, symbol, amount);
      case Sell(symbol, amount) => TradesKeepMarket(s, symbol, amount);
      case Apply(job) =>
      case Quit =>
      case SetIntensity(i) =>
      case StartDegree(level) =>
      case StartCourse(course) =>
      case Repay(amount) =>
      case Borrow(amount) =>
      case Deposit(amount) =>
      case Withdraw(amount) =>
      case Bet(amount) =>
      case Win(amount, game) =>
      case AddCash(amount) =>
      case SetScore(value) =>
      case SetEducation(level) =>
      case SetJob(jobId) =>
    }
  }

  /** The amounts the view sends: every loan button asks for a positive sum
      (1000, 5000 or 10000). */
  predicate AsOffered(a: Action)
  {
    a.Borrow? ==> a.amount >= 0.0
  }

  /** Every action with the amounts the view sends keeps the invariant. */
  lemma ActionPreservesInvariant(s: PlayerState, a: Action)
    requires Invariant(s) && AsOffered(a)
    ensures Invariant(Perform(s, a))
  {
    ActionKeepsClock(s, a);
    ActionKeepsMarket(s, a);
    var r := Perform(s, a);
    assert HistoryValid(r);
    assert UniqueSymbols(r.stocks) by {
      forall i, j | 0 <= i < j < |r.stocks|
        ensures r.stocks[i].symbol != r.stocks[j].symbol
      {
        assert s.stocks[i].symbol != s.stocks[j].symbol;
      }
    }
    match a {
      case Deposit(amount) =>
      case Withdraw(amount) =>
      case _ =>
    }
  }

  /** A purchase keeps the invariant. */
  lemma BuyKeepsInvariant(s: PlayerState, symbol: string, amount: real)
    requires Invariant(s)
    ensures Invariant(BuyStock(s, symbol, amount))
  {
    ActionPreservesInvariant(s, Buy(symbol, amount));
  }

  /** The loan action itself does not check the sign of the amount: a negative
      loan is granted and leaves a negative debt, outside the invariant. */
  lemma NegativeLoanBreaksInvariant(s: PlayerState)
    requires Invariant(s) && s.debt == 0.0
    ensures TakeLoan(s, -100.0).debt == -100.0
    ensures !Invariant(TakeLoan(s, -100.0))
  {
  }
}
