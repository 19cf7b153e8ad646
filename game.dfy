/** The game hook: one mutable player record, the monthly tick written out step by
    step, and the player's actions. Every method is proved to leave the record the
    engine's function of the old record says, and to keep the invariant. */
module Game {
  import opened Types
  import opened Numbers
  import opened Constants
  import opened Ledger
  import opened Career
  import opened Bank
  import opened Market
  import opened Engine

  /** The hook's two state cells: the player record and the flag raised while a
      month is being simulated. */
  class Game {
    var state: PlayerState
    var isLoading: bool

    predicate Valid()
      reads this
    {
      Invariant(state)
    }

    /** A new game: the opening record, nothing being simulated. */
    constructor ()
      ensures state == InitialState() && !isLoading
      ensures Valid()
    {
      state := InitialState();
      isLoading := false;
      InitialStateValid();
    }

    /** One month. Ignored when the game is over or a month is already being
        simulated; otherwise the record becomes the engine's tick of the old one,
        with the draws standing for the random numbers and evt for the answer of
        the event generator. */
    method NextMonth(d: TickDraws, evt: Option<GameEvent>)
      requires Valid() && DrawsFit(d, state) && UnitDraws(d)
      modifies this
      ensures old(state.isGameOver || isLoading) ==> state == old(state) && isLoading == old(isLoading)
      ensures !old(state.isGameOver || isLoading) ==> state == Tick(old(state), d, evt) && !isLoading
      ensures Valid()
    {
      if state.isGameOver || isLoading {
        return;
      }
      isLoading := true;
      var next := SimulateMonth(state, d, evt);
      TickPreservesInvariant(state, d, evt);
      state := next;
      isLoading := false;
    }

    /** Writes a log entry, newest first, keeping at most fifty. */
    method AddLog(e: LogEntry)
      modifies this`state
      ensures state == old(state).(messages := PushLog(old(state).messages, e))
    {
      state := state.(messages := PushLog(state.messages, e));
    }

    /** Buys `amount` units of the instrument with the symbol at its price. */
    method BuyStock(symbol: string, amount: real)
      requires Valid()
      modifies this`state
      ensures state == Engine.BuyStock(old(state), symbol, amount)
      ensures Valid()
    {
      BuyKeepsInvariant(state, symbol, amount);
      if amount <= 0.0 {
        return;
      }
      var found := FindStock(state.stocks, symbol);
      if found.None? {
        return;
      }
      var cost := state.stocks[found.value].price * amount;
      if state.cash >= cost {
        PurchaseRecord(state, symbol, amount, found.value, cost);
        state := state.(cash := state.cash - cost, stocks := BuyInto(state.stocks, symbol, amount, cost));
        AddLog(LogEntry(Success, Bought(symbol, amount)));
      } else {
        AddLog(LogEntry(Danger, InsufficientFunds));
      }
    }

    /** Sells `amount` units of the instrument with the symbol at its price. */
    method SellStock(symbol: string, amount: real)
      requires Valid()
      modifies this`state
      ensures state == Engine.SellStock(old(state), symbol, amount)
      ensures Valid()
    {
      ActionPreservesInvariant(state, Sell(symbol, amount));
      if amount <= 0.0 {
        return;
      }
      var found := FindStock(state.stocks, symbol);
      if found.None? {
        return;
      }
      var stock := state.stocks[found.value];
      if stock.owned >= amount - 0.0001 {
        var gain := stock.price * amount;
        var profit := (stock.price - stock.averageCost) * amount;
        SaleRecord(state, symbol, amount, found.value, gain, profit);
        state := state.(cash := state.cash + gain, stocks := SellFrom(state.stocks, symbol, amount));
        AddLog(SaleEntry(symbol, amount, profit));
      } else {
        SellStockRefused(state, symbol, amount);
      }
    }

    /** Applies for a job: education first, then experience in its category. */
    method ApplyForJob(job: Job)
      requires Valid()
      modifies this`state
      ensures state == Engine.ApplyForJob(old(state), job)
      ensures Valid()
    {
      ActionPreservesInvariant(state, Apply(job));
      if state.education.Index() < job.reqEducation.Index() {
        AddLog(LogEntry(Danger, EducationRequired(job.reqEducation)));
        return;
      }
      if ExperienceIn(state.experience, job.category) < job.reqExpYears {
        AddLog(LogEntry(Danger, ExperienceRequired(job.reqExpYears)));
        return;
      }
      state := state.(currentJob := Some(job), workIntensity := Normal);
      AddLog(LogEntry(Success, Hired(job.id)));
    }

    method QuitJob()
      requires Valid()
      modifies this`state
      ensures state == Engine.QuitJob(old(state))
      ensures Valid()
    {
      ActionPreservesInvariant(state, Quit);
      if state.currentJob.Some? {
        state := state.(currentJob := None, workIntensity := Normal);
      }
    }

    method SetWorkIntensity(intensity: Intensity)
      requires Valid()
      modifies this`state
      ensures state == Engine.SetWorkIntensity(old(state), intensity)
      ensures Valid()
    {
      ActionPreservesInvariant(state, SetIntensity(intensity));
      state := state.(workIntensity := intensity);
    }

    /** Enrols in a degree programme, paying its cost up front. */
    method StartEducation(level: EducationLevel)
      requires Valid()
      modifies this`state
      ensures state == Engine.StartEducation(old(state), level)
      ensures Valid()
    {
      ActionPreservesInvariant(state, StartDegree(level));
      if state.activeCourse.Some? {
        return;
      }
      var cost := EducationCost(level);
      var months := EducationDuration(level);
      if cost.Some? && months.Some? && state.cash >= cost.value {
        state := state.(cash := state.cash - cost.value,
                        activeCourse := Some(ActiveCourse(Degree(level), months.value)));
      }
    }

    /** Enrols in a course, paying its cost up front. */
    method BuyCourse(course: Course)
      requires Valid()
      modifies this`state
      ensures state == Engine.BuyCourse(old(state), course)
      ensures Valid()
    {
      ActionPreservesInvariant(state, StartCourse(course));
      if state.activeCourse.Some? {
        return;
      }
      if state.cash >= course.cost {
        state := state.(cash := state.cash - course.cost,
                        activeCourse := Some(ActiveCourse(Training(course.id), course.durationMonths)));
      }
    }

    method RepayDebt(amount: real)
      requires Valid()
      modifies this`state
      ensures state == Engine.RepayDebt(old(state), amount)
      ensures Valid()
    {
      ActionPreservesInvariant(state, Repay(amount));
      if state.cash >= amount && state.debt > 0.0 {
        state := state.(cash := state.cash - amount, debt := Max(0.0, state.debt - amount));
      }
    }

    method TakeLoan(amount: real)
      requires Valid() && amount >= 0.0
      modifies this`state
      ensures state == Engine.TakeLoan(old(state), amount)
      ensures Valid()
    {
      ActionPreservesInvariant(state, Borrow(amount));
      var maxLoan := state.creditLimit as real - state.debt;
      if amount > maxLoan {
        return;
      }
      state := state.(cash := state.cash + amount, debt := state.debt + amount);
    }

    method DepositCash(amount: real)
      requires Valid()
      modifies this`state
      ensures state == Engine.DepositCash(old(state), amount)
      ensures Valid()
    {
      ActionPreservesInvariant(state, Deposit(amount));
      if amount <= 0.0 {
        return;
      }
      if state.cash >= amount {
        state := state.(cash := state.cash - amount, deposit := state.deposit + amount);
      }
    }

    method WithdrawDeposit(amount: real)
      requires Valid()
      modifies this`state
      ensures state == Engine.WithdrawDeposit(old(state), amount)
      ensures Valid()
    {
      ActionPreservesInvariant(state, Withdraw(amount));
      if amount <= 0.0 {
        return;
      }
      if state.deposit >= amount {
        state := state.(cash := state.cash - amount, deposit := state.deposit - amount);
      }
    }

    /** Places a casino stake; the answer tells whether the game may go on. */
    method GambleBet(amount: real) returns (accepted: bool)
      requires Valid()
      modifies this`state
      ensures (state, accepted) == Engine.GambleBet(old(state), amount)
      ensures accepted <==> old(state).cash >= amount
      ensures Valid()
    {
      ActionPreservesInvariant(state, Bet(amount));
      if state.cash >= amount {
        state := state.(cash := state.cash - amount);
        return true;
      }
      AddLog(LogEntry(Danger, CasinoNoFunds));
      return false;
    }

    method GambleWin(amount: real, game: string)
      requires Valid()
      modifies this`state
      ensures state == Engine.GambleWin(old(state), amount, game)
      ensures Valid()
    {
      ActionPreservesInvariant(state, Win(amount, game));
      state := state.(cash := state.cash + amount);
      AddLog(LogEntry(Success, CasinoWin(amount, game)));
    }

    method AdminAddCash(amount: real)
      requires Valid()
      modifies this`state
      ensures state == Engine.AdminAddCash(old(state), amount)
      ensures Valid()
    {
      ActionPreservesInvariant(state, AddCash(amount));
      state := state.(cash := state.cash + amount);
      AddLog(LogEntry(Success, CheatCash(amount)));
    }

    method AdminSetScore(value: int)
      requires Valid()
      modifies this`state
      ensures state == Engine.AdminSetScore(old(state), value)
      ensures Valid()
    {
      ActionPreservesInvariant(state, SetScore(value));
      state := state.(creditScore := MinInt(MAX_SCORE, MaxInt(MIN_SCORE, value)));
    }

    method AdminSetEdu(level: EducationLevel)
      requires Valid()
      modifies this`state
      ensures state == Engine.AdminSetEdu(old(state), level)
      ensures Valid()
    {
      ActionPreservesInvariant(state, SetEducation(level));
      state := state.(education := level, activeCourse := None);
      AddLog(LogEntry(Success, CheatEducation(level)));
    }

    method AdminSetJob(jobId: string)
      requires Valid()
      modifies this`state
      ensures state == Engine.AdminSetJob(old(state), jobId)
      ensures Valid()
    {
      ActionPreservesInvariant(state, SetJob(jobId));
      var job := FindJob(jobId);
      if job.Some? {
        state := state.(currentJob := job);
        AddLog(LogEntry(Success, CheatJob(job.value.id)));
      }
    }
  }

  /** The bank's part of a month: salary and expenses, the drift of the rates,
      interest, the overdraft, the new score and limit, and the entries to log. */
  method SettleBank(s: PlayerState, d: TickDraws) returns (b: BankStep)
    ensures b == Banking(s, d)
  {
    var salary := TotalSalary(s.currentJob, s.courses, s.workIntensity);
    var expenses := Expenses(salary);
    var newDepositRate := DriftDepositRate(s.depositRate, d.rateDrift);
    var newLoanRate := LoanRate(newDepositRate, s.creditScore);
    var depositInterest := MonthlyInterest(s.deposit, s.depositRate);
    var loanInterest := MonthlyInterest(s.debt, s.loanRate);
    var newCash := s.cash + salary as real - expenses;
    var newDeposit := s.deposit + depositInterest;
    var newDebt := s.debt + loanInterest;
    var notes: seq<LogEntry> := [];
    if newCash >= loanInterest {
      newCash := newCash - loanInterest;
      newDebt := newDebt - loanInterest;
    } else {
      notes := notes + [LogEntry(Danger, MissedInterest)];
    }
    if newCash < 0.0 {
      var shortfall := -newCash;
      newDebt := newDebt + shortfall;
      newCash := 0.0;
      notes := notes + [LogEntry(Warning, Overdraft(shortfall))];
    }
    var newScore := NextScore(s.creditScore, newDebt, s.creditLimit, d.scoreChance, d.scoreJitter);
    var newLimit := CreditLimit(salary, newScore, s.netWorth);
    b := BankStep(newCash, newDebt, newDeposit, newDepositRate, newLoanRate, newScore, newLimit, notes);
  }

  /** Writes the entries to the log in order, each one newest first. */
  method LogAll(log: seq<LogEntry>, es: seq<LogEntry>) returns (r: seq<LogEntry>)
    ensures r == PushAll(log, es)
  {
    r := log;
    var i := 0;
    while i < |es|
      invariant 0 <= i <= |es|
      invariant r == PushAll(log, es[..i])
    {
      assert es[..i + 1][..i] == es[..i];
      r := PushLog(r, es[i]);
      i := i + 1;
    }
    assert es[..i] == es;
  }

  /** The month's event, after the prices have moved: a burnout costs 2000 and
      resets the intensity, news changes cash by its impact and reprices the shares
      in place on bull or bear news. */
  method ResolveEvent(moved: seq<Stock>, intensity: Intensity, d: TickDraws, evt: Option<GameEvent>)
    returns (after: seq<Stock>, eventImpact: real, newIntensity: Intensity, notes: seq<LogEntry>)
    requires |d.marketFactors| == |moved|
    ensures var o := RollEvent(intensity, d.eventRoll, d.burnoutRoll, evt);
      after == AfterOutcome(moved, o, d.marketFactors) && eventImpact == Impact(o) &&
      newIntensity == (if o.BurnoutHit? then Normal else intensity) && notes == OutcomeNotes(o)
  {
    var eventChance := 0.1;
    if intensity == Hard {
      eventChance := 0.2;
    }
    after, eventImpact, newIntensity, notes := moved, 0.0, intensity, [];
    if d.eventRoll < eventChance {
      if intensity == Hard && d.burnoutRoll < 0.3 {
        eventImpact := -BURNOUT_COST;
        notes := [LogEntry(Danger, Burnout)];
        newIntensity := Normal;
      } else if evt.Some? {
        var e := evt.value;
        eventImpact := e.cashImpact;
        notes := [LogEntry(if e.cashImpact >= 0.0 then Success else Danger, EventNews(e.description, e.cashImpact))];
        if e.marketImpact == Neutral {
          NeutralNewsKeepsPrices(moved, d.marketFactors);
        } else {
          var buffer := new Stock[|moved|](k requires 0 <= k < |moved| => moved[k]);
          assert buffer[..] == moved;
          RepriceInPlace(buffer, e.marketImpact, d.marketFactors);
          after := buffer[..];
          notes := notes + [if e.marketImpact == Bull then LogEntry(Success, BullMarket) else LogEntry(Danger, BearMarket)];
        }
      }
    }
  }

  /** The first part of a month, up to the moved prices: the bank, dividends,
      study and the price step, with the net worth before the month's event and the
      entries logged so far. */
  method MonthBeforeEvent(s: PlayerState, d: TickDraws) returns (m: MidMonth)
    requires DrawsFit(d, s)
    ensures m == BeforeEvent(s, d)
  {
    var b := SettleBank(s, d);
    var cash := b.cash;
    var notes := b.notes;

    var totalDividends := CollectDividends(s.stocks, s.gameMonth);
    if totalDividends > 0.0 {
      cash := cash + totalDividends;
      notes := notes + [LogEntry(Success, DividendsReceived(totalDividends))];
    }

    var study := AdvanceStudy(s.activeCourse, s.courses, s.education);
    if study.note.Some? {
      notes := notes + [study.note.value];
    }

    var newStocks := StepPrices(s.stocks, d.prices);
    var newNetWorth := NetWorth(cash, b.debt, b.deposit, newStocks);
    m := MidMonth(b, totalDividends, cash, notes, study, newStocks, newNetWorth);
  }

  /** The rest of the month: the event, experience, the log, and the new record
      built from the old one. */
  method MonthAfterEvent(s: PlayerState, d: TickDraws, evt: Option<GameEvent>, m: MidMonth) returns (r: PlayerState)
    requires |d.marketFactors| == |m.moved|
    ensures r == AfterEvent(s, d, evt, m)
  {
    var afterEvent, eventImpact, newIntensity, eventNotes := ResolveEvent(m.moved, s.workIntensity, d, evt);
    var newCash := m.cash + eventImpact;
    var notes := m.notes + eventNotes;

    var newExperience := GainExperience(s.experience, s.currentJob, s.workIntensity);
    var experienceNote := ExperienceNote(s.experience, s.currentJob, s.workIntensity);
    if experienceNote.Some? {
      notes := notes + [experienceNote.value];
    }
    assert notes == m.notes + OutcomeNotes(RollEvent(s.workIntensity, d.eventRoll, d.burnoutRoll, evt)) +
                    NoteList(experienceNote);
    var log := LogAll(s.messages, notes);

    r := MonthEnd(s, newCash, m.bank.debt, m.bank.deposit, m.bank.depositRate, m.bank.loanRate,
                  m.bank.score, m.bank.limit, afterEvent, m.study, newExperience, newIntensity,
                  m.netWorth, log);
  }

  /** A month of a running game, step by step as the hook does it. */
  method SimulateMonth(s: PlayerState, d: TickDraws, evt: Option<GameEvent>) returns (r: PlayerState)
    requires !s.isGameOver && DrawsFit(d, s)
    ensures r == Tick(s, d, evt)
  {
    var m := MonthBeforeEvent(s, d);
    r := MonthAfterEvent(s, d, evt, m);
  }
}
