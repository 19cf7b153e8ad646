# Personal-finance life simulation: a verified model

The game runs over ten years of twelve months. The player earns a salary and
pays living expenses, banks cash, borrows, studies and trades. They also play
three casino games.

The engine is a React hook (`hooks/useGame.ts`) that keeps one player record and
a "month in progress" flag. `nextMonth` does the following, in order:

- pays the salary and expenses;
- drifts the rates;
- charges interest, and turns a cash shortfall into debt;
- moves the credit score and credit limit;
- pays quarterly dividends;
- counts down the study in progress;
- moves every price;
- takes a net-worth snapshot;
- rolls a random event (a burnout, or a narrative event from an external generator that can reprice the shares);
- grows experience in the job's category;
- commits the new record and a history point.

The player's actions each replace the record: trades, jobs, studies, bank
operations, casino stakes and administrator overrides. The view layer
(`App.tsx`) adds these rules:

- the year/month labels;
- the slot-machine pay table;
- the horse race;
- the blackjack hand value, dealer and settlement;
- the trade form's check;
- the final rank.

The data tables are in `constants.ts`.

The model has these modules:

- **Types**, **Constants**: the records and the data tables.
- **Ledger**: the message log. The newest entry is first and at most fifty are kept.
- **Career**: salary, expenses, the study countdown and experience.
- **Bank**: rate drift, interest, overdraft, credit score and credit limit.
- **Market**: the price step, dividends, net worth and the news repricing.
- **Engine**: the tick `Tick(s, draws, evt)` and every action, each as a function from one `PlayerState` to the next. It also holds the invariant and the lemmas about the tick and the actions.
- **Game**: the hook as a class with the two state cells `state` and `isLoading`. `NextMonth` runs the tick step by step, as the hook does, and each action method is proved to leave `state` as the matching Engine function of the old record says.
- **Calendar**, **Ranking**, **Slots**, **Blackjack**, **HorseRace**, **TradeForm**: the rules of `App.tsx`.

Randomness is a parameter. A tick takes a `TickDraws` record: one draw in
[0, 1) for every `Math.random()` call the code may make, in the roles the code
gives them; draws for calls the code does not make on a given path are ignored. The
event generator's answer is an `Option<GameEvent>`. The casino games take the
reels, the card-drawing function and the race's rows of draws.

No action is refused after the horizon: only `nextMonth` is blocked once the
game is over (useGame.ts:109), and the model does the same.

## Model

| member | source | states |
|---|---|---|
| Types.EducationLevel.Index | hooks/useGame.ts:386-389 | The position of a level in the list the job check compares: at most 4, and 0 exactly for NONE |
| Constants.FindCourse | hooks/useGame.ts:92 | The catalogue lookup returns a catalogue course with the id, and None only when no course has it |
| Constants.FindJob | hooks/useGame.ts:515 | The job-board lookup returns a board job with the id, and None only when no job has it |
| Constants.HorizonIsTenYears | constants.ts:4-5 | The game lasts 120 months |
| Constants.EducationTablesPositive | constants.ts:225-237 | Exactly NONE has no price and no duration; every other level has a positive price and duration |
| Constants.CoursesPositive | constants.ts:239-280 | Every course costs money, takes months and raises the salary multiplier |
| Constants.CourseIdsUnique | constants.ts:239-280 | Course ids are distinct |
| Constants.InitialStocksFresh | constants.ts:282-392 | Every instrument opens at a positive price with no holding, no cost basis and a one-point history |
| Constants.InitialSymbolsUnique | constants.ts:282-392 | Instrument symbols are distinct |
| Constants.ServiceJobsOpenToAll | constants.ts:394-420 | Every service job needs no education and no experience |
| Ledger.PushLog | hooks/useGame.ts:70-80 | The new entry is first, followed by the old log cut to keep at most 50 entries |
| Ledger.PushNote | hooks/useGame.ts:70-80 | Without an entry the log is left alone; an entry is pushed |
| Ledger.PushAll | hooks/useGame.ts:70-80 | A batch of entries leaves the log at 50 or fewer entries unless the batch is empty |
| Ledger.PushLogKeepsAll | hooks/useGame.ts:70-80 | Below the cap nothing is lost: the batch, newest first, is followed by the whole old log |
| Ledger.PushAllAppend | hooks/useGame.ts:70-80 | Two batches written one after the other are the same as one batch |
| Career.CourseBonus | hooks/useGame.ts:91-94 | A bonus is never negative, and positive exactly for an id the catalogue knows |
| Career.TotalSalary | hooks/useGame.ts:87-100 | The accumulating loop computes the salary function; without a job it is 0 |
| Career.SalaryIntensityOrder | hooks/useGame.ts:96-97 | Relaxed pays no more than normal, and normal no more than hard |
| Career.CoursesBonusNonNegative | hooks/useGame.ts:90-94 | The course bonus is never negative |
| Career.MultiplierAppend | hooks/useGame.ts:90-94 | Owning one more id adds exactly that id's bonus to the multiplier |
| Career.CourseRaisesMultiplier | hooks/useGame.ts:90-94 | Completing a catalogue course strictly raises the multiplier |
| Career.AddingCourseNeverLowersSalary | hooks/useGame.ts:87-100 | An extra owned id never lowers the salary |
| Career.SalaryMonotone | hooks/useGame.ts:99 | A larger multiplier never gives a smaller floored salary |
| Career.NoJobNoSalary | hooks/useGame.ts:88 | Without a job the salary is 0 for any courses and intensity |
| Career.Expenses | hooks/useGame.ts:114 | Expenses are at least 800 for a non-negative salary |
| Career.StudyFinishesOnTime | hooks/useGame.ts:173-192 | A study of d months is still running, with d - n months left, after n < d months; after exactly d months it is over and the course id was added (or the level reached) once |
| Career.StudyIdle | hooks/useGame.ts:177 | With no study running, months change neither courses nor education |
| Career.ExperienceGrowsInJobCategoryOnly | hooks/useGame.ts:287-294 | Experience rises only in the job's category, by 0.5/12, 1/12 or 1.5/12 by intensity; other categories and the jobless keep theirs |
| Bank.DriftDepositRate | hooks/useGame.ts:116-117 | The new deposit rate lies in [0.01, 0.12]; from a rate in range and a draw in [0, 1) it moves by at most 0.0025 |
| Bank.RiskPremium | hooks/useGame.ts:119 | For a score in [300, 850] the premium lies in [0.02, 0.20] |
| Bank.PremiumFallsWithScore | hooks/useGame.ts:119 | A higher score never pays a higher premium |
| Bank.LoanRate | hooks/useGame.ts:119-120 | The loan rate is the new deposit rate plus 0.02 to 0.20 for a prior score in range |
| Bank.MonthlyInterest | hooks/useGame.ts:122-123 | A month's interest on a non-negative balance at a non-negative rate is not negative |
| Bank.InterestCostsNetPosition | hooks/useGame.ts:126-135 | Paid or missed, interest costs exactly its amount of net position; paid leaves debt alone, missed leaves cash alone |
| Bank.OverdraftPreservesNetPosition | hooks/useGame.ts:136-141 | After the conversion cash is non-negative, debt minus cash is unchanged, debt stays non-negative, and non-negative cash is left alone |
| Bank.UtilizationDelta | hooks/useGame.ts:143-150 | The utilization step is one of -10, -5, -1, +1 and +0.5 |
| Bank.Jitter | hooks/useGame.ts:152 | The jitter is 0 when the chance draw is at least 0.1; below 0.1 it is a rescaling of the second draw that gives that draw back as jitter / 4 + 0.5 and lies in [-2, 2) for a draw in [0, 1) |
| Bank.NextScore | hooks/useGame.ts:143-153 | The new score is in [300, 850] |
| Bank.ScoreSteadyWithoutDebt | hooks/useGame.ts:150-153 | Without debt or jitter the +0.5 is floored away and an in-range score stays put |
| Bank.ScoreFallsWhenOverused | hooks/useGame.ts:145-147 | Utilization above 0.3 never raises the score without jitter |
| Bank.ScoreMoveBounded | hooks/useGame.ts:143-153 | One tick moves an in-range score at most 12 down and 2 up |
| Bank.CreditLimit | hooks/useGame.ts:102-106 | The limit is never below 500, the 5000 base at the lowest score multiplier 0.1 |
| Bank.CreditLimitMonotone | hooks/useGame.ts:102-106 | A higher salary, score or net worth never lowers the limit |
| Market.RoundCents | hooks/useGame.ts:225 | The rounding is within half a cent of the price |
| Market.RoundCentsMonotone | hooks/useGame.ts:225 | Rounding keeps the order of two prices |
| Market.RoundCentsExact | hooks/useGame.ts:225 | A whole number of cents is kept as it is |
| Market.JumpFactor | hooks/useGame.ts:207 | A MOON jump multiplies by [1.2, 3.2) upward or [0.1, 0.6) downward |
| Market.NextPrice | hooks/useGame.ts:194-225 | The committed price is at least 0.01, at least 1.0 for MOON |
| Market.ZetaRevertsToTarget | hooks/useGame.ts:198-202 | Without noise ZETA closes exactly 15% of its gap to 10 |
| Market.StepAll | hooks/useGame.ts:194-231 | The price step keeps the number of instruments |
| Market.StepAllShape | hooks/useGame.ts:194-231 | Each new price is at least 0.01 and is appended to the history; symbol, type, holdings, cost basis and parameters are kept |
| Market.StepPrices | hooks/useGame.ts:194-231 | The map over the instruments computes the price step |
| Market.DividendMonths | hooks/useGame.ts:157-159 | Dividends are paid exactly when gameMonth mod 12 is 2, 5, 8 or 11 |
| Market.CollectDividends | hooks/useGame.ts:157-166 | The loop computes the quarter of the yield on every held paying instrument, or 0 outside dividend months |
| Market.DividendsNonNegative | hooks/useGame.ts:160-166 | With non-negative prices dividends are never negative |
| Market.PayoutSumNonNegative | hooks/useGame.ts:160-166 | The sum of payouts over non-negative prices is non-negative |
| Market.StockValueUpdate | hooks/useGame.ts:82-85 | Replacing one instrument changes the holdings' value by the difference of the two positions |
| Market.TradeKeepsNetWorth | hooks/useGame.ts:82-85 | Swapping a position's value change for the same cash keeps net worth |
| Market.RepriceFactor | hooks/useGame.ts:265-276 | Bull news lifts shares by [1, 1.15), bear news lowers them to (0.9, 1]; coins and neutral news keep 1 |
| Market.RepriceStock | hooks/useGame.ts:265-276 | Repricing scales the price only; the history and everything else stay |
| Market.RepriceAll | hooks/useGame.ts:265-276 | Repricing keeps the number of instruments |
| Market.RepriceInPlace | hooks/useGame.ts:265-276 | The in-place loop over the array computes the repricing |
| Market.NeutralNewsKeepsPrices | hooks/useGame.ts:263-277 | Neutral news leaves every instrument as it was |
| Market.ZetaStartsAtTarget | constants.ts:337-349 | ZETA opens at 10, the price the tick pulls it toward |
| Market.FindStock | hooks/useGame.ts:333 | The lookup returns the first instrument with the symbol, and None only when no instrument has it |
| Engine.RollEvent | hooks/useGame.ts:235-258 | A burnout needs hard work; news is the generator's answer; no hit of the event roll means a quiet month |
| Engine.AfterOutcome | hooks/useGame.ts:263-277 | The outcome keeps the number of instruments |
| Engine.BeforeEvent | hooks/useGame.ts:113-233 | The first half of the month keeps the number of instruments |
| Engine.InitialStateValid | hooks/useGame.ts:10-39 | A new game satisfies the invariant (scores, rates, non-negative deposit and debt, limit at least 500, clock, history, holdings, experience, log cap) |
| Engine.InitialHoldingsValid | hooks/useGame.ts:35 | The opening market has valid holdings and unique symbols |
| Engine.TickAfterGameOver | hooks/useGame.ts:109 | A finished game does not move |
| Engine.TickAdvances | hooks/useGame.ts:283-323 | A tick adds one to the month and one history point (the new month and the stored net worth), ends the game exactly at 120 months and keeps the job |
| Engine.TickRatesInRange | hooks/useGame.ts:116-153 | After a tick the score is in [300, 850], the deposit rate in [0.01, 0.12], and the loan rate the new deposit rate plus 0.02 to 0.20 |
| Engine.TickKeepsDebtNonNegative | hooks/useGame.ts:122-141 | With a non-negative loan rate, a tick never makes non-negative debt negative |
| Engine.TickExperience | hooks/useGame.ts:287-294 | Experience grows only in the job's category, by the intensity's share of a year |
| Engine.TickStudy | hooks/useGame.ts:173-192 | A study with more than one month left runs on one month shorter; otherwise it ends and its course id is appended or its level taken |
| Engine.TickNetWorthBeforeOutcome | hooks/useGame.ts:233 | The stored net worth is taken before the event's cash and repricing, and matches the record when the month was quiet |
| Engine.TickPrices | hooks/useGame.ts:194-231 | Each history grows by exactly one price of at least 0.01, equal to the price unless news repriced it; symbol, holding and cost basis stay |
| Engine.BankingCashNonNegative | hooks/useGame.ts:126-141 | The bank leaves cash non-negative |
| Engine.TickCash | hooks/useGame.ts:285 | With non-negative prices, cash before the event's impact is non-negative; a quiet month ends with non-negative cash, a burnout with at least -2000 |
| Engine.StepAllValid | hooks/useGame.ts:194-231 | The price step keeps holdings valid and symbols unique |
| Engine.AfterOutcomeValid | hooks/useGame.ts:263-277 | Repricing keeps holdings valid and symbols unique |
| Engine.TickPreservesInvariant | hooks/useGame.ts:108-323 | With draws in [0, 1) a tick keeps the invariant, including debt at least 0 |
| Engine.AddHolding | hooks/useGame.ts:339-349 | The units are added and the total cost grows by the purchase cost; nothing else changes |
| Engine.AverageCostBetween | hooks/useGame.ts:341-343 | The new average cost lies between the old one and the price |
| Engine.BuyInto | hooks/useGame.ts:339-352 | The purchase keeps the number of instruments |
| Engine.SellFrom | hooks/useGame.ts:376 | The sale keeps the number of instruments |
| Engine.SaleEntry | hooks/useGame.ts:380-381 | The sale's entry is a success exactly when the profit is not negative |
| Engine.GambleBet | hooks/useGame.ts:481-488 | The bet is accepted exactly when cash covers it |
| Engine.AdminSetScore | hooks/useGame.ts:501-503 | The score is clamped into [300, 850], an in-range value is kept, and nothing else changes |
| Engine.BuyIntoOne | hooks/useGame.ts:339-352 | With unique symbols only the matching instrument takes the purchase |
| Engine.SellFromOne | hooks/useGame.ts:376 | With unique symbols only the matching instrument gives up units |
| Engine.BoughtValue | hooks/useGame.ts:336-347 | A position bought at the price grows in value by the cost |
| Engine.SoldValue | hooks/useGame.ts:372-376 | A sale within the holding lowers the position's value by the proceeds |
| Engine.BuyStockRefused | hooks/useGame.ts:331-364 | A non-positive amount or an unknown symbol changes nothing; short cash only adds a log entry |
| Engine.PurchaseRecord | hooks/useGame.ts:336-360 | An accepted purchase changes exactly the cash (by price times amount), the holdings and the log |
| Engine.BuyStockAccepted | hooks/useGame.ts:336-360 | An accepted purchase moves the cost from cash into the holding, adds the units, averages the cost, and keeps net worth |
| Engine.BuyStockKeepsNetWorth | hooks/useGame.ts:331-364 | An accepted purchase leaves net worth unchanged |
| Engine.BuyKeepsNetWorth | hooks/useGame.ts:336-354 | Buying at the current price trades cash for holding value one to one |
| Engine.SellStockRefused | hooks/useGame.ts:366-372 | A non-positive amount, an unknown symbol or more than the holding plus 0.0001 changes nothing |
| Engine.SaleRecord | hooks/useGame.ts:372-382 | An accepted sale changes exactly the cash (by the proceeds), the holdings and the log, which gains the profit's entry |
| Engine.SellStockAccepted | hooks/useGame.ts:366-384 | An accepted sale adds the proceeds, lowers the holding (not below 0), keeps the average cost, and keeps net worth when within the holding |
| Engine.ApplyForJobOutcome | hooks/useGame.ts:386-404 | The job is taken, at normal intensity, exactly when education and experience suffice; otherwise only a log entry is added |
| Engine.StudyStartOutcome | hooks/useGame.ts:416-437 | A degree or course starts, at its full duration and price, exactly when nothing is studied and cash covers it; otherwise nothing changes |
| Engine.TakeLoanOutcome | hooks/useGame.ts:449-457 | A loan is granted exactly up to the credit left; then debt is at most the limit, and cash and debt grow alike |
| Engine.RepayDebtOutcome | hooks/useGame.ts:439-447 | Without the cash or without debt nothing changes; otherwise only cash and debt change, cash falls by the amount and debt by the amount down to 0, so an excess over the debt is lost |
| Engine.DepositWithdrawOutcome | hooks/useGame.ts:459-479 | A non-positive or uncovered amount changes nothing; otherwise only cash and deposit change: a deposit moves the amount from cash to deposit and keeps net worth, a withdrawal takes it from both and lowers net worth by twice the amount |
| Engine.CasinoOutcome | hooks/useGame.ts:481-493 | A covered bet changes only cash, by the stake; an uncovered one only logs the refusal; a win changes only cash, by its amount, and logs the win |
| Engine.AdminOutcome | hooks/useGame.ts:505-520 | The education setter sets the level, ends any study and logs the change, nothing else; a known job id becomes the job (one of the board) and is logged, nothing else changes; an unknown one changes nothing |
| Engine.BuyIntoKeepsMarket | hooks/useGame.ts:339-352 | A purchase changes no price, symbol or history |
| Engine.SellFromKeepsMarket | hooks/useGame.ts:376 | A sale changes no price, symbol or history |
| Engine.TradesKeepMarket | hooks/useGame.ts:331-384 | Both trades keep the market and valid holdings |
| Engine.TradeKeepsClock | hooks/useGame.ts:331-384 | No purchase or sale, of any symbol and amount, moves the month, history, stored net worth, rates, limit or experience |
| Engine.CareerKeepsClock | hooks/useGame.ts:386-437 | No job or study action, with any argument, moves the clock fields |
| Engine.MoneyKeepsClock | hooks/useGame.ts:439-493 | No bank or casino action, with any amount, moves the clock fields |
| Engine.AdminKeepsClock | hooks/useGame.ts:496-520 | No administrator action, with any argument, moves the clock fields |
| Engine.ActionKeepsClock | hooks/useGame.ts:331-520 | No action moves the month, history, stored net worth, rates, limit or experience |
| Engine.ActionKeepsMarket | hooks/useGame.ts:331-520 | No action changes a price, symbol or history, and holdings stay valid |
| Engine.ActionPreservesInvariant | hooks/useGame.ts:331-520 | Every action keeps the invariant, including debt at least 0, for the non-negative loan amounts the view sends (App.tsx:519-521) |
| Engine.NegativeLoanBreaksInvariant | hooks/useGame.ts:449-457 | A negative loan amount is granted and turns a zero debt into a negative one, outside the invariant |
| Game.Game.constructor | hooks/useGame.ts:8-39 | A new game holds the opening record, with no month being simulated, and is valid |
| Game.Game.NextMonth | hooks/useGame.ts:108-329 | A month is ignored when the game is over or one is running; otherwise the record becomes the tick of the old one, the flag is lowered, and validity is kept |
| Game.Game.AddLog | hooks/useGame.ts:70-80 | Only the log changes, by pushing the entry |
| Game.Game.BuyStock | hooks/useGame.ts:331-364 | The record becomes the purchase of the old one, and validity is kept |
| Game.Game.SellStock | hooks/useGame.ts:366-384 | The record becomes the sale of the old one, and validity is kept |
| Game.Game.ApplyForJob | hooks/useGame.ts:386-404 | The record becomes the application's outcome, and validity is kept |
| Game.Game.QuitJob | hooks/useGame.ts:406-410 | The job is dropped and the intensity reset when there is a job |
| Game.Game.SetWorkIntensity | hooks/useGame.ts:412-414 | Only the intensity changes |
| Game.Game.StartEducation | hooks/useGame.ts:416-426 | The record becomes the degree start of the old one |
| Game.Game.BuyCourse | hooks/useGame.ts:428-437 | The record becomes the course start of the old one |
| Game.Game.RepayDebt | hooks/useGame.ts:439-447 | The record becomes the repayment of the old one |
| Game.Game.TakeLoan | hooks/useGame.ts:449-457 | The record becomes the loan of the old one, and validity is kept for the non-negative amounts the view sends |
| Game.Game.DepositCash | hooks/useGame.ts:459-468 | The record becomes the deposit of the old one |
| Game.Game.WithdrawDeposit | hooks/useGame.ts:470-479 | The record becomes the withdrawal of the old one |
| Game.Game.GambleBet | hooks/useGame.ts:481-488 | The record becomes the bet of the old one, and the answer is whether it was accepted |
| Game.Game.GambleWin | hooks/useGame.ts:490-493 | The win is added and logged |
| Game.Game.AdminAddCash | hooks/useGame.ts:496-499 | The amount is added and logged |
| Game.Game.AdminSetScore | hooks/useGame.ts:501-503 | The clamped score replaces the old one |
| Game.Game.AdminSetEdu | hooks/useGame.ts:505-512 | The level is set, the study is dropped, and the change is logged |
| Game.Game.AdminSetJob | hooks/useGame.ts:514-520 | A known job id replaces the job and is logged |
| Game.SettleBank | hooks/useGame.ts:113-155 | The bank's imperative steps compute the engine's banking step |
| Game.LogAll | hooks/useGame.ts:70-80 | The addLog calls in a row write the batch as one |
| Game.ResolveEvent | hooks/useGame.ts:235-281 | The event step, with its in-place repricing, gives the outcome's prices, cash impact, intensity and entries |
| Game.MonthBeforeEvent | hooks/useGame.ts:113-233 | The first half of the month computes the engine's mid-month record |
| Game.MonthAfterEvent | hooks/useGame.ts:235-323 | The second half of the month computes the engine's new record |
| Game.SimulateMonth | hooks/useGame.ts:112-323 | The whole month, step by step, is the engine's tick |
| Calendar.YearNum | App.tsx:20 | The year label is at least 1 and the month lies in that year's twelve months |
| Calendar.MonthNum | App.tsx:21 | The month label lies in 1..12 |
| Calendar.LabelsDecompose | App.tsx:20-21 | The two labels together give back the game month |
| Calendar.LabelsDistinct | App.tsx:20-21 | Different months never carry the same labels |
| Calendar.HorizonLabels | App.tsx:20-21 | The last month played is year 10 month 12; the final month shown is year 11 month 1 |
| Ranking.Rank.Tier | App.tsx:1179-1188 | Tiers are numbered 0 to 7 |
| Ranking.Reached | App.tsx:1179-1188 | At most all the bounds are reached |
| Ranking.TierCountsThresholds | App.tsx:1179-1188 | The rank's tier is the number of thresholds the net worth reaches |
| Ranking.ReachedMonotone | App.tsx:1179-1188 | More net worth reaches at least as many bounds |
| Ranking.RankMonotone | App.tsx:1179-1188 | A larger net worth never gives a lower rank |
| Ranking.BankruptIffNegative | App.tsx:1180 | Bankrupt exactly for a negative net worth |
| Slots.TripleMultiplier | App.tsx:643-648 | Every three-of-a-kind pays at least 5 |
| Slots.Cherries | App.tsx:649 | At most three cherries |
| Slots.Multiplier | App.tsx:640-652 | The multiplier is one of 0, 2, 5, 10, 20, 50, 100 |
| Slots.JackpotIffThreeSevens | App.tsx:644 | The 100 jackpot is paid exactly for three sevens |
| Slots.PayTable | App.tsx:643-652 | Triples pay their own line; otherwise 2 exactly for two cherries or more; 0 exactly for everything else |
| Slots.SpinCash | App.tsx:611-656 | An accepted spin changes cash by bet times (multiplier - 1); a refused one leaves cash alone |
| Blackjack.Points | App.tsx:873-874 | A non-ace card is worth 2 to 10 |
| Blackjack.CalculateScore | App.tsx:868-881 | The two loops compute the greedy hand value |
| Blackjack.AddAcesBounds | App.tsx:876-879 | Each ace adds between 1 and 11 |
| Blackjack.ScoreAtLeastMinTotal | App.tsx:868-881 | A hand is worth at least its all-ones value and at most 10 per ace more |
| Blackjack.MinTotalAppend | App.tsx:901-904 | A drawn card raises the all-ones value by at least 1 |
| Blackjack.NoAcesScore | App.tsx:868-881 | Without aces the value is the plain sum |
| Blackjack.OneAceIsSoftTotal | App.tsx:868-881 | With at most one ace the greedy value is the usual blackjack value |
| Blackjack.TenAceAceScores22 | App.tsx:876-879 | Ten, ace, ace scores 22 where the usual count gives 12 |
| Blackjack.Dealer | App.tsx:901-906 | The dealer ends at 17 or more; its cards are the starting hand then the shoe's cards in order; every hand before the last was below 17 |
| Blackjack.DealerPlay | App.tsx:901-906 | The drawing loop computes the dealer's final hand |
| Blackjack.SettleCases | App.tsx:911-920 | Win exactly on a dealer bust or a higher player value; push exactly on equal values without a bust; loss exactly on a lower value without a bust |
| Blackjack.Stand | App.tsx:900-921 | Standing plays out the dealer, settles the two values and pays 2x, 1x or nothing |
| Blackjack.RoundCash | App.tsx:883-921 | A refused bet leaves cash; a bust loses the bet; otherwise cash gains the bet, nothing, or loses the bet as settled |
| HorseRace.MoveBounds | App.tsx:766-767 | A move is at least the base speed and below base speed plus variance |
| HorseRace.Advance | App.tsx:764-769 | Every horse advances by at least its base speed and less than base plus variance |
| HorseRace.FirstFinisher | App.tsx:771 | The result is the lowest index at or past 100, or None when no horse is there |
| HorseRace.MoveField | App.tsx:764-769 | The loop over the field's array computes every horse's advance |
| HorseRace.FindWinner | App.tsx:771 | The search returns the first horse at or past 100, or the field's size when there is none |
| HorseRace.RaceStep | App.tsx:762-783 | The tick, in place on the array, computes the race step |
| HorseRace.StepMoves | App.tsx:762-783 | Non-winners move within their bounds; the winner had reached 100 and is put at 100; a payout of floor(bet * odds) happens exactly when the selected horse wins |
| HorseRace.Race | App.tsx:760-785 | The race pays exactly when the selected horse wins, and then floor(bet * odds) |
| HorseRace.RaceFinishes | App.tsx:746-747 | When the favourite's minimum speed must carry it to 100 within the rows, a winner is found |
| HorseRace.RaceEndsWithin56Ticks | App.tsx:746-747 | From the start line, 56 ticks always produce a winner |
| HorseRace.RaceRoundCash | App.tsx:753-783 | An accepted race costs the bet and returns floor(bet * odds) only when the selected horse wins |
| TradeForm.ValidateTrade | App.tsx:1147-1165 | An order carries the selected symbol and amount / price units; a purchase is sent exactly for a positive parsed amount covered by cash; a sale exactly for one at most the holding's value plus 0.01 |
| TradeForm.UniqueSymbolsFind | hooks/useGame.ts:333 | With unique symbols an instrument is found at its own position |
| TradeForm.PurchaseAtQuote | hooks/useGame.ts:336-360 | Buying amount / price units of a listed instrument, for an amount within cash, takes exactly that amount from cash and adds exactly those units |
| TradeForm.FormPurchaseIsCarriedOut | App.tsx:1154-1158 | A positive amount of at most the cash is sent as a purchase and carried out: exactly the typed amount leaves cash and the holding grows by amount / price units |
| TradeForm.SaleAtQuote | hooks/useGame.ts:366-384 | Selling amount / price units, for an amount within the holding's value, credits exactly that amount |
| TradeForm.FormSaleWithinHoldingIsCarriedOut | App.tsx:1160-1164 | A sale of at most the holding's value is sent and credits exactly the typed amount |
| TradeForm.FormSaleCanBeDropped | App.tsx:1160-1164 | The form's 0.01-of-money tolerance lets through a sale (1.24 of 0.12351 units at 10) that the engine's 0.0001-unit tolerance drops without a trace |

## Left out

- Randomness: every `Math.random()` value is a parameter. A tick takes `TickDraws`; the casino games take the reels, a card-drawing function and rows of race draws. The distributions are not modelled, only the range [0, 1) where a proof needs it.
- The event generator (`services/geminiService.ts`) is not part of this model. Its answer is an `Option<GameEvent>` parameter; None stands for a failed or disabled call.
- The asynchronous month: `isLoading` is modelled as a guard that a month runs atomically. The React state updates are modelled as immediate. The `catch` branch (useGame.ts:324-326) is left out, because the model's tick cannot fail.
- The mount-time welcome and AI-disabled messages (useGame.ts:52-68) are left out. They only add text to the log.
- The `age` field is left out, because no operation changes or reads it.
- Display text is left out: log entries carry a tagged `Note` instead of localised text. Message ids, dates, titles, names, `toFixed` formatting of amounts in messages and the two languages are not modelled.
- Numbers are exact reals, not IEEE doubles. The `toFixed(2)` of the price step is modelled as rounding half up to cents.
- The burnout's separate `setState` (useGame.ts:244) is modelled as the intensity reset in the new record. The code's later functional update spreads the previous record, so the reset survives.
- The view layer is left out: rendering, the animations (the slot reels' intermediate spins, the race's 50 ms interval, the dealer's 600 ms pauses), the admin PIN and the "max" button of the trade form.
- Blackjack's `hit` is modelled by its end result: `Round` takes the player's final hand and treats a value over 21 as a lost round.
- HorseRace.Race: the race runs over a finite list of draw rows, not an interval that keeps firing, so without enough rows the race can end without a winner. `RaceEndsWithin56Ticks` shows that 56 rows always suffice.
- TradeForm.ValidateTrade: requires a positive price for the selected instrument. The form divides by the price, and every price the engine produces is positive.
- Engine.Invariant: requires debt at least 0 only for the amounts the view sends. `takeLoan` (useGame.ts:449-457) does not check the sign of its amount, so a direct call with a negative amount makes the debt negative (`NegativeLoanBreaksInvariant`). `ActionPreservesInvariant` and `Game.Game.TakeLoan` therefore require a non-negative loan amount, as every loan button passes (App.tsx:519-521).
- The application shell (language switch, tabs, charts) and the components directory are left out.
