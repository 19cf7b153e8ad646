/** The records of the life simulation: jobs, courses, instruments, the study in
    progress, the message log and the player's state snapshot. Display texts
    (titles in two languages, names, dates, message ids) are not part of the model. */
module Types {

  datatype Option<T> = None | Some(value: T)

  /** Education levels, in the order the job rules compare them. */
  datatype EducationLevel = NONE | HIGH_SCHOOL | BACHELOR | MASTER | MBA {
    /** Position of the level in [NONE, HIGH_SCHOOL, BACHELOR, MASTER, MBA]. */
    function Index(): (i: nat)
      ensures i <= 4
      ensures i == 0 <==> this == NONE
    {
      match this
      case NONE => 0
      case HIGH_SCHOOL => 1
      case BACHELOR => 2
      case MASTER => 3
      case MBA => 4
    }
  }

  datatype JobCategory = Service | Business | Tech | Medical

  datatype Course = Course(id: string, cost: real, salaryMultiplier: real, durationMonths: int)

  datatype Job = Job(id: string, category: JobCategory, salary: real,
                     reqEducation: EducationLevel, reqExpYears: real)

  /** The instrument type tag: an ordinary share or a crypto coin. */
  datatype StockKind = Share | Crypto

  datatype Stock = Stock(symbol: string, kind: StockKind, price: real, owned: real,
                         averageCost: real, history: seq<real>, volatility: real,
                         trend: real, dividendYield: real)

  datatype Intensity = Relaxed | Normal | Hard

  /** What is being studied: an education level ('edu') or a course id ('course'). */
  datatype StudyId = Degree(level: EducationLevel) | Training(courseId: string)

  datatype ActiveCourse = ActiveCourse(id: StudyId, monthsLeft: int)

  datatype HistoryPoint = HistoryPoint(month: nat, netWorth: real)

  datatype MarketImpact = Bull | Bear | Neutral

  /** A narrative event, as returned by the external event generator. */
  datatype GameEvent = GameEvent(description: string, cashImpact: real, marketImpact: MarketImpact)

  datatype LogKind = Info | Success | Danger | Warning

  /** What a log entry reports; the entry's wording is presentation. */
  datatype Note =
    | MissedInterest
    | Overdraft(shortfall: real)
    | DividendsReceived(total: real)
    | CourseCompleted(courseId: string)
    | DegreeObtained(level: EducationLevel)
    | Burnout
    | EventNews(description: string, cashImpact: real)
    | BullMarket
    | BearMarket
    | ExperienceUp(category: JobCategory, years: int)
    | Bought(symbol: string, amount: real)
    | InsufficientFunds
    | Sold(symbol: string, amount: real, profit: real)
    | EducationRequired(level: EducationLevel)
    | ExperienceRequired(requiredYears: real)
    | Hired(jobId: string)
    | CasinoNoFunds
    | CasinoWin(amount: real, game: string)
    | CheatCash(amount: real)
    | CheatEducation(level: EducationLevel)
    | CheatJob(jobId: string)

  datatype LogEntry = LogEntry(kind: LogKind, note: Note)

  /** The player's state record, replaced as a whole by every state update. */
  datatype PlayerState = PlayerState(
    gameMonth: nat,
    cash: real,
    debt: real,
    creditScore: int,
    creditLimit: int,
    loanRate: real,
    deposit: real,
    depositRate: real,
    netWorth: real,
    education: EducationLevel,
    courses: seq<string>,
    activeCourse: Option<ActiveCourse>,
    experience: map<JobCategory, real>,
    currentJob: Option<Job>,
    workIntensity: Intensity,
    stocks: seq<Stock>,
    history: seq<HistoryPoint>,
    isGameOver: bool,
    messages: seq<LogEntry>)

  /** Years of experience in a category; a missing entry reads as 0. */
  function ExperienceIn(experience: map<JobCategory, real>, cat: JobCategory): real
  {
    if cat in experience then experience[cat] else 0.0
  }

  /** A uniform draw of the random source: a number in [0, 1). */
  predicate IsUnit(u: real)
  {
    0.0 <= u < 1.0
  }
}
