/** The data tables the engine reads: the horizon, education prices and
    durations, the course catalogue, the initial market and the job board. */
module Constants {
  import opened Types

  const MAX_YEARS: nat := 10
  const MAX_MONTHS: nat := MAX_YEARS * 12

  /** Tuition of an education level. The table has no entry for NONE. */
  function EducationCost(level: EducationLevel): Option<real>
  {
    match level
    case NONE => None
    case HIGH_SCHOOL => Some(500.0)
    case BACHELOR => Some(20000.0)
    case MASTER => Some(50000.0)
    case MBA => Some(80000.0)
  }

  /** Months of study for an education level. The table has no entry for NONE. */
  function EducationDuration(level: EducationLevel): Option<int>
  {
    match level
    case NONE => None
    case HIGH_SCHOOL => Some(3)
    case BACHELOR => Some(6)
    case MASTER => Some(4)
    case MBA => Some(5)
  }

  const COURSES: seq<Course> := [
    Course("c_soft", 3000.0, 0.10, 2),
    Course("c_tech_boot", 8000.0, 0.15, 4),
    Course("c_manage", 15000.0, 0.20, 5),
    Course("c_invest", 25000.0, 0.25, 6)
  ]

  const INITIAL_STOCKS: seq<Stock> := [
    Stock("TECH", Share, 150.0, 0.0, 0.0, [150.0], 0.15, 0.005, 0.015),
    Stock("AUTO", Share, 80.0, 0.0, 0.0, [80.0], 0.25, 0.002, 0.0),
    Stock("FOOD", Share, 40.0, 0.0, 0.0, [40.0], 0.08, 0.001, 0.045),
    Stock("GOLD", Share, 200.0, 0.0, 0.0, [200.0], 0.05, 0.003, 0.0),
    Stock("ZETA", Crypto, 10.0, 0.0, 0.0, [10.0], 0.15, 0.0, 0.0),
    Stock("BTC", Crypto, 1200.0, 0.0, 0.0, [1200.0], 0.50, 0.005, 0.0),
    Stock("LITE", Crypto, 150.0, 0.0, 0.0, [150.0], 0.60, 0.003, 0.0),
    Stock("MOON", Crypto, 2.0, 0.0, 0.0, [2.0], 1.0, 0.0, 0.0)
  ]

  const JOBS: seq<Job> := [
    Job("srv_fastfood", Service, 1200.0, NONE, 0.0),
    Job("srv_janitor", Service, 1600.0, NONE, 0.0),
    Job("srv_cashier", Service, 2200.0, NONE, 0.0),
    Job("srv_handyman", Service, 3000.0, NONE, 0.0),
    Job("biz_sec", Business, 3200.0, HIGH_SCHOOL, 0.0),
    Job("biz_man", Business, 5000.0, BACHELOR, 1.0),
    Job("biz_acc", Business, 8500.0, BACHELOR, 2.5),
    Job("biz_head", Business, 15000.0, MASTER, 4.0),
    Job("biz_ceo", Business, 65000.0, MBA, 6.0),
    Job("tech_jun", Tech, 5000.0, BACHELOR, 0.0),
    Job("tech_mid", Tech, 9000.0, BACHELOR, 1.0),
    Job("tech_sen", Tech, 16000.0, BACHELOR, 2.5),
    Job("tech_cto", Tech, 45000.0, MBA, 4.0),
    Job("med_ord", Medical, 2500.0, HIGH_SCHOOL, 0.0),
    Job("med_nurse", Medical, 6000.0, BACHELOR, 1.0),
    Job("med_anes", Medical, 12000.0, MASTER, 2.0),
    Job("med_asst", Medical, 20000.0, MASTER, 3.0),
    Job("med_surg", Medical, 48000.0, MASTER, 4.0)
  ]

  /** First course of the catalogue with the given id. */
  function FindCourse(id: string): (r: Option<Course>)
    ensures r.Some? ==> r.value in COURSES && r.value.id == id
    ensures r.None? ==> forall c :: c in COURSES ==> c.id != id
  {
    FindCourseIn(COURSES, id)
  }

  function FindCourseIn(cs: seq<Course>, id: string): (r: Option<Course>)
    ensures r.Some? ==> r.value in cs && r.value.id == id
    ensures r.None? ==> forall c :: c in cs ==> c.id != id
  {
    if cs == [] then None
    else if cs[0].id == id then Some(cs[0])
    else FindCourseIn(cs[1..], id)
  }

  /** The job of the board with the given id. */
  function FindJob(id: string): (r: Option<Job>)
    ensures r.Some? ==> r.value in JOBS && r.value.id == id
    ensures r.None? ==> forall j :: j in JOBS ==> j.id != id
  {
    FindJobIn(JOBS, id)
  }

  function FindJobIn(js: seq<Job>, id: string): (r: Option<Job>)
    ensures r.Some? ==> r.value in js && r.value.id == id
    ensures r.None? ==> forall j :: j in js ==> j.id != id
  {
    if js == [] then None
    else if js[0].id == id then Some(js[0])
    else FindJobIn(js[1..], id)
  }

  /** The game lasts ten years of twelve months. */
  lemma HorizonIsTenYears()
    ensures MAX_MONTHS == 120
  {
  }

  /** Every level above NONE has a positive price and a positive duration. */
  lemma EducationTablesPositive(level: EducationLevel)
    ensures level == NONE <==> EducationCost(level).None?
    ensures level == NONE <==> EducationDuration(level).None?
    ensures EducationCost(level).Some? ==> EducationCost(level).value > 0.0
    ensures EducationDuration(level).Some? ==> EducationDuration(level).value > 0
  {
  }

  /** Every course costs money, takes time and raises the salary multiplier. */
  lemma CoursesPositive()
    ensures forall c :: c in COURSES ==> c.cost > 0.0 && c.durationMonths > 0 && c.salaryMultiplier > 0.0
  {
  }

  /** Course ids identify courses. */
  lemma CourseIdsUnique()
    ensures forall i, j :: 0 <= i < j < |COURSES| ==> COURSES[i].id != COURSES[j].id
  {
  }

  /** The market opens with positive prices, empty holdings and a one-point history. */
  lemma InitialStocksFresh()
    ensures forall s :: s in INITIAL_STOCKS ==>
      s.price > 0.0 && s.owned == 0.0 && s.averageCost == 0.0 && s.history == [s.price]
  {
  }

  /** Symbols identify instruments. */
  lemma InitialSymbolsUnique()
    ensures forall i, j :: 0 <= i < j < |INITIAL_STOCKS| ==> INITIAL_STOCKS[i].symbol != INITIAL_STOCKS[j].symbol
  {
  }

  /** Every service job is open to a player with no education and no experience. */
  lemma ServiceJobsOpenToAll()
    ensures forall k :: 0 <= k < |JOBS| && JOBS[k].category == Service ==>
      JOBS[k].reqEducation == NONE && JOBS[k].reqExpYears == 0.0
  {
  }
}
