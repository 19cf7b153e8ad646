/** Salary, study progress and experience: the career rules of the monthly tick. */
module Career {
  import opened Types
  import opened Constants
  import opened Numbers

  /** Salary modifier of the work intensity. */
  function IntensityAdjustment(i: Intensity): real
  {
    match i
    case Relaxed => -0.2
    case Normal => 0.0
    case Hard => 0.2
  }

  /** Salary bonus of one owned course id; ids not in the catalogue give nothing. */
  function CourseBonus(id: string): (b: real)
    ensures b >= 0.0
    ensures b > 0.0 <==> FindCourse(id).Some?
  {
    match FindCourse(id)
    case Some(c) => CoursesPositive(); c.salaryMultiplier
    case None => 0.0
  }

  /** Sum of the bonuses of the owned course ids, in list order. */
  function CoursesBonus(ids: seq<string>): real
  {
    if ids == [] then 0.0 else CoursesBonus(ids[..|ids| - 1]) + CourseBonus(ids[|ids| - 1])
  }

  /** The salary multiplier: one, plus the course bonuses, plus the intensity modifier. */
  function Multiplier(ids: seq<string>, i: Intensity): real
  {
    1.0 + CoursesBonus(ids) + IntensityAdjustment(i)
  }

  /** The monthly salary: nothing without a job, else the floor of base times multiplier. */
  function Salary(job: Option<Job>, ids: seq<string>, i: Intensity): int
  {
    match job
    case None => 0
    case Some(j) => ScaledFloor(j.salary, Multiplier(ids, i))
  }

  /** Computes the salary by accumulating the multiplier over the owned courses. */
  method TotalSalary(job: Option<Job>, ids: seq<string>, intensity: Intensity) returns (salary: int)
    ensures salary == Salary(job, ids, intensity)
    ensures job.None? ==> salary == 0
  {
    if job.None? {
      return 0;
    }
    var multiplier := 1.0;
    var k := 0;
    while k < |ids|
      invariant 0 <= k <= |ids|
      invariant multiplier == 1.0 + CoursesBonus(ids[..k])
    {
      assert ids[..k + 1][..k] == ids[..k];
      match FindCourse(ids[k]) {
        case Some(c) => multiplier := multiplier + c.salaryMultiplier;
        case None =>
      }
      k := k + 1;
    }
    assert ids[..k] == ids;
    if intensity == Relaxed {
      multiplier := multiplier - 0.2;
    }
    if intensity == Hard {
      multiplier := multiplier + 0.2;
    }
    salary := ScaledFloor(job.value.salary, multiplier);
  }

  /** Working harder never pays less: relaxed <= normal <= hard. */
  lemma SalaryIntensityOrder(job: Job, ids: seq<string>)
    requires job.salary >= 0.0
    ensures Salary(Some(job), ids, Relaxed) <= Salary(Some(job), ids, Normal) <= Salary(Some(job), ids, Hard)
  {
    ScaledFloorMonotone(job.salary, Multiplier(ids, Relaxed), Multiplier(ids, Normal));
    ScaledFloorMonotone(job.salary, Multiplier(ids, Normal), Multiplier(ids, Hard));
  }

  /** The course bonus is never negative. */
  lemma {:induction false} CoursesBonusNonNegative(ids: seq<string>)
    ensures CoursesBonus(ids) >= 0.0
  {
    if ids != [] {
      CoursesBonusNonNegative(ids[..|ids| - 1]);
    }
  }

  /** Appending an id to the owned list adds exactly that id's bonus. */
  lemma {:induction false} MultiplierAppend(ids: seq<string>, id: string, i: Intensity)
    ensures Multiplier(ids + [id], i) == Multiplier(ids, i) + CourseBonus(id)
  {
    var ext := ids + [id];
    assert ext[..|ext| - 1] == ids;
  }

  /** Completing a catalogue course strictly raises the salary multiplier. */
  lemma CourseRaisesMultiplier(ids: seq<string>, id: string, i: Intensity)
    ensures FindCourse(id).Some? ==> Multiplier(ids + [id], i) > Multiplier(ids, i)
  {
    MultiplierAppend(ids, id, i);
  }

  /** Appending any id to the owned courses never lowers the salary. */
  lemma AddingCourseNeverLowersSalary(job: Option<Job>, ids: seq<string>, id: string, i: Intensity)
    requires job.Some? ==> job.value.salary >= 0.0
    ensures Salary(job, ids + [id], i) >= Salary(job, ids, i)
  {
    MultiplierAppend(ids, id, i);
    if job.Some? {
      SalaryMonotone(job.value, ids, ids + [id], i);
    }
  }

  /** A larger multiplier never gives a smaller salary. */
  lemma SalaryMonotone(job: Job, ids1: seq<string>, ids2: seq<string>, i: Intensity)
    requires job.salary >= 0.0 && Multiplier(ids1, i) <= Multiplier(ids2, i)
    ensures Salary(Some(job), ids1, i) <= Salary(Some(job), ids2, i)
  {
    ScaledFloorMonotone(job.salary, Multiplier(ids1, i), Multiplier(ids2, i));
  }

  /** Without a job there is no salary, whatever the courses and the intensity. */
  lemma NoJobNoSalary(ids: seq<string>, i: Intensity)
    ensures Salary(None, ids, i) == 0
  {
  }

  /** Monthly living expenses: a fixed 800 plus a fifth of the salary. */
  function Expenses(salary: int): (e: real)
    ensures salary >= 0 ==> e >= 800.0
  {
    800.0 + salary as real * 0.2
  }

  /** Result of one month of study. */
  datatype StudyStep = StudyStep(active: Option<ActiveCourse>, courses: seq<string>,
                                 education: EducationLevel, note: Option<LogEntry>)

  /** One month of study: the countdown drops by one; at zero or below a course id
      is appended (when the catalogue knows it) or the education level is set, and
      the study ends. */
  function AdvanceStudy(active: Option<ActiveCourse>, courses: seq<string>, education: EducationLevel): StudyStep
  {
    match active
    case None => StudyStep(None, courses, education, None)
    case Some(a) =>
      var left := a.monthsLeft - 1;
      if left > 0 then StudyStep(Some(a.(monthsLeft := left)), courses, education, None)
      else
        match a.id
        case Training(cid) =>
          (match FindCourse(cid)
           case Some(c) => StudyStep(None, courses + [c.id], education, Some(LogEntry(Success, CourseCompleted(c.id))))
           case None => StudyStep(None, courses, education, None))
        case Degree(level) => StudyStep(None, courses, level, Some(LogEntry(Success, DegreeObtained(level))))
  }

  /** The study state after n months. */
  function StudyAfter(n: nat, active: Option<ActiveCourse>, courses: seq<string>, education: EducationLevel): StudyStep
  {
    if n == 0 then StudyStep(active, courses, education, None)
    else
      var st := AdvanceStudy(active, courses, education);
      StudyAfter(n - 1, st.active, st.courses, st.education)
  }

  /** A study started with a duration of d >= 1 months is still running, with
      d - n months left, after n < d months, and is finished after exactly d months:
      the course id is appended (or the level reached) once. */
  lemma {:induction false} StudyFinishesOnTime(id: StudyId, d: int, n: nat, courses: seq<string>, education: EducationLevel)
    requires 1 <= d
    ensures n < d ==> StudyAfter(n, Some(ActiveCourse(id, d)), courses, education)
                      == StudyStep(Some(ActiveCourse(id, d - n)), courses, education, None)
    ensures n >= d ==>
      var done := StudyAfter(n, Some(ActiveCourse(id, d)), courses, education);
      done.active.None? &&
      (id.Training? && FindCourse(id.courseId).Some? ==> done.courses == courses + [id.courseId]) &&
      (id.Training? && FindCourse(id.courseId).None? ==> done.courses == courses) &&
      (id.Training? ==> done.education == education) &&
      (id.Degree? ==> done.courses == courses && done.education == id.level)
  {
    if n > 0 {
      if d == 1 {
        StudyIdle(n - 1, AdvanceStudy(Some(ActiveCourse(id, d)), courses, education));
      } else {
        StudyFinishesOnTime(id, d - 1, n - 1, courses, education);
      }
    }
  }

  /** With no study running, further months change nothing. */
  lemma {:induction false} StudyIdle(n: nat, st: StudyStep)
    requires st.active.None?
    ensures StudyAfter(n, st.active, st.courses, st.education) == StudyStep(None, st.courses, st.education, None)
  {
    if n > 0 {
      StudyIdle(n - 1, StudyStep(None, st.courses, st.education, None));
    }
  }

  /** Experience gained in a month of work, in years. */
  function Growth(i: Intensity): real
  {
    match i
    case Relaxed => 0.5 / 12.0
    case Normal => 1.0 / 12.0
    case Hard => 1.5 / 12.0
  }

  /** A month of work adds Growth to the job's category; nothing without a job. */
  function GainExperience(experience: map<JobCategory, real>, job: Option<Job>, i: Intensity): map<JobCategory, real>
  {
    match job
    case None => experience
    case Some(j) => experience[j.category := ExperienceIn(experience, j.category) + Growth(i)]
  }

  /** Experience rises only in the job's category, by 1/12, 0.5/12 or 1.5/12 of a
      year, and never falls. */
  lemma ExperienceGrowsInJobCategoryOnly(experience: map<JobCategory, real>, job: Option<Job>, i: Intensity, cat: JobCategory)
    ensures job.None? || cat != job.value.category ==>
      ExperienceIn(GainExperience(experience, job, i), cat) == ExperienceIn(experience, cat)
    ensures job.Some? && cat == job.value.category ==>
      ExperienceIn(GainExperience(experience, job, i), cat) - ExperienceIn(experience, cat) in {0.5 / 12.0, 1.0 / 12.0, 1.5 / 12.0}
    ensures ExperienceIn(GainExperience(experience, job, i), cat) >= ExperienceIn(experience, cat)
  {
  }

  /** The log entry of a month of work: reported when the whole number of years grows. */
  function ExperienceNote(experience: map<JobCategory, real>, job: Option<Job>, i: Intensity): Option<LogEntry>
  {
    match job
    case None => None
    case Some(j) =>
      var before := ExperienceIn(experience, j.category);
      var after := before + Growth(i);
      if after.Floor > before.Floor then Some(LogEntry(Info, ExperienceUp(j.category, after.Floor))) else None
  }

  /** Education needed and experience in the category needed for a job. */
  predicate QualifiesFor(education: EducationLevel, experience: map<JobCategory, real>, job: Job)
  {
    education.Index() >= job.reqEducation.Index() && ExperienceIn(experience, job.category) >= job.reqExpYears
  }
}
