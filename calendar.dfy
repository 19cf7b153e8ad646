/** The year and month labels shown for a game month (month 0 is year 1, month 1). */
module Calendar {
  import opened Constants

  /** The year label: twelve game months per year, counted from 1. */
  function YearNum(month: nat): (y: nat)
    ensures 1 <= y
    ensures (y - 1) * 12 <= month < y * 12
  {
    month / 12 + 1
  }

  /** The month label within the year, counted from 1. */
  function MonthNum(month: nat): (m: nat)
    ensures 1 <= m <= 12
  {
    month % 12 + 1
  }

  /** The two labels together name the game month exactly. */
  lemma LabelsDecompose(month: nat)
    ensures (YearNum(month) - 1) * 12 + (MonthNum(month) - 1) == month
  {
  }

  /** Different game months never carry the same pair of labels. */
  lemma LabelsDistinct(m1: nat, m2: nat)
    requires YearNum(m1) == YearNum(m2) && MonthNum(m1) == MonthNum(m2)
    ensures m1 == m2
  {
    LabelsDecompose(m1);
    LabelsDecompose(m2);
  }

  /** The last month played is month 12 of year 10; the month after it, shown at
      the end of the game, is labelled month 1 of year 11. */
  lemma HorizonLabels()
    ensures YearNum(MAX_MONTHS - 1) == 10 && MonthNum(MAX_MONTHS - 1) == 12
    ensures YearNum(MAX_MONTHS) == 11 && MonthNum(MAX_MONTHS) == 1
  {
    HorizonIsTenYears();
  }
}
