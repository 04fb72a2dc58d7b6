/** The circadian clock of `engine/modules/time_keeper.py`: a logical day runs
    from 05:00 to 04:59 of the next calendar day. */
module TimeKeeper {
  import opened Calendar

  const DayRolloverHour := 5

  /** `TimeKeeper.get_date_from_datetime`. A time before 05:00 on `date.min`
      has no logical date (Python raises `OverflowError`), hence the requires. */
  function GetDateFromDatetime(dt: DateTime): (d: Date)
    requires ValidDateTime(dt) && (dt.hour >= DayRolloverHour || dt.date != MinDate)
    ensures Valid(d)
    ensures dt.hour >= DayRolloverHour ==> d == dt.date
    ensures dt.hour < DayRolloverHour ==> d == PrevDay(dt.date) && Before(d, dt.date)
  {
    if dt.hour < DayRolloverHour then PrevDay(dt.date) else dt.date
  }

  /** `TimeKeeper.get_logical_date`: the clock reading is a parameter. */
  function GetLogicalDate(now: DateTime): (d: Date)
    requires ValidDateTime(now) && (now.hour >= DayRolloverHour || now.date != MinDate)
    ensures now.hour >= DayRolloverHour ==> d == now.date
    ensures now.hour < DayRolloverHour ==> now.date != MinDate && d == PrevDay(now.date)
  {
    GetDateFromDatetime(now)
  }

  predicate HasLogicalDate(dt: DateTime) {
    ValidDateTime(dt) && (dt.hour >= DayRolloverHour || dt.date != MinDate)
  }

  /** `a <= b` on clock readings, to the minute. */
  predicate NotAfter(a: DateTime, b: DateTime) {
    Before(a.date, b.date)
    || (a.date == b.date && (a.hour < b.hour || (a.hour == b.hour && a.minute <= b.minute)))
  }

  /** Hours 0 to 4 belong to the previous logical day: the hour just before
      the rollover and the rollover itself fall on consecutive logical days. */
  lemma {:induction false} RolloverSplitsTheNight(d: Date)
    requires Valid(d) && d != MinDate
    ensures GetDateFromDatetime(DateTime(d, DayRolloverHour - 1, 59)) == PrevDay(d)
    ensures GetDateFromDatetime(DateTime(d, DayRolloverHour, 0)) == d
  {
  }

  /** The logical date never goes backwards as the clock moves forward. */
  lemma {:induction false} LogicalDateMonotone(a: DateTime, b: DateTime)
    requires HasLogicalDate(a) && HasLogicalDate(b) && NotAfter(a, b)
    ensures var da, db := GetDateFromDatetime(a), GetDateFromDatetime(b);
            da == db || Before(da, db)
  {
    var da, db := GetDateFromDatetime(a), GetDateFromDatetime(b);
    if a.date != b.date {
      assert Before(a.date, b.date);
      if b.hour < DayRolloverHour {
        NothingBetween(a.date, b.date);
        if da != a.date {
          if a.date != db { BeforeTrans(da, a.date, db); }
        }
      } else if da != a.date {
        BeforeTrans(da, a.date, db);
      }
    }
  }
}
