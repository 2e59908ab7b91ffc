/** The "Date Range" filter shared by the notes page and the health page.
    Timestamps are milliseconds since the epoch; `dayStart` is date-fns's
    `startOfDay(now)`, supplied by the caller. */
module DateBuckets {

  const DayMs: int := 86_400_000

  /** `dateFilter !== "all"` followed by the `switch` on the filter value:
      each named bucket is a closed interval ending at `now`
      (date-fns `isWithinInterval` includes both ends); "all" and any value
      the switch does not name keep every timestamp. */
  predicate InBucket(filter: string, t: int, now: int, dayStart: int) {
    if filter == "all" then true
    else if filter == "today" then dayStart <= t <= now
    else if filter == "week" then now - 7 * DayMs <= t <= now
    else if filter == "month" then now - 30 * DayMs <= t <= now
    else true
  }

  predicate IsNamedBucket(filter: string) {
    filter == "today" || filter == "week" || filter == "month"
  }

  /** No named bucket admits a timestamp later than `now`; every other
      filter value admits everything. */
  lemma BucketBounds(filter: string, t: int, now: int, dayStart: int)
    ensures IsNamedBucket(filter) && t > now ==> !InBucket(filter, t, now, dayStart)
    ensures !IsNamedBucket(filter) ==> InBucket(filter, t, now, dayStart)
  {
  }

  /** The buckets are nested, today within week within month within all, as long as
      the start of today lies within the last seven days. */
  lemma BucketsNested(t: int, now: int, dayStart: int)
    requires now - 7 * DayMs <= dayStart
    ensures InBucket("today", t, now, dayStart) ==> InBucket("week", t, now, dayStart)
    ensures InBucket("week", t, now, dayStart) ==> InBucket("month", t, now, dayStart)
    ensures InBucket("month", t, now, dayStart) ==> InBucket("all", t, now, dayStart)
  {
  }
}
