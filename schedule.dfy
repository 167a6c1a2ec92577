/**
 The job registry of the `schedule` library and `setup_schedule`, which
 clears it and registers the daily power-on and power-off jobs, one pair per
 day-name tag.
 */
module Schedule {

  datatype Day = Monday | Tuesday | Wednesday | Thursday | Friday | Saturday | Sunday

  /** The controller operation a job calls. */
  datatype Action = TurnOnTv | TurnOffTv

  /** A wall-clock time with minute granularity, as in "09:30". */
  datatype TimeOfDay = TimeOfDay(hour: nat, minute: nat)

  /** When a job recurs: `every().day` is Daily; `every().monday` and the like are Weekly. */
  datatype Recurrence = Daily | Weekly(day: Day)

  /** One registered job: its recurrence, time of day, operation, and the day name it is tagged with. */
  datatype Job = Job(recurrence: Recurrence, at: TimeOfDay, action: Action, tag: Day)

  const WeekdayTags: seq<Day> := [Monday, Tuesday, Wednesday, Thursday, Sunday]
  const WeekendTags: seq<Day> := [Friday, Saturday]

  const WeekdayOn: TimeOfDay := TimeOfDay(9, 30)
  const WeekdayOff: TimeOfDay := TimeOfDay(17, 45)
  const WeekendOn: TimeOfDay := TimeOfDay(8, 30)
  const WeekendOff: TimeOfDay := TimeOfDay(21, 45)

  /** Whether a job with this recurrence runs on day `d`. */
  predicate FiresOn(r: Recurrence, d: Day)
  {
    match r
    case Daily => true
    case Weekly(w) => w == d
  }

  /** Whether job `j` runs on day `d` at time `t`. */
  predicate FiresAt(j: Job, d: Day, t: TimeOfDay)
  {
    FiresOn(j.recurrence, d) && j.at == t
  }

  predicate Distinct<T(==)>(s: seq<T>)
  {
    forall i, j :: 0 <= i < j < |s| ==> s[i] != s[j]
  }

  /** The global job registry. */
  class Scheduler {
    var jobs: seq<Job>

    constructor ()
      ensures jobs == []
    {
      jobs := [];
    }

    /** Drops every registered job. */
    method Clear()
      modifies this
      ensures jobs == []
    {
      jobs := [];
    }

    /** Registers one job after those already there. */
    method Add(job: Job)
      modifies this
      ensures jobs == old(jobs) + [job]
    {
      jobs := jobs + [job];
    }
  }

  /** The jobs one loop of `setup_schedule` registers: for each tag in order,
      a daily power-on at `on` and then a daily power-off at `off`. */
  function Register(tags: seq<Day>, on: TimeOfDay, off: TimeOfDay): (r: seq<Job>)
    ensures |r| == 2 * |tags|
    ensures forall i :: 0 <= i < |tags| ==>
              r[2 * i] == Job(Daily, on, TurnOnTv, tags[i]) && r[2 * i + 1] == Job(Daily, off, TurnOffTv, tags[i])
  {
    if tags == [] then []
    else
      var n := |tags| - 1;
      Register(tags[..n], on, off) + [Job(Daily, on, TurnOnTv, tags[n]), Job(Daily, off, TurnOffTv, tags[n])]
  }

  /** The registry `setup_schedule` leaves behind. */
  function ScheduleTable(): seq<Job>
  {
    Register(WeekdayTags, WeekdayOn, WeekdayOff) + Register(WeekendTags, WeekendOn, WeekendOff)
  }

  /** Clears the registry, then registers the weekday-tagged jobs and the
      weekend-tagged jobs in two loops. What it leaves does not depend on what
      was there, so a second call changes nothing and never adds jobs. */
  method SetupSchedule(registry: Scheduler)
    modifies registry
    ensures registry.jobs == ScheduleTable()
  {
    registry.Clear();
    var weekdays := WeekdayTags;
    for i := 0 to |weekdays|
      invariant registry.jobs == Register(weekdays[..i], WeekdayOn, WeekdayOff)
    {
      assert weekdays[..i + 1][..i] == weekdays[..i];
      registry.Add(Job(Daily, WeekdayOn, TurnOnTv, weekdays[i]));
      registry.Add(Job(Daily, WeekdayOff, TurnOffTv, weekdays[i]));
    }
    assert weekdays[..|weekdays|] == weekdays;
    var weekends := WeekendTags;
    for i := 0 to |weekends|
      invariant registry.jobs == Register(weekdays, WeekdayOn, WeekdayOff) + Register(weekends[..i], WeekendOn, WeekendOff)
    {
      assert weekends[..i + 1][..i] == weekends[..i];
      registry.Add(Job(Daily, WeekendOn, TurnOnTv, weekends[i]));
      registry.Add(Job(Daily, WeekendOff, TurnOffTv, weekends[i]));
    }
    assert weekends[..|weekends|] == weekends;
  }

  /** A job is in one loop's output exactly when it is daily, tagged with one
      of the loop's days, and is the power-on at `on` or the power-off at `off`. */
  lemma {:induction false} RegisterHas(tags: seq<Day>, on: TimeOfDay, off: TimeOfDay, j: Job)
    ensures j in Register(tags, on, off) <==>
              && j.recurrence == Daily
              && j.tag in tags
              && ((j.action == TurnOnTv && j.at == on) || (j.action == TurnOffTv && j.at == off))
  {
    if tags != [] {
      var n := |tags| - 1;
      RegisterHas(tags[..n], on, off, j);
      assert tags == tags[..n] + [tags[n]];
    }
  }

  /** Distinct tags give distinct jobs. */
  lemma {:induction false} RegisterDistinct(tags: seq<Day>, on: TimeOfDay, off: TimeOfDay)
    requires Distinct(tags)
    ensures Distinct(Register(tags, on, off))
  {
    if tags != [] {
      var n := |tags| - 1;
      var prefix := Register(tags[..n], on, off);
      RegisterDistinct(tags[..n], on, off);
      forall k | 0 <= k < |prefix|
        ensures prefix[k].tag != tags[n]
      {
        RegisterHas(tags[..n], on, off, prefix[k]);
      }
    }
  }

  /** The power-on time of a day's profile. */
  function OnTime(d: Day): TimeOfDay
  {
    if d == Friday || d == Saturday then WeekendOn else WeekdayOn
  }

  /** The power-off time of a day's profile. */
  function OffTime(d: Day): TimeOfDay
  {
    if d == Friday || d == Saturday then WeekendOff else WeekdayOff
  }

  /** The timetable: a daily job whose time is its tag's profile time for its operation. */
  predicate Timetabled(j: Job)
  {
    && j.recurrence == Daily
    && j.at == (if j.action == TurnOnTv then OnTime(j.tag) else OffTime(j.tag))
  }

  /** The registry holds 14 jobs, no job twice, and exactly the timetabled
      ones: one power-on and one power-off per day name, all seven covered. */
  lemma ScheduleTableIsTimetable()
    ensures |ScheduleTable()| == 14
    ensures Distinct(ScheduleTable())
    ensures forall j :: j in ScheduleTable() <==> Timetabled(j)
  {
    forall j
      ensures j in ScheduleTable() <==> Timetabled(j)
    {
      RegisterHas(WeekdayTags, WeekdayOn, WeekdayOff, j);
      RegisterHas(WeekendTags, WeekendOn, WeekendOff, j);
    }
    var a := Register(WeekdayTags, WeekdayOn, WeekdayOff);
    var b := Register(WeekendTags, WeekendOn, WeekendOff);
    RegisterDistinct(WeekdayTags, WeekdayOn, WeekdayOff);
    RegisterDistinct(WeekendTags, WeekendOn, WeekendOff);
    forall i, k | 0 <= i < k < |a + b|
      ensures (a + b)[i] != (a + b)[k]
    {
      if k < |a| {
        assert (a + b)[i] == a[i] && (a + b)[k] == a[k];
      } else if |a| <= i {
        assert (a + b)[i] == b[i - |a|] && (a + b)[k] == b[k - |a|];
      } else {
        assert (a + b)[i] == a[i] && (a + b)[k] == b[k - |a|];
        RegisterHas(WeekdayTags, WeekdayOn, WeekdayOff, a[i]);
        RegisterHas(WeekendTags, WeekendOn, WeekendOff, b[k - |a|]);
      }
    }
  }

  /** Every registered job recurs daily: its day-name tag restricts nothing. */
  lemma ScheduledJobsFireEveryDay(d: Day)
    ensures forall j :: j in ScheduleTable() ==> FiresOn(j.recurrence, d)
  {
    ScheduleTableIsTimetable();
  }

  /** The jobs of `table` that are due on day `d` at time `t`, in registry order. */
  function Due(table: seq<Job>, d: Day, t: TimeOfDay): (r: seq<Job>)
    ensures forall j :: j in r <==> j in table && FiresAt(j, d, t)
    ensures Distinct(table) ==> Distinct(r)
  {
    if table == [] then []
    else
      var n := |table| - 1;
      var rest := Due(table[..n], d, t);
      assert Distinct(table) ==> Distinct(table[..n]) && table[n] !in table[..n];
      if FiresAt(table[n], d, t) then rest + [table[n]] else rest
  }

  /** A sequence without repetitions has as many elements as its set of elements. */
  lemma {:induction false} DistinctCardinality(s: seq<Job>)
    requires Distinct(s)
    ensures |set j | j in s| == |s|
  {
    if s != [] {
      var n := |s| - 1;
      DistinctCardinality(s[..n]);
      assert s[n] !in s[..n];
      assert (set j | j in s) == (set j | j in s[..n]) + {s[n]} by {
        assert s == s[..n] + [s[n]];
      }
    }
  }

  /** As written, every day at each of the four times all jobs with that time
      fire, whatever their tag: five power-ons at 09:30 and two at 08:30,
      five power-offs at 17:45 and two at 21:45. */
  lemma AsWrittenDueEveryDay(d: Day)
    ensures |Due(ScheduleTable(), d, WeekdayOn)| == 5
    ensures |Due(ScheduleTable(), d, WeekendOn)| == 2
    ensures |Due(ScheduleTable(), d, WeekdayOff)| == 5
    ensures |Due(ScheduleTable(), d, WeekendOff)| == 2
  {
    AsWrittenDueAt(d, WeekdayOn, TurnOnTv, {Monday, Tuesday, Wednesday, Thursday, Sunday});
    AsWrittenDueAt(d, WeekendOn, TurnOnTv, {Friday, Saturday});
    AsWrittenDueAt(d, WeekdayOff, TurnOffTv, {Monday, Tuesday, Wednesday, Thursday, Sunday});
    AsWrittenDueAt(d, WeekendOff, TurnOffTv, {Friday, Saturday});
  }

  /** As written, on a Friday at 17:45 a power-off is due, although the
      Friday profile keeps the TV on until 21:45. */
  lemma FridayPoweredOffEarly()
    ensures exists j :: j in Due(ScheduleTable(), Friday, WeekdayOff) && j.action == TurnOffTv
    ensures WeekdayOff != OffTime(Friday)
  {
    ScheduleTableIsTimetable();
    assert Job(Daily, WeekdayOff, TurnOffTv, Monday) in Due(ScheduleTable(), Friday, WeekdayOff);
  }

  /** The jobs due at a profile time on any day are the daily jobs of every
      tag whose profile has that time. */
  lemma AsWrittenDueAt(d: Day, t: TimeOfDay, a: Action, tags: set<Day>)
    requires t in {WeekdayOn, WeekendOn, WeekdayOff, WeekendOff}
    requires a == (if t in {WeekdayOn, WeekendOn} then TurnOnTv else TurnOffTv)
    requires forall g :: g in tags <==> (if a == TurnOnTv then OnTime(g) else OffTime(g)) == t
    ensures |Due(ScheduleTable(), d, t)| == |tags|
  {
    ScheduleTableIsTimetable();
    var due := set g | g in tags :: Job(Daily, t, a, g);
    forall j
      ensures j in due <==> j in ScheduleTable() && FiresAt(j, d, t)
    {
      if j in ScheduleTable() && FiresAt(j, d, t) {
        assert j == Job(Daily, t, a, j.tag);
      }
    }
    DueCount(ScheduleTable(), d, t, due);
    TaggedJobsCardinality(t, a, tags);
  }

  /** Jobs that differ only in their tag are as many as the tags. */
  lemma {:induction false} TaggedJobsCardinality(t: TimeOfDay, a: Action, tags: set<Day>)
    ensures |set g | g in tags :: Job(Daily, t, a, g)| == |tags|
    decreases tags
  {
    if tags != {} {
      var g0 :| g0 in tags;
      var rest := tags - {g0};
      TaggedJobsCardinality(t, a, rest);
      var jobs := set g | g in rest :: Job(Daily, t, a, g);
      assert (set g | g in tags :: Job(Daily, t, a, g)) == jobs + {Job(Daily, t, a, g0)};
      assert Job(Daily, t, a, g0) !in jobs;
    }
  }

  /** How many jobs of a repetition-free table are due: as many as there are
      distinct jobs due. */
  lemma DueCount(table: seq<Job>, d: Day, t: TimeOfDay, due: set<Job>)
    requires Distinct(table)
    requires forall j :: j in due <==> j in table && FiresAt(j, d, t)
    ensures |Due(table, d, t)| == |due|
  {
    var r := Due(table, d, t);
    DistinctCardinality(r);
    assert (set j | j in r) == due;
  }
}
