/**
 The registry `setup_schedule` evidently means to build: the same fourteen
 jobs, each recurring weekly on the day it is tagged with (`every().monday`
 rather than `every().day`), so that each day follows its own profile.
 */
module PinnedSchedule {
  import opened Schedule

  /** Each job made to recur weekly on the day of its tag; order and all else kept. */
  function PinToTag(table: seq<Job>): (r: seq<Job>)
    ensures |r| == |table|
    ensures forall i :: 0 <= i < |table| ==> r[i] == table[i].(recurrence := Weekly(table[i].tag))
  {
    if table == [] then []
    else
      var n := |table| - 1;
      PinToTag(table[..n]) + [table[n].(recurrence := Weekly(table[n].tag))]
  }

  /** The corrected registry. */
  function IntendedTable(): seq<Job>
  {
    PinToTag(ScheduleTable())
  }

  /** The corrected timetable: a job pinned to its tag's day, at that day's profile time for its operation. */
  predicate PinnedTimetabled(j: Job)
  {
    && j.recurrence == Weekly(j.tag)
    && j.at == (if j.action == TurnOnTv then OnTime(j.tag) else OffTime(j.tag))
  }

  /** The corrected registry holds 14 jobs, no job twice, and exactly the
      pinned timetable. */
  lemma IntendedTableIsPinnedTimetable()
    ensures |IntendedTable()| == 14
    ensures Distinct(IntendedTable())
    ensures forall j :: j in IntendedTable() <==> PinnedTimetabled(j)
  {
    var s := ScheduleTable();
    var r := IntendedTable();
    ScheduleTableIsTimetable();
    forall j
      ensures j in r <==> PinnedTimetabled(j)
    {
      if j in r {
        var i :| 0 <= i < |r| && r[i] == j;
        assert s[i] in s;
      }
      if PinnedTimetabled(j) {
        var x := j.(recurrence := Daily);
        assert x in s;
        var i :| 0 <= i < |s| && s[i] == x;
        assert r[i] == j;
      }
    }
    forall i, k | 0 <= i < k < |r|
      ensures r[i] != r[k]
    {
      assert s[i] in s && s[k] in s;
    }
  }

  /** Corrected, on every day exactly one job is due at that day's power-on
      time and it powers the TV on, exactly one at its power-off time and it
      powers the TV off, and none at any other time. */
  lemma IntendedDueFollowsProfile(d: Day, t: TimeOfDay)
    ensures |Due(IntendedTable(), d, t)| == (if t == OnTime(d) || t == OffTime(d) then 1 else 0)
    ensures forall j :: j in Due(IntendedTable(), d, t) ==>
              j.tag == d && j.action == (if t == OnTime(d) then TurnOnTv else TurnOffTv)
  {
    IntendedTableIsPinnedTimetable();
    var due := if t == OnTime(d) then {Job(Weekly(d), t, TurnOnTv, d)}
               else if t == OffTime(d) then {Job(Weekly(d), t, TurnOffTv, d)}
               else {};
    forall j
      ensures j in due <==> j in IntendedTable() && FiresAt(j, d, t)
    {
    }
    DueCount(IntendedTable(), d, t, due);
  }
}
