/**
 * The manual-schedule store of the root mobile app: the same schedules as
 * the workspace app's store, without visit records.
 */
module RootSchedules {
  import opened Seqs
  import opened ManualSchedules

  class ScheduleStore {
    var schedules: seq<ManualSchedule>

    constructor ()
      ensures schedules == []
    {
      schedules := [];
    }

    /** `addSchedule(draft)` at clock `now`: one schedule appended, the earlier ones unchanged. */
    method AddSchedule(d: ScheduleDraft, now: nat)
      modifies this
      ensures schedules == old(schedules) + [NewSchedule(d, now)]
      ensures |schedules| == |old(schedules)| + 1 && schedules[..|old(schedules)|] == old(schedules)
    {
      schedules := schedules + [NewSchedule(d, now)];
    }

    /** `removeSchedule(id)`: every schedule with the id goes, the rest keep their order. */
    method RemoveSchedule(id: string)
      modifies this
      ensures schedules == Remove(old(schedules), id)
      ensures (forall i :: 0 <= i < |old(schedules)| ==> old(schedules)[i].id != id) ==> schedules == old(schedules)
    {
      RemoveKeepsOrder(schedules, [], id);
      schedules := Remove(schedules, id);
    }

    method ClearAllSchedules()
      modifies this
      ensures schedules == []
    {
      schedules := [];
    }
  }
}
