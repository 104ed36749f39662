/**
 * The dashboard store of the web client: the loaded dashboard data (or
 * none yet), the loading flag, the error and the last update time.
 */
module Dashboard {
  import opened Seqs

  datatype TaskType = PoiVisit | FacilityVisit | DocCheck | AdPurchase
  datatype TaskStatus = Planned | Started | Done | Failed

  /** A task of the day; times are integers, durations in minutes. */
  datatype TaskSummary = TaskSummary(
    id: string, title: string, kind: TaskType, status: TaskStatus, scheduledAt: int,
    estimatedDuration: int, poiName: Option<string>)

  datatype ActivityStats = ActivityStats(
    tasksCompleted: int, tasksTotal: int, contactsMade: int, proofsUploaded: int, completionRate: int)

  datatype FinanceSummary = FinanceSummary(
    creditsEarned: int, creditsSpent: int, creditsBalance: int, monthlyTarget: int, expensesThisMonth: int)

  datatype TopActivity = TopActivity(activity: string, points: int, count: int)

  datatype RankingData = RankingData(
    currentRank: int, totalCandidates: int, score: int, monthlyImprovement: int, topActivities: seq<TopActivity>)

  datatype Achievement = Achievement(id: string, title: string, description: string, points: int, date: int)

  datatype NoticeType = Info | Warning | Error

  datatype Notification = Notification(id: string, title: string, message: string, kind: NoticeType, date: int, read: bool)

  datatype DashboardData = DashboardData(
    tasksToday: seq<TaskSummary>, activityStats: ActivityStats, financeSummary: FinanceSummary,
    ranking: RankingData, recentAchievements: seq<Achievement>, notifications: seq<Notification>)

  /** The tasks after `updateTaskStatus(taskId, status)`. */
  function SetTaskStatus(ts: seq<TaskSummary>, taskId: string, status: TaskStatus): (r: seq<TaskSummary>)
    ensures |r| == |ts|
    ensures forall i :: 0 <= i < |ts| ==> r[i] == if ts[i].id == taskId then ts[i].(status := status) else ts[i]
  {
    UpdateWhere(ts, (t: TaskSummary) => t.id == taskId, (t: TaskSummary) => t.(status := status))
  }

  /**
   * A status update keeps the number, the order and every field of the
   * tasks except the matching tasks' status; a second update of the same
   * task overrides the first, so repeating one changes nothing.
   */
  lemma SetTaskStatusEffect(ts: seq<TaskSummary>, taskId: string, status: TaskStatus, later: TaskStatus)
    ensures SetTaskStatus(SetTaskStatus(ts, taskId, status), taskId, later) == SetTaskStatus(ts, taskId, later)
    ensures SetTaskStatus(SetTaskStatus(ts, taskId, status), taskId, status) == SetTaskStatus(ts, taskId, status)
    ensures |SetTaskStatus(ts, taskId, status)| == |ts|
    ensures forall i :: 0 <= i < |ts| ==>
      SetTaskStatus(ts, taskId, status)[i].(status := ts[i].status) == ts[i]
    ensures forall i :: 0 <= i < |ts| ==>
      SetTaskStatus(ts, taskId, status)[i].status == if ts[i].id == taskId then status else ts[i].status
  {
  }

  /** The notifications after `markNotificationRead(id)`. */
  function MarkRead(ns: seq<Notification>, id: string): (r: seq<Notification>)
    ensures |r| == |ns|
    ensures forall i :: 0 <= i < |ns| ==> r[i] == if ns[i].id == id then ns[i].(read := true) else ns[i]
  {
    UpdateWhere(ns, (n: Notification) => n.id == id, (n: Notification) => n.(read := true))
  }

  /** Marking a notification read is idempotent and touches only the matching ones. */
  lemma MarkReadEffect(ns: seq<Notification>, id: string)
    ensures MarkRead(MarkRead(ns, id), id) == MarkRead(ns, id)
    ensures forall i :: 0 <= i < |ns| ==>
      MarkRead(ns, id)[i] == if ns[i].id == id then ns[i].(read := true) else ns[i]
  {
  }

  class DashboardStore {
    var data: Option<DashboardData>
    var isLoading: bool
    var error: Option<string>
    var lastUpdated: Option<int>

    constructor ()
      ensures data == None && !isLoading && error == None && lastUpdated == None
    {
      data, isLoading, error, lastUpdated := None, false, None, None;
    }

    /** `setData(d)` at clock `now`: the data is installed and the error cleared. */
    method SetData(d: DashboardData, now: int)
      modifies this
      ensures data == Some(d) && lastUpdated == Some(now) && error == None
      ensures isLoading == old(isLoading)
    {
      data, lastUpdated, error := Some(d), Some(now), None;
    }

    method SetLoading(loading: bool)
      modifies this
      ensures isLoading == loading
      ensures data == old(data) && error == old(error) && lastUpdated == old(lastUpdated)
    {
      isLoading := loading;
    }

    method SetError(e: Option<string>)
      modifies this
      ensures error == e
      ensures data == old(data) && isLoading == old(isLoading) && lastUpdated == old(lastUpdated)
    {
      error := e;
    }

    /**
     * `updateTaskStatus(taskId, status)`: nothing without data; otherwise
     * only the task list changes, and in it only the matching statuses.
     */
    method UpdateTaskStatus(taskId: string, status: TaskStatus)
      modifies this
      ensures old(data).None? ==> data == None
      ensures old(data).Some? ==>
        data == Some(old(data).value.(tasksToday := SetTaskStatus(old(data).value.tasksToday, taskId, status)))
      ensures isLoading == old(isLoading) && error == old(error) && lastUpdated == old(lastUpdated)
    {
      if data.Some? {
        var d := data.value;
        data := Some(d.(tasksToday := SetTaskStatus(d.tasksToday, taskId, status)));
      }
    }

    /** `markNotificationRead(id)`: nothing without data; otherwise only the notification list changes. */
    method MarkNotificationRead(id: string)
      modifies this
      ensures old(data).None? ==> data == None
      ensures old(data).Some? ==>
        data == Some(old(data).value.(notifications := MarkRead(old(data).value.notifications, id)))
      ensures isLoading == old(isLoading) && error == old(error) && lastUpdated == old(lastUpdated)
    {
      if data.Some? {
        var d := data.value;
        data := Some(d.(notifications := MarkRead(d.notifications, id)));
      }
    }

    /** `refreshData()` at clock `now`: only the update time changes. */
    method RefreshData(now: int)
      modifies this
      ensures lastUpdated == Some(now)
      ensures data == old(data) && isLoading == old(isLoading) && error == old(error)
    {
      lastUpdated := Some(now);
    }
  }
}
