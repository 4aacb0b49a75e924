/** `TaskList`: the task list of one challenge, with its own fetch unit and the
    optimistic `rescueTask` (mark, confirm with a PUT, commit or roll back). */
module TaskList {
  import opened Common
  import opened Items
  import opened FetchUnit
  import opened SnackbarContext

  const RescueSucceeded: string := "Tarefa concluída com sucesso!"
  const RescueFailed: string := "Erro ao resgatar tarefa."

  class TaskList {
    const challengeId: string
    var tasks: seq<Task>
    /** The one fetch unit that serves both the list read and the PUT. */
    const unit: FetchUnit<seq<Task>>
    /** How many times the `onRewardRescued` callback has been called. */
    var rewardRescuedCalls: nat

    constructor (challengeId: string)
      ensures this.challengeId == challengeId && tasks == [] && rewardRescuedCalls == 0
      ensures fresh(unit) && unit.state == Initial() && unit.sent == []
    {
      this.challengeId := challengeId;
      tasks := [];
      unit := new FetchUnit();
      rewardRescuedCalls := 0;
    }

    /** `loadTasks()`: a GET of the challenge's tasks through the unit; the
        list itself changes only when SyncFetched runs. */
    method LoadTasks(token: Option<string>, outcome: Outcome<seq<Task>>)
      modifies unit
      ensures unit.state == Settled(Started(old(unit.state)), token, outcome)
      ensures unit.sent == old(unit.sent) + Sent(TasksUrl(challengeId), GET, None, token)
    {
      var _ := unit.FetchData(TasksUrl(challengeId), GET, None, token, outcome);
    }

    /** The effect on `fetchedTasks`, run after each render in which the
        unit's data changed: non-null data replaces the list. */
    method SyncFetched()
      modifies this
      ensures unit.state.data.Some? ==> tasks == unit.state.data.value
      ensures unit.state.data.None? ==> tasks == old(tasks)
      ensures rewardRescuedCalls == old(rewardRescuedCalls)
    {
      if unit.state.data.Some? {
        tasks := unit.state.data.value;
      }
    }

    /** `rescueTask(taskId)`. `putOutcome` answers the PUT; on success the
        list is reloaded (`reloadOutcome` answers that GET) and the parent is
        told. The failure message is `errorTasks` as it stood before the call,
        the value the callback captured, not the error of the failing PUT. */
    method RescueTask(taskId: string, token: Option<string>, putOutcome: Outcome<seq<Task>>,
                      reloadOutcome: Outcome<seq<Task>>, snack: SnackbarProvider)
      returns (success: bool)
      modifies this, unit, snack
      ensures success <==> Returned(token, putOutcome).Some?
      ensures success ==>
        && tasks == CommitTaskDone(MarkTaskPending(old(tasks), taskId), taskId)
        && snack.State() == Shown(old(snack.State()), RescueSucceeded, Success)
        && rewardRescuedCalls == old(rewardRescuedCalls) + 1
        && unit.sent == old(unit.sent) + Sent(ConcludeTaskUrl(taskId), PUT, None, token)
                                       + Sent(TasksUrl(challengeId), GET, None, token)
        && unit.state == Settled(Started(Settled(Started(old(unit.state)), token, putOutcome)), token, reloadOutcome)
      ensures !success ==>
        && tasks == RevertTaskPending(MarkTaskPending(old(tasks), taskId), taskId)
        && snack.State() == Shown(old(snack.State()), OrDefault(old(unit.state.error), RescueFailed), Error)
        && rewardRescuedCalls == old(rewardRescuedCalls)
        && unit.sent == old(unit.sent) + Sent(ConcludeTaskUrl(taskId), PUT, None, token)
        && unit.state == Settled(Started(old(unit.state)), token, putOutcome)
    {
      var errorTasks := unit.state.error;
      tasks := MarkTaskPending(tasks, taskId);
      var result := unit.FetchData(ConcludeTaskUrl(taskId), PUT, None, token, putOutcome);
      success := result.Some?;
      if success {
        tasks := CommitTaskDone(tasks, taskId);
        snack.Show(RescueSucceeded, Success);
        LoadTasks(token, reloadOutcome);
        rewardRescuedCalls := rewardRescuedCalls + 1;
      } else {
        tasks := RevertTaskPending(tasks, taskId);
        snack.Show(OrDefault(errorTasks, RescueFailed), Error);
      }
    }
  }

  /** The shared-unit caveat: after a successful rescue whose reload failed,
      the unit still holds the PUT's body, so the next SyncFetched replaces
      the list by that body and not by a list read. */
  method RescueThenRender(list: TaskList, taskId: string, token: Option<string>, putBody: seq<Task>,
                          reloadOutcome: Outcome<seq<Task>>, snack: SnackbarProvider)
    requires HasToken(token) && !reloadOutcome.Ok?
    modifies list, list.unit, snack
    ensures list.tasks == putBody
  {
    var ok := list.RescueTask(taskId, token, Ok(200, putBody), reloadOutcome, snack);
    list.SyncFetched();
  }
}
