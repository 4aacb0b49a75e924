/** `ChallengeDetailsScreen`: tasks and rewards of one challenge loaded side by
    side with axios, and its own copies of the two optimistic rescues, which
    report through `Alert.alert`. */
module ChallengeDetails {
  import opened Common
  import opened Items

  const TasksFailed: string := "Erro ao carregar tarefas."
  const RewardsFailed: string := "Erro ao carregar recompensas."
  const TasksUnreachable: string := "Erro de conexão ao carregar tarefas."
  const RewardsUnreachable: string := "Erro de conexão ao carregar recompensas."

  /** Alert titles and texts of the two rescue actions. */
  const ErrorTitle: string := "Erro"
  const ConnectionTitle: string := "Erro de Conexão"
  const SuccessTitle: string := "Sucesso"
  const TaskRescueFailed: string := "Erro ao resgatar tarefa."
  const TaskRescueUnreachable: string := "Não foi possível resgatar a tarefa."
  const RewardRedeemed: string := "Recompensa resgatada com sucesso!"
  const RewardNotRedeemed: string := "Não foi possível resgatar a recompensa."
  const RewardRedeemFailed: string := "Erro ao resgatar recompensa."

  /** The six state variables of the screen, read together. */
  datatype Board = Board(
    tasks: seq<Task>, rewards: seq<Reward>,
    loadingTasks: bool, loadingRewards: bool,
    errorTasks: Option<string>, errorRewards: Option<string>)

  /** The error one list is left with by a load that did not throw: none on
      status 200, else the body's message or the list's own default. A list
      body has no `message`, so a 2xx other than 200 gets the default. */
  function ListError<T>(o: Outcome<seq<T>>, fallback: string): (e: Option<string>)
    requires !o.TransportError?
    ensures e == None <==> o.Ok? && o.status == 200
    ensures o.HttpError? ==> e == Some(OrDefault(o.message, fallback))
    ensures o.Ok? && o.status != 200 ==> e == Some(fallback)
    ensures fallback != "" && e.Some? ==> e.value != ""
  {
    if o.Ok? && o.status == 200 then None
    else if o.Ok? then Some(fallback)
    else Some(OrDefault(o.message, fallback))
  }

  /** The list one list is left with: the body on status 200, else unchanged. */
  function ListData<T>(current: seq<T>, o: Outcome<seq<T>>): (r: seq<T>)
    requires !o.TransportError?
    ensures o.status == 200 && o.Ok? ==> r == o.json
    ensures !(o.status == 200 && o.Ok?) ==> r == current
  {
    if o.status == 200 && o.Ok? then o.json else current
  }

  /** The two GETs `loadData()` sends once it has a token. */
  function LoadRequests(challengeId: string, token: string): seq<Request>
  {
    [Request(GET, TasksUrl(challengeId), [Bearer(token)], None),
     Request(GET, RewardsUrl(challengeId), [Bearer(token)], None)]
  }

  /** `loadData()` from start to settlement. A list is replaced exactly when
      it loads with no error, which needs a token, a status of 200 for it
      and no throw from either request; otherwise it keeps its old contents
      and carries a message. */
  function Loaded(b: Board, token: Option<string>, tasksOut: Outcome<seq<Task>>, rewardsOut: Outcome<seq<Reward>>): (r: Board)
    ensures !r.loadingTasks && !r.loadingRewards
    ensures r.errorTasks == None <==>
      HasToken(token) && !rewardsOut.TransportError? && tasksOut.Ok? && tasksOut.status == 200
    ensures r.errorRewards == None <==>
      HasToken(token) && !tasksOut.TransportError? && rewardsOut.Ok? && rewardsOut.status == 200
    ensures r.errorTasks == None ==> r.tasks == tasksOut.json
    ensures r.errorRewards == None ==> r.rewards == rewardsOut.json
    ensures r.errorTasks.Some? ==> r.tasks == b.tasks && r.errorTasks.value != ""
    ensures r.errorRewards.Some? ==> r.rewards == b.rewards && r.errorRewards.value != ""
    ensures !HasToken(token) ==>
      r.errorTasks == Some(NotAuthenticated) && r.errorRewards == Some(NotAuthenticated)
    ensures HasToken(token) && (tasksOut.TransportError? || rewardsOut.TransportError?) ==>
      r.errorTasks == Some(TasksUnreachable) && r.errorRewards == Some(RewardsUnreachable)
    ensures HasToken(token) && !tasksOut.TransportError? && !rewardsOut.TransportError? ==>
      r.errorTasks == ListError(tasksOut, TasksFailed) && r.errorRewards == ListError(rewardsOut, RewardsFailed)
  {
    if !HasToken(token) then
      b.(loadingTasks := false, loadingRewards := false,
         errorTasks := Some(NotAuthenticated), errorRewards := Some(NotAuthenticated))
    else if tasksOut.TransportError? || rewardsOut.TransportError? then
      b.(loadingTasks := false, loadingRewards := false,
         errorTasks := Some(TasksUnreachable), errorRewards := Some(RewardsUnreachable))
    else
      Board(ListData(b.tasks, tasksOut), ListData(b.rewards, rewardsOut), false, false,
            ListError(tasksOut, TasksFailed), ListError(rewardsOut, RewardsFailed))
  }

  /** The outcome of one list does not affect the other: the task half of a
      load is the same whatever the reward response was, as long as neither threw. */
  lemma ListsIndependent(b: Board, token: Option<string>, t: Outcome<seq<Task>>,
                         r1: Outcome<seq<Reward>>, r2: Outcome<seq<Reward>>)
    requires !t.TransportError? && !r1.TransportError? && !r2.TransportError?
    ensures Loaded(b, token, t, r1).tasks == Loaded(b, token, t, r2).tasks
    ensures Loaded(b, token, t, r1).errorTasks == Loaded(b, token, t, r2).errorTasks
  {
  }

  /** The PUT of `rescueReward`: the header object is passed where axios
      expects the body, so the request has no headers of its own. */
  function RedeemRequest(rewardId: string, token: string): (r: Request)
    ensures r.headers == []
    ensures r.verb == PUT && r.url == RedeemRewardUrl(rewardId)
    ensures r.body == Some(AxiosConfig([Bearer(token), JsonContentType]))
  {
    Request(PUT, RedeemRewardUrl(rewardId), [], Some(AxiosConfig([Bearer(token), JsonContentType])))
  }

  /** The `message` of a response body, for a call that did not throw. */
  function BodyMessage(o: Outcome<Ack>): Option<string>
    requires !o.TransportError?
  {
    if o.Ok? then o.json.message else o.message
  }

  class ChallengeDetails {
    const challengeId: string
    var tasks: seq<Task>
    var rewards: seq<Reward>
    var loadingTasks: bool
    var loadingRewards: bool
    var errorTasks: Option<string>
    var errorRewards: Option<string>
    /** Requests the screen has sent, oldest first. */
    var sent: seq<Request>
    /** Alerts the screen has raised, oldest first. */
    var alerts: seq<Alert>

    function State(): Board
      reads this
    {
      Board(tasks, rewards, loadingTasks, loadingRewards, errorTasks, errorRewards)
    }

    constructor (challengeId: string)
      ensures this.challengeId == challengeId
      ensures State() == Board([], [], true, true, None, None) && sent == [] && alerts == []
    {
      this.challengeId := challengeId;
      tasks, rewards := [], [];
      loadingTasks, loadingRewards := true, true;
      errorTasks, errorRewards := None, None;
      sent, alerts := [], [];
    }

    /** `loadData()`: both lists requested together; a throw from either
        request fails both. */
    method LoadData(token: Option<string>, tasksOut: Outcome<seq<Task>>, rewardsOut: Outcome<seq<Reward>>)
      modifies this
      ensures State() == Loaded(old(State()), token, tasksOut, rewardsOut)
      ensures !HasToken(token) ==> sent == old(sent)
      ensures HasToken(token) ==> sent == old(sent) + LoadRequests(challengeId, token.value)
      ensures alerts == old(alerts)
    {
      loadingTasks, loadingRewards := true, true;
      var newTasks, newRewards := tasks, rewards;
      var tasksError: Option<string>, rewardsError: Option<string> := None, None;
      if !HasToken(token) {
        tasksError, rewardsError := Some(NotAuthenticated), Some(NotAuthenticated);
      } else {
        sent := sent + LoadRequests(challengeId, token.value);
        if tasksOut.TransportError? || rewardsOut.TransportError? {
          tasksError, rewardsError := Some(TasksUnreachable), Some(RewardsUnreachable);
        } else {
          if tasksOut.status == 200 && tasksOut.Ok? {
            newTasks := tasksOut.json;
          } else {
            tasksError := Some(if tasksOut.Ok? then TasksFailed else OrDefault(tasksOut.message, TasksFailed));
          }
          if rewardsOut.status == 200 && rewardsOut.Ok? {
            newRewards := rewardsOut.json;
          } else {
            rewardsError := Some(if rewardsOut.Ok? then RewardsFailed else OrDefault(rewardsOut.message, RewardsFailed));
          }
        }
      }
      tasks, rewards, errorTasks, errorRewards := newTasks, newRewards, tasksError, rewardsError;
      loadingTasks, loadingRewards := false, false;
    }

    /** `rescueTask(taskId)`: no token, nothing happens; otherwise mark, PUT,
        and on status 200 complete the task (no reload), else roll back. */
    method RescueTask(taskId: string, token: Option<string>, outcome: Outcome<Ack>)
      modifies this
      ensures !HasToken(token) ==> State() == old(State()) && sent == old(sent) && alerts == old(alerts)
      ensures HasToken(token) ==>
        sent == old(sent) + [Request(PUT, ConcludeTaskUrl(taskId), [Bearer(token.value)], Some(EmptyObject))]
      ensures HasToken(token) && !outcome.TransportError? && outcome.status == 200 ==>
        && tasks == CommitTaskDone(MarkTaskPending(old(tasks), taskId), taskId)
        && alerts == old(alerts)
      ensures HasToken(token) && !outcome.TransportError? && outcome.status != 200 ==>
        && tasks == RevertTaskPending(MarkTaskPending(old(tasks), taskId), taskId)
        && alerts == old(alerts) + [Alert(ErrorTitle, Some(OrDefault(BodyMessage(outcome), TaskRescueFailed)))]
      ensures HasToken(token) && outcome.TransportError? ==>
        && tasks == RevertTaskPending(MarkTaskPending(old(tasks), taskId), taskId)
        && alerts == old(alerts) + [Alert(ConnectionTitle, Some(TaskRescueUnreachable))]
      ensures rewards == old(rewards) && loadingTasks == old(loadingTasks) && loadingRewards == old(loadingRewards)
      ensures errorTasks == old(errorTasks) && errorRewards == old(errorRewards)
    {
      if !HasToken(token) {
        return;
      }
      tasks := MarkTaskPending(tasks, taskId);
      sent := sent + [Request(PUT, ConcludeTaskUrl(taskId), [Bearer(token.value)], Some(EmptyObject))];
      if outcome.TransportError? {
        tasks := RevertTaskPending(tasks, taskId);
        alerts := alerts + [Alert(ConnectionTitle, Some(TaskRescueUnreachable))];
      } else if outcome.status == 200 {
        tasks := CommitTaskDone(tasks, taskId);
      } else {
        tasks := RevertTaskPending(tasks, taskId);
        alerts := alerts + [Alert(ErrorTitle, Some(OrDefault(BodyMessage(outcome), TaskRescueFailed)))];
      }
    }

    /** `rescueReward(rewardId)`: no token, nothing happens; otherwise mark and
        PUT (see RedeemRequest). Status 200 keeps the mark, alerts
        and reloads (`tasksOut`, `rewardsOut` answer the reload); 400 alerts
        the body's message; any other status or a throw alerts a fixed text;
        every failure rolls the mark back. */
    method RescueReward(rewardId: string, token: Option<string>, outcome: Outcome<Ack>,
                        tasksOut: Outcome<seq<Task>>, rewardsOut: Outcome<seq<Reward>>)
      modifies this
      ensures !HasToken(token) ==> State() == old(State()) && sent == old(sent) && alerts == old(alerts)
      ensures HasToken(token) && !outcome.TransportError? && outcome.status == 200 ==>
        sent == old(sent) + [RedeemRequest(rewardId, token.value)] + LoadRequests(challengeId, token.value)
      ensures HasToken(token) && !(!outcome.TransportError? && outcome.status == 200) ==>
        sent == old(sent) + [RedeemRequest(rewardId, token.value)]
      ensures HasToken(token) && !outcome.TransportError? && outcome.status == 200 ==>
        && State() == Loaded(old(State()).(rewards := MarkRewardPending(old(rewards), rewardId)),
                             token, tasksOut, rewardsOut)
        && alerts == old(alerts) + [Alert(SuccessTitle, Some(RewardRedeemed))]
      ensures HasToken(token) && !outcome.TransportError? && outcome.status == 400 ==>
        && State() == old(State()).(rewards := RevertRewardPending(MarkRewardPending(old(rewards), rewardId), rewardId))
        && alerts == old(alerts) + [Alert(ErrorTitle, Some(OrDefault(BodyMessage(outcome), RewardNotRedeemed)))]
      ensures HasToken(token) && !outcome.TransportError? && outcome.status != 200 && outcome.status != 400 ==>
        && State() == old(State()).(rewards := RevertRewardPending(MarkRewardPending(old(rewards), rewardId), rewardId))
        && alerts == old(alerts) + [Alert(ErrorTitle, Some(RewardRedeemFailed))]
      ensures HasToken(token) && outcome.TransportError? ==>
        && State() == old(State()).(rewards := RevertRewardPending(MarkRewardPending(old(rewards), rewardId), rewardId))
        && alerts == old(alerts) + [Alert(ConnectionTitle, Some(RewardNotRedeemed))]
    {
      if !HasToken(token) {
        return;
      }
      rewards := MarkRewardPending(rewards, rewardId);
      sent := sent + [RedeemRequest(rewardId, token.value)];
      if outcome.TransportError? {
        alerts := alerts + [Alert(ConnectionTitle, Some(RewardNotRedeemed))];
        rewards := RevertRewardPending(rewards, rewardId);
      } else if outcome.status == 200 {
        MarkRewardIdempotent(old(rewards), rewardId);
        rewards := MarkRewardPending(rewards, rewardId);
        alerts := alerts + [Alert(SuccessTitle, Some(RewardRedeemed))];
        LoadData(token, tasksOut, rewardsOut);
      } else if outcome.status == 400 {
        alerts := alerts + [Alert(ErrorTitle, Some(OrDefault(BodyMessage(outcome), RewardNotRedeemed)))];
        rewards := RevertRewardPending(rewards, rewardId);
      } else {
        alerts := alerts + [Alert(ErrorTitle, Some(RewardRedeemFailed))];
        rewards := RevertRewardPending(rewards, rewardId);
      }
    }
  }
}
