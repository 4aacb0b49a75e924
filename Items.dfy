/** Tasks and rewards of a challenge, and the per-id update that every optimistic
    rescue applies: `items.map(x => x.id === id ? { ...x, <changes> } : x)`. */
module Items {

  /** A task as the list screens hold it; `resgatada` is the pending-rescue flag. */
  datatype Task = Task(id: string, descricao: string, pontos: int, status: string, resgatada: bool)

  /** A reward; `resgatada` is both the pending flag and the redeemed flag. */
  datatype Reward = Reward(id: string, nome: string, custoPontos: int, resgatada: bool)

  const Pendente: string := "PENDENTE"
  const Concluida: string := "CONCLUIDA"

  /** Replaces every item whose id is `id` by `f` of it; nothing else changes. */
  function MapById<T>(items: seq<T>, idOf: T -> string, id: string, f: T -> T): (r: seq<T>)
    ensures |r| == |items|
    ensures forall i :: 0 <= i < |items| && idOf(items[i]) == id ==> r[i] == f(items[i])
    ensures forall i :: 0 <= i < |items| && idOf(items[i]) != id ==> r[i] == items[i]
  {
    if items == [] then []
    else
      var head := if idOf(items[0]) == id then f(items[0]) else items[0];
      [head] + MapById(items[1..], idOf, id, f)
  }

  function TaskId(t: Task): string { t.id }
  function RewardId(r: Reward): string { r.id }

  /** `{ ...task, resgatada: true }` */
  function MarkTask(t: Task): Task { t.(resgatada := true) }
  /** `{ ...task, status: "CONCLUIDA", resgatada: false }` */
  function CommitTask(t: Task): Task { t.(status := Concluida, resgatada := false) }
  /** `{ ...task, resgatada: false }` */
  function RevertTask(t: Task): Task { t.(resgatada := false) }

  /** `{ ...reward, resgatada: true }` */
  function MarkReward(r: Reward): Reward { r.(resgatada := true) }
  /** `{ ...reward, resgatada: false }` */
  function RevertReward(r: Reward): Reward { r.(resgatada := false) }

  /** The task list after `rescueTask(id)` marks it, before the server answers. */
  function MarkTaskPending(tasks: seq<Task>, id: string): (r: seq<Task>)
    ensures |r| == |tasks|
    ensures forall i :: 0 <= i < |tasks| ==>
      r[i] == if tasks[i].id == id then tasks[i].(resgatada := true) else tasks[i]
  {
    MapById(tasks, TaskId, id, MarkTask)
  }

  /** The task list once the server confirmed the completion of task `id`. */
  function CommitTaskDone(tasks: seq<Task>, id: string): (r: seq<Task>)
    ensures |r| == |tasks|
    ensures forall i :: 0 <= i < |tasks| ==>
      r[i] == if tasks[i].id == id then tasks[i].(status := Concluida, resgatada := false) else tasks[i]
  {
    MapById(tasks, TaskId, id, CommitTask)
  }

  /** The task list once a failed completion of task `id` is rolled back. */
  function RevertTaskPending(tasks: seq<Task>, id: string): (r: seq<Task>)
    ensures |r| == |tasks|
    ensures forall i :: 0 <= i < |tasks| ==>
      r[i] == if tasks[i].id == id then tasks[i].(resgatada := false) else tasks[i]
  {
    MapById(tasks, TaskId, id, RevertTask)
  }

  function MarkRewardPending(rewards: seq<Reward>, id: string): (r: seq<Reward>)
    ensures |r| == |rewards|
    ensures forall i :: 0 <= i < |rewards| ==>
      r[i] == if rewards[i].id == id then rewards[i].(resgatada := true) else rewards[i]
  {
    MapById(rewards, RewardId, id, MarkReward)
  }

  function RevertRewardPending(rewards: seq<Reward>, id: string): (r: seq<Reward>)
    ensures |r| == |rewards|
    ensures forall i :: 0 <= i < |rewards| ==>
      r[i] == if rewards[i].id == id then rewards[i].(resgatada := false) else rewards[i]
  {
    MapById(rewards, RewardId, id, RevertReward)
  }

  /** The task card offers "Resgatar" only for a pending task not already being rescued. */
  predicate CanRescueTask(t: Task)
  {
    t.status == Pendente && !t.resgatada
  }

  /** The reward card offers "Resgatar" only while the reward is not `resgatada`. */
  predicate CanRescueReward(r: Reward)
  {
    !r.resgatada
  }

  /** After the optimistic mark no task with that id offers the action again,
      so a second rescue of the same id cannot be started while one is pending. */
  lemma MarkDisablesTask(tasks: seq<Task>, id: string, i: int)
    requires 0 <= i < |tasks| && tasks[i].id == id
    ensures !CanRescueTask(MarkTaskPending(tasks, id)[i])
  {
  }

  /** After the optimistic mark no reward with that id offers "Resgatar"
      again until the mark is rolled back. */
  lemma MarkDisablesReward(rewards: seq<Reward>, id: string, i: int)
    requires 0 <= i < |rewards| && rewards[i].id == id
    ensures !CanRescueReward(MarkRewardPending(rewards, id)[i])
  {
  }

  /** Rolling back a mark restores a list in which no task with that id was
      already marked: a failed rescue leaves the list as it was. */
  lemma {:induction false} RevertUndoesTaskMark(tasks: seq<Task>, id: string)
    requires forall i :: 0 <= i < |tasks| && tasks[i].id == id ==> !tasks[i].resgatada
    ensures RevertTaskPending(MarkTaskPending(tasks, id), id) == tasks
  {
    var r := RevertTaskPending(MarkTaskPending(tasks, id), id);
    forall i | 0 <= i < |tasks| ensures r[i] == tasks[i] {
      if tasks[i].id == id {
        assert MarkTaskPending(tasks, id)[i].id == id;
      }
    }
  }

  /** A confirmed completion ends with that task done and no longer pending,
      whether or not it had been marked first. */
  lemma {:induction false} CommitAfterMark(tasks: seq<Task>, id: string)
    ensures CommitTaskDone(MarkTaskPending(tasks, id), id) == CommitTaskDone(tasks, id)
  {
    var a := CommitTaskDone(MarkTaskPending(tasks, id), id);
    forall i | 0 <= i < |tasks| ensures a[i] == CommitTaskDone(tasks, id)[i] {
      if tasks[i].id == id {
        assert MarkTaskPending(tasks, id)[i].id == id;
      }
    }
  }

  /** The reward counterpart of RevertUndoesTaskMark. */
  lemma {:induction false} RevertUndoesRewardMark(rewards: seq<Reward>, id: string)
    requires forall i :: 0 <= i < |rewards| && rewards[i].id == id ==> !rewards[i].resgatada
    ensures RevertRewardPending(MarkRewardPending(rewards, id), id) == rewards
  {
    var r := RevertRewardPending(MarkRewardPending(rewards, id), id);
    forall i | 0 <= i < |rewards| ensures r[i] == rewards[i] {
      if rewards[i].id == id {
        assert MarkRewardPending(rewards, id)[i].id == id;
      }
    }
  }

  /** Marking a reward twice is marking it once: the confirmation step of
      RewardList, which sets `resgatada: true` again, changes nothing. */
  lemma {:induction false} MarkRewardIdempotent(rewards: seq<Reward>, id: string)
    ensures MarkRewardPending(MarkRewardPending(rewards, id), id) == MarkRewardPending(rewards, id)
  {
    var m := MarkRewardPending(rewards, id);
    forall i | 0 <= i < |rewards| ensures MarkRewardPending(m, id)[i] == m[i] {
      if rewards[i].id == id {
        assert m[i].id == id;
      }
    }
  }
}
