/** `CreateTaskScreen`: a chain of guards that ends either in an alert or in
    the POST of a new task; the screen keeps no state of its own. */
module CreateTask {
  import opened Common
  import opened JsText

  const NotLoggedIn: string := "Não autenticado"
  const FillIn: string := "Preencha o nome e os pontos da tarefa."
  const PointsNotPositive: string := "Os pontos da tarefa devem ser um número maior que zero."

  /** What one press of "Criar Tarefa" leads to before any response. */
  datatype Plan = Rejected(alert: Alert) | Send(request: Request)

  /** `handleCreateTask()` up to the request: the token is checked before the
      fields, then blank fields, then the number. */
  function PlanCreateTask(token: Option<string>, taskName: string, taskPoints: string, challengeId: string): (p: Plan)
    ensures !HasToken(token) ==> p == Rejected(Alert(NotLoggedIn, None))
    ensures HasToken(token) && (IsBlank(taskName) || IsBlank(taskPoints)) ==> p == Rejected(Alert(FillIn, None))
    ensures HasToken(token) && !IsBlank(taskName) && !IsBlank(taskPoints) && !IsPositiveCount(taskPoints) ==>
      p == Rejected(Alert(PointsNotPositive, None))
    ensures p.Send? ==> IsPositiveCount(taskPoints) && HasToken(token)
    ensures p.Send? ==>
      p.request == Request(POST, TasksUrl(challengeId), [JsonContentType, Bearer(token.value)],
                           Some(NewTask(taskName, ParseInt(taskPoints).value)))
  {
    if !HasToken(token) then Rejected(Alert(NotLoggedIn, None))
    else if IsBlank(taskName) || IsBlank(taskPoints) then Rejected(Alert(FillIn, None))
    else
      var points := ParseInt(taskPoints);
      if points.NaN? || points.value <= 0 then Rejected(Alert(PointsNotPositive, None))
      else Send(Request(POST, TasksUrl(challengeId), [JsonContentType, Bearer(token.value)],
                        Some(NewTask(taskName, points.value))))
  }

  /** A request goes out exactly when there is a token, the name has a
      non-space character and the points start with a positive whole number;
      its body carries that number, always above zero. */
  lemma {:induction false} SendIff(token: Option<string>, taskName: string, taskPoints: string, challengeId: string)
    ensures PlanCreateTask(token, taskName, taskPoints, challengeId).Send?
        <==> HasToken(token) && !AllSpace(taskName) && IsPositiveCount(taskPoints)
    ensures PlanCreateTask(token, taskName, taskPoints, challengeId).Send? ==>
      PlanCreateTask(token, taskName, taskPoints, challengeId).request.body.value.pontos > 0
  {
    BlankIffAllSpace(taskName);
    if IsBlank(taskPoints) {
      BlankIsNotCount(taskPoints);
    }
  }

  /** The alert that reports a sent request. */
  function CreateTaskReply(outcome: Outcome<Ack>): (a: Alert)
    ensures outcome.HttpError? ==>
      a == Alert("Erro ao criar tarefa", Some(OrDefault(outcome.message, "Verifique os dados e tente novamente.")))
    ensures outcome.TransportError? ==> a == Alert("Erro de conexão", None)
  {
    match outcome
    case Ok(_, _) => Alert("Tarefa criada!", None)
    case HttpError(_, message) =>
      Alert("Erro ao criar tarefa", Some(OrDefault(message, "Verifique os dados e tente novamente.")))
    case TransportError(_) => Alert("Erro de conexão", None)
  }

  /** Only an ok response is reported as a created task. */
  lemma {:induction false} ReplySuccessIff(outcome: Outcome<Ack>)
    ensures CreateTaskReply(outcome) == Alert("Tarefa criada!", None) <==> outcome.Ok?
  {
    if outcome.HttpError? {
      assert CreateTaskReply(outcome).title[6] != "Tarefa criada!"[6];
    }
  }
}
