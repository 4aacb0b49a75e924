/** Shared vocabulary of the client: optional values, the outcome of one network
    call, the requests the client sends, and the JavaScript `||` fallback used
    for every error message. */
module Common {

  datatype Option<+T> = None | Some(value: T)

  /** Base URL every screen prefixes to its endpoint. */
  const ApiBase: string := "http://10.0.2.2:3002/api"

  /** The endpoints of the REST service the screens call. */
  function ChallengesUrl(): string { ApiBase + "/desafios" }
  function TasksUrl(challengeId: string): string { ApiBase + "/desafios/" + challengeId + "/tarefas" }
  function ConcludeTaskUrl(taskId: string): string { ApiBase + "/tarefas/" + taskId + "/concluir" }
  function RewardsUrl(challengeId: string): string { ApiBase + "/recompensas/" + challengeId }
  function CreateRewardUrl(): string { ApiBase + "/recompensas" }
  function RedeemRewardUrl(rewardId: string): string { ApiBase + "/recompensas/" + rewardId + "/resgatar" }

  /** Key under which the bearer token is kept in secure storage. */
  const TokenKey: string := "userToken"

  /** Message set by the fetch unit and the challenge screen when no token is stored. */
  const NotAuthenticated: string := "Usuário não autenticado."

  /** `if (!token)`: a missing token and an empty token are both falsy. */
  predicate HasToken(token: Option<string>)
  {
    token.Some? && token.value != ""
  }

  /** `m || fallback` for an optional message: the message when it is a
      non-empty string, otherwise the fallback. */
  function OrDefault(m: Option<string>, fallback: string): (r: string)
    ensures r == fallback || (m == Some(r) && r != "")
    ensures m.Some? && m.value != "" ==> r == m.value
    ensures fallback != "" ==> r != ""
  {
    if m.Some? && m.value != "" then m.value else fallback
  }

  /** What one network call produced, as seen by the code that awaited it.
      - Ok: a response the caller treats as successful (`response.ok`, or an
        axios promise that resolved), with its status and parsed body;
      - HttpError: a response with a status outside 200..299 whose JSON body
        may carry a `message` field;
      - TransportError: anything thrown inside the `try` (no response, or a
        body that is not JSON), with the exception's `message`. */
  datatype Outcome<T> =
    | Ok(status: nat, json: T)
    | HttpError(status: nat, message: Option<string>)
    | TransportError(message: Option<string>)

  /** Body of a response whose only field the client reads is `message`. */
  datatype Ack = Ack(message: Option<string>)

  datatype Verb = GET | POST | PUT

  datatype Header = Header(name: string, value: string)

  const JsonContentType: Header := Header("Content-Type", "application/json")

  function Bearer(token: string): Header
  {
    Header("Authorization", "Bearer " + token)
  }

  /** The JSON bodies the client serialises into requests. */
  datatype Payload =
    | NewChallenge(nome: string, descricao: string)
    | NewTask(descricao: string, pontos: int)
    | NewReward(nome: string, custoPontos: int, desafioId: string)
    | EmptyObject
    | AxiosConfig(headers: seq<Header>)

  datatype Request = Request(verb: Verb, url: string, headers: seq<Header>, body: Option<Payload>)

  /** An `Alert.alert(title, message?)` or `alert(text)` raised by a screen. */
  datatype Alert = Alert(title: string, message: Option<string>)
}
