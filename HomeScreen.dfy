/** `HomeScreen`: the signed-in user's active challenges and the header that
    greets them. */
module HomeScreen {
  import opened Common

  datatype ChallengeStatus = Active | Completed | Pending

  /** A challenge as the home screen reads it; every field but `id` and
      `nome` may be absent. */
  datatype Challenge = Challenge(
    id: string, nome: string, descricao: Option<string>, pontos: Option<int>,
    status: Option<ChallengeStatus>, deadline: Option<string>)

  const NoUser: string := "Usuário não autenticado"
  const LoadFailed: string := "Erro ao carregar desafios ativos"
  const Unreachable: string := "Erro de conexão ao carregar desafios ativos"

  /** The message `loadActiveChallenges` ends with, if any. Every failure is
      thrown as an `Error` and caught, so the caught `message` is what
      shows; a thrown `Error` built from a non-empty text keeps it. */
  function LoadError(token: Option<string>, outcome: Outcome<seq<Challenge>>): (e: Option<string>)
    ensures e == None <==> HasToken(token) && outcome.Ok?
    ensures !HasToken(token) ==> e == Some(NoUser)
    ensures HasToken(token) && outcome.HttpError? ==> e == Some(OrDefault(outcome.message, LoadFailed))
    ensures HasToken(token) && outcome.TransportError? ==> e == Some(OrDefault(outcome.message, Unreachable))
    ensures e.Some? ==> e.value != ""
  {
    if !HasToken(token) then Some(OrDefault(Some(NoUser), Unreachable))
    else match outcome
      case Ok(_, _) => None
      case HttpError(_, message) => Some(OrDefault(Some(OrDefault(message, LoadFailed)), Unreachable))
      case TransportError(message) => Some(OrDefault(message, Unreachable))
  }

  /** `userName?.[0] ?? 'U'`: the first character of the name, or "U" when
      there is no name or it is empty (indexing "" gives undefined). */
  function AvatarLabel(userName: Option<string>): (text: string)
    ensures |text| == 1
    ensures userName.Some? && userName.value != "" ==> text[0] == userName.value[0]
    ensures userName.None? || userName.value == "" ==> text == "U"
  {
    if userName.Some? && userName.value != "" then [userName.value[0]] else "U"
  }

  /** `userName ?? 'Usuário'`: only a missing name is replaced. */
  function GreetingName(userName: Option<string>): (name: string)
    ensures userName.Some? ==> name == userName.value
    ensures userName.None? ==> name == "Usuário"
  {
    if userName.Some? then userName.value else "Usuário"
  }

  /** `??` and `?.[0]` treat an empty name differently: the avatar falls
      back to "U" while the greeting shows the empty name. */
  lemma EmptyNameDefaults()
    ensures AvatarLabel(Some("")) == "U"
    ensures GreetingName(Some("")) == ""
  {
  }

  class HomeScreen {
    var activeChallenges: seq<Challenge>
    var loadingChallenges: bool
    var errorChallenges: Option<string>
    /** Requests the screen has sent, oldest first. */
    var sent: seq<Request>

    constructor ()
      ensures activeChallenges == [] && loadingChallenges && errorChallenges == None && sent == []
    {
      activeChallenges := [];
      loadingChallenges, errorChallenges := true, None;
      sent := [];
    }

    /** `loadActiveChallenges()` with the stored token and the answer to the GET. */
    method LoadActiveChallenges(token: Option<string>, outcome: Outcome<seq<Challenge>>)
      modifies this
      ensures !loadingChallenges
      ensures errorChallenges == LoadError(token, outcome)
      ensures HasToken(token) && outcome.Ok? ==> activeChallenges == outcome.json
      ensures !(HasToken(token) && outcome.Ok?) ==> activeChallenges == old(activeChallenges)
      ensures !HasToken(token) ==> sent == old(sent)
      ensures HasToken(token) ==> sent == old(sent) + [Request(GET, ChallengesUrl(), [Bearer(token.value)], None)]
    {
      loadingChallenges := true;
      errorChallenges := None;
      var thrown: Option<string> := None;
      if !HasToken(token) {
        thrown := Some(NoUser);
      } else {
        sent := sent + [Request(GET, ChallengesUrl(), [Bearer(token.value)], None)];
        match outcome {
          case Ok(_, data) =>
            activeChallenges := data;
          case HttpError(_, message) =>
            thrown := Some(OrDefault(message, LoadFailed));
          case TransportError(message) =>
            thrown := message;
        }
      }
      if !(HasToken(token) && outcome.Ok?) {
        errorChallenges := Some(OrDefault(thrown, Unreachable));
      }
      loadingChallenges := false;
    }
  }
}
