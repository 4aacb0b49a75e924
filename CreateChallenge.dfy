/** `CreateChallengeScreen`: a two-field form with a validation flag, posted
    with the stored token and reported through the snackbar. */
module CreateChallenge {
  import opened Common
  import opened SnackbarContext

  const FillAll: string := "Preencha todos os campos"
  const NoUser: string := "Usuário não autenticado"
  const Created: string := "Desafio criado com sucesso!"
  const ServerUnreachable: string := "Erro na comunicação com o servidor"
  const FailurePrefix: string := "Falha ao criar desafio: "

  /** The snackbar text for a response that was not ok. */
  function FailureText(message: Option<string>): (t: string)
    ensures |t| > |FailurePrefix|
    ensures t[..|FailurePrefix|] == FailurePrefix
    ensures message.Some? && message.value != "" ==> t[|FailurePrefix|..] == message.value
    ensures !(message.Some? && message.value != "") ==> t == FailurePrefix + "Erro desconhecido"
  {
    FailurePrefix + OrDefault(message, "Erro desconhecido")
  }

  class CreateChallengeForm {
    var nome: string
    var descricao: string
    var isCreating: bool
    var showValidationErrors: bool
    /** Requests the screen has sent, oldest first. */
    var sent: seq<Request>

    constructor ()
      ensures nome == "" && descricao == "" && !isCreating && !showValidationErrors && sent == []
    {
      nome, descricao := "", "";
      isCreating, showValidationErrors := false, false;
      sent := [];
    }

    /** `error={showValidationErrors && !nome}` */
    predicate NomeInError()
      reads this
    {
      showValidationErrors && nome == ""
    }

    /** `error={showValidationErrors && !descricao}` */
    predicate DescricaoInError()
      reads this
    {
      showValidationErrors && descricao == ""
    }

    /** The `onChangeText` of the name field. */
    method OnChangeNome(text: string)
      modifies this
      ensures nome == text && descricao == old(descricao) && isCreating == old(isCreating) && sent == old(sent)
      ensures showValidationErrors == (old(showValidationErrors) && text == "")
      ensures NomeInError() <==> old(showValidationErrors) && text == ""
    {
      nome := text;
      if text != "" {
        showValidationErrors := false;
      }
    }

    /** The `onChangeText` of the description field. */
    method OnChangeDescricao(text: string)
      modifies this
      ensures descricao == text && nome == old(nome) && isCreating == old(isCreating) && sent == old(sent)
      ensures showValidationErrors == (old(showValidationErrors) && text == "")
      ensures DescricaoInError() <==> old(showValidationErrors) && text == ""
    {
      descricao := text;
      if text != "" {
        showValidationErrors := false;
      }
    }

    /** `handleCreateChallenge()` with the stored token and the answer to the POST. */
    method HandleCreateChallenge(token: Option<string>, outcome: Outcome<Ack>, snack: SnackbarProvider)
      modifies this, snack
      ensures old(nome) == "" || old(descricao) == "" ==>
        && showValidationErrors && (NomeInError() || DescricaoInError())
        && nome == old(nome) && descricao == old(descricao) && isCreating == old(isCreating)
        && sent == old(sent)
        && snack.State() == Shown(old(snack.State()), FillAll, Error)
      ensures old(nome) != "" && old(descricao) != "" ==> !isCreating
      ensures old(nome) != "" && old(descricao) != "" && !HasToken(token) ==>
        && sent == old(sent) && nome == old(nome) && descricao == old(descricao)
        && showValidationErrors == old(showValidationErrors)
        && snack.State() == Shown(old(snack.State()), NoUser, Error)
      ensures old(nome) != "" && old(descricao) != "" && HasToken(token) ==>
        sent == old(sent) + [Request(POST, ChallengesUrl(), [JsonContentType, Bearer(token.value)],
                                     Some(NewChallenge(old(nome), old(descricao))))]
      ensures old(nome) != "" && old(descricao) != "" && HasToken(token) && outcome.Ok? ==>
        && nome == "" && descricao == "" && !showValidationErrors
        && snack.State() == Shown(old(snack.State()), Created, Success)
      ensures old(nome) != "" && old(descricao) != "" && HasToken(token) && outcome.HttpError? ==>
        && nome == old(nome) && descricao == old(descricao)
        && showValidationErrors == old(showValidationErrors)
        && snack.State() == Shown(old(snack.State()), FailureText(outcome.message), Error)
      ensures old(nome) != "" && old(descricao) != "" && HasToken(token) && outcome.TransportError? ==>
        && nome == old(nome) && descricao == old(descricao)
        && showValidationErrors == old(showValidationErrors)
        && snack.State() == Shown(old(snack.State()), ServerUnreachable, Error)
    {
      if nome == "" || descricao == "" {
        showValidationErrors := true;
        snack.Show(FillAll, Error);
        return;
      }
      isCreating := true;
      if !HasToken(token) {
        snack.Show(NoUser, Error);
        isCreating := false;
        return;
      }
      sent := sent + [Request(POST, ChallengesUrl(), [JsonContentType, Bearer(token.value)],
                              Some(NewChallenge(nome, descricao)))];
      match outcome {
        case Ok(_, _) =>
          isCreating := false;
          showValidationErrors := false;
          snack.Show(Created, Success);
          nome, descricao := "", "";
        case HttpError(_, message) =>
          isCreating := false;
          snack.Show(FailureText(message), Error);
        case TransportError(_) =>
          isCreating := false;
          snack.Show(ServerUnreachable, Error);
      }
    }
  }
}
