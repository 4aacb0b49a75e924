/** `CreateRewardScreen`: both fields are checked on every press, and only a
    valid form with a stored token is posted. */
module CreateReward {
  import opened Common
  import opened JsText

  const NameRequired: string := "O nome da recompensa é obrigatório."
  const CostRequired: string := "O custo em pontos é obrigatório."
  const CostNotPositive: string := "O custo deve ser um número maior que zero."

  /** The error shown under the name field after a press. */
  function NameError(nome: string): (e: Option<string>)
    ensures e.Some? <==> IsBlank(nome)
    ensures e.Some? ==> e.value == NameRequired
  {
    if IsBlank(nome) then Some(NameRequired) else None
  }

  /** The error shown under the cost field after a press: blank first, then
      a text that does not start with a positive whole number. */
  function CostError(custo: string): (e: Option<string>)
    ensures IsBlank(custo) ==> e == Some(CostRequired)
    ensures !IsBlank(custo) && !IsPositiveCount(custo) ==> e == Some(CostNotPositive)
    ensures e == None <==> !IsBlank(custo) && IsPositiveCount(custo)
  {
    if IsBlank(custo) then Some(CostRequired)
    else if !IsPositiveCount(custo) then Some(CostNotPositive)
    else None
  }

  /** The form passes exactly when the name has a non-space character and
      the cost starts with a positive whole number; the blank check on the
      cost is subsumed by the number check. */
  lemma {:induction false} FormValidIff(nome: string, custo: string)
    ensures NameError(nome) == None && CostError(custo) == None
        <==> !AllSpace(nome) && IsPositiveCount(custo)
  {
    BlankIffAllSpace(nome);
    if IsBlank(custo) {
      BlankIsNotCount(custo);
    }
  }

  /** The POST of a valid form: the name untrimmed, the cost as parseInt
      read it (see HandleCreateReward). */
  function CreateRequest(challengeId: string, nome: string, custoPontos: int, token: string): (r: Request)
    ensures r.verb == POST && r.url == CreateRewardUrl()
    ensures r.headers == [Bearer(token), JsonContentType]
    ensures r.body == Some(NewReward(nome, custoPontos, challengeId))
  {
    Request(POST, CreateRewardUrl(), [Bearer(token), JsonContentType],
            Some(NewReward(nome, custoPontos, challengeId)))
  }

  /** The `alert` that reports a posted form. */
  function Reply(outcome: Outcome<Ack>): (a: Alert)
    ensures outcome.HttpError? ==>
      a == Alert("Erro ao criar recompensa: " + OrDefault(outcome.message, "Verifique os dados."), None)
    ensures outcome.TransportError? ==> a == Alert("Erro de conexão ao criar recompensa.", None)
  {
    match outcome
    case Ok(_, _) => Alert("Recompensa criada!", None)
    case HttpError(_, message) => Alert("Erro ao criar recompensa: " + OrDefault(message, "Verifique os dados."), None)
    case TransportError(_) => Alert("Erro de conexão ao criar recompensa.", None)
  }

  /** Only an ok response is reported as a created reward. */
  lemma {:induction false} ReplySuccessIff(outcome: Outcome<Ack>)
    ensures Reply(outcome) == Alert("Recompensa criada!", None) <==> outcome.Ok?
  {
    if outcome.HttpError? {
      var t := Reply(outcome).title;
      assert t[..26] == "Erro ao criar recompensa: ";
      assert t[0] != "Recompensa criada!"[0];
    }
  }

  class CreateRewardForm {
    const challengeId: string
    var nome: string
    var custoPontos: string
    var loading: bool
    var nomeError: Option<string>
    var custoPontosError: Option<string>
    /** Requests the screen has sent, oldest first. */
    var sent: seq<Request>
    /** `alert` calls, oldest first. */
    var alerts: seq<Alert>

    constructor (challengeId: string)
      ensures this.challengeId == challengeId && nome == "" && custoPontos == ""
      ensures !loading && nomeError == None && custoPontosError == None
      ensures sent == [] && alerts == []
    {
      this.challengeId := challengeId;
      nome, custoPontos := "", "";
      loading := false;
      nomeError, custoPontosError := None, None;
      sent, alerts := [], [];
    }

    /** The validation half of `handleCreateReward()`: both fields are
        checked, each error is set or cleared, and `isValid` is returned. */
    method ValidateFields() returns (isValid: bool)
      modifies this
      ensures nome == old(nome) && custoPontos == old(custoPontos)
      ensures nomeError == NameError(nome) && custoPontosError == CostError(custoPontos)
      ensures isValid <==> nomeError == None && custoPontosError == None
      ensures loading == old(loading) && sent == old(sent) && alerts == old(alerts)
    {
      var n, c := nome, custoPontos;
      isValid := true;
      var nameError, costError := None, None;
      if IsBlank(n) {
        nameError := Some(NameRequired);
        isValid := false;
      }
      if IsBlank(c) {
        costError := Some(CostRequired);
        isValid := false;
      } else {
        var pontos := ParseInt(c);
        if pontos.NaN? || pontos.value <= 0 {
          costError := Some(CostNotPositive);
          isValid := false;
        } else {
          assert IsPositiveCount(c);
        }
      }
      assert nameError == NameError(n) && costError == CostError(c);
      nomeError, custoPontosError := nameError, costError;
    }

    /** The request half of `handleCreateReward()`, reached only with a valid form. */
    method Submit(points: int, token: Option<string>, outcome: Outcome<Ack>)
      modifies this
      ensures nome == old(nome) && custoPontos == old(custoPontos)
      ensures nomeError == old(nomeError) && custoPontosError == old(custoPontosError)
      ensures !loading
      ensures !HasToken(token) ==> sent == old(sent) && alerts == old(alerts) + [Alert("Não autenticado", None)]
      ensures HasToken(token) ==>
        && sent == old(sent) + [CreateRequest(challengeId, nome, points, token.value)]
        && alerts == old(alerts) + [Reply(outcome)]
    {
      loading := true;
      if !HasToken(token) {
        alerts := alerts + [Alert("Não autenticado", None)];
        loading := false;
        return;
      }
      sent := sent + [CreateRequest(challengeId, nome, points, token.value)];
      alerts := alerts + [Reply(outcome)];
      loading := false;
    }

    /** `handleCreateReward()` with the stored token and the answer to the POST. */
    method HandleCreateReward(token: Option<string>, outcome: Outcome<Ack>)
      modifies this
      ensures nome == old(nome) && custoPontos == old(custoPontos)
      ensures nomeError == NameError(nome) && custoPontosError == CostError(custoPontos)
      ensures nomeError != None || custoPontosError != None ==>
        loading == old(loading) && sent == old(sent) && alerts == old(alerts)
      ensures nomeError == None && custoPontosError == None ==> !loading
      ensures nomeError == None && custoPontosError == None && !HasToken(token) ==>
        sent == old(sent) && alerts == old(alerts) + [Alert("Não autenticado", None)]
      ensures nomeError == None && custoPontosError == None && HasToken(token) ==>
        && ParseInt(custoPontos).Int? && ParseInt(custoPontos).value > 0
        && sent == old(sent) + [CreateRequest(challengeId, nome, ParseInt(custoPontos).value, token.value)]
        && alerts == old(alerts) + [Reply(outcome)]
    {
      var isValid := ValidateFields();
      if !isValid {
        return;
      }
      Submit(ParseInt(custoPontos).value, token, outcome);
    }
  }
}
