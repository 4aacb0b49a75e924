/** `useFetchData`: a `{data, loading, error}` record and the `fetchData` call that
    reads the token, sends one request and settles the record. */
module FetchUnit {
  import opened Common
  import JsText

  datatype FetchState<T> = FetchState(data: Option<T>, loading: bool, error: Option<string>)

  const Unexpected: string := "Erro inesperado."

  /** The record a fresh hook starts from. */
  function Initial<T>(): (s: FetchState<T>)
    ensures s.data == None && !s.loading && s.error == None
  {
    FetchState(None, false, None)
  }

  /** The first `setState`: loading, previous error cleared, data kept. */
  function Started<T>(s: FetchState<T>): (t: FetchState<T>)
    ensures t.loading && t.error == None && t.data == s.data
  {
    s.(loading := true, error := None)
  }

  const RequestFailedPrefix: string := "Erro na requisição: "

  /** `"Erro na requisição: " + status`: the status can be read back from
      the text after the prefix. */
  function StatusMessage(status: nat): (m: string)
    ensures |m| > |RequestFailedPrefix| && m[..|RequestFailedPrefix|] == RequestFailedPrefix
    ensures JsText.ParseInt(m[|RequestFailedPrefix|..]) == JsText.Int(status)
    ensures m[|RequestFailedPrefix|] == '0' <==> status == 0
  {
    var m := RequestFailedPrefix + JsText.DecimalString(status);
    assert m[|RequestFailedPrefix|..] == JsText.DecimalString(status) + "";
    JsText.ParseIntDecimal(status, "");
    m
  }

  /** The error a settled call leaves, if any. */
  function ErrorOf<T>(token: Option<string>, outcome: Outcome<T>): (e: Option<string>)
    ensures !HasToken(token) ==> e == Some(NotAuthenticated)
    ensures HasToken(token) ==> (e == None <==> outcome.Ok?)
    ensures HasToken(token) && outcome.HttpError? ==>
      e == Some(OrDefault(outcome.message, StatusMessage(outcome.status)))
    ensures HasToken(token) && outcome.TransportError? ==>
      e == Some(OrDefault(outcome.message, Unexpected))
    ensures e.Some? ==> e.value != ""
  {
    if !HasToken(token) then Some(NotAuthenticated)
    else match outcome
      case Ok(_, _) => None
      case HttpError(status, message) => Some(OrDefault(message, StatusMessage(status)))
      case TransportError(message) => Some(OrDefault(message, Unexpected))
  }

  /** The record once the call has settled, from the record it started with. */
  function Settled<T>(s: FetchState<T>, token: Option<string>, outcome: Outcome<T>): (t: FetchState<T>)
    ensures !t.loading
    ensures t.error == ErrorOf(token, outcome)
    ensures HasToken(token) && outcome.Ok? ==> t == FetchState(Some(outcome.json), false, None)
    ensures !(HasToken(token) && outcome.Ok?) ==> t.data == s.data
  {
    if HasToken(token) && outcome.Ok? then FetchState(Some(outcome.json), false, None)
    else s.(loading := false, error := ErrorOf(token, outcome))
  }

  /** What `fetchData` resolves to: the parsed body of an ok response, else null. */
  function Returned<T>(token: Option<string>, outcome: Outcome<T>): (r: Option<T>)
    ensures r.Some? <==> HasToken(token) && outcome.Ok?
    ensures r.Some? ==> r.value == outcome.json
  {
    if HasToken(token) && outcome.Ok? then Some(outcome.json) else None
  }

  /** The request `fetchData(url, verb, body)` sends, if it sends one: both
      headers always, the body only when one is given. */
  function Sent(url: string, verb: Verb, body: Option<Payload>, token: Option<string>): (r: seq<Request>)
    ensures !HasToken(token) ==> r == []
    ensures HasToken(token) ==> |r| == 1 && r[0].url == url && r[0].verb == verb && r[0].body == body
    ensures HasToken(token) ==> r[0].headers == [JsonContentType, Bearer(token.value)]
  {
    if HasToken(token) then [Request(verb, url, [JsonContentType, Bearer(token.value)], body)] else []
  }

  class FetchUnit<T> {
    var state: FetchState<T>
    /** Requests this unit has put on the network, oldest first. */
    var sent: seq<Request>

    constructor ()
      ensures state == Initial() && sent == []
    {
      state := FetchState(None, false, None);
      sent := [];
    }

    /** First synchronous step of `fetchData`, before the token is read. */
    method Start()
      modifies this
      ensures state == Started(old(state)) && sent == old(sent)
    {
      state := state.(loading := true, error := None);
    }

    /** The rest of `fetchData` once the token and the outcome are known. */
    method Finish(url: string, verb: Verb, body: Option<Payload>, token: Option<string>, outcome: Outcome<T>)
      returns (r: Option<T>)
      modifies this
      ensures r == Returned(token, outcome)
      ensures state == Settled(old(state), token, outcome)
      ensures sent == old(sent) + Sent(url, verb, body, token)
    {
      if !HasToken(token) {
        state := state.(loading := false, error := Some(NotAuthenticated));
        return None;
      }
      var headers := [JsonContentType, Bearer(token.value)];
      sent := sent + [Request(verb, url, headers, body)];
      match outcome {
        case HttpError(status, message) =>
          state := state.(loading := false, error := Some(OrDefault(message, StatusMessage(status))));
          r := None;
        case Ok(_, json) =>
          state := FetchState(Some(json), false, None);
          r := Some(json);
        case TransportError(message) =>
          state := state.(loading := false, error := Some(OrDefault(message, Unexpected)));
          r := None;
      }
    }

    /** `fetchData(url, verb, body)` from start to settlement. */
    method FetchData(url: string, verb: Verb, body: Option<Payload>, token: Option<string>, outcome: Outcome<T>)
      returns (r: Option<T>)
      modifies this
      ensures r == Returned(token, outcome)
      ensures state == Settled(Started(old(state)), token, outcome)
      ensures sent == old(sent) + Sent(url, verb, body, token)
    {
      Start();
      r := Finish(url, verb, body, token, outcome);
    }
  }
}
