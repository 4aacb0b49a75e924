/** `TaskListScreen`: a read-only list of a challenge's tasks with a status
    icon, colour and label per task. */
module TaskListScreen {
  import opened Common
  import opened JsText

  /** A task as this screen reads it (no `resgatada` here). */
  datatype ListedTask = ListedTask(id: string, descricao: string, pontos: int, status: string)

  const DoneKey: string := "concluida"
  const PendingKey: string := "pendente"
  const InProgressKey: string := "em_progresso"

  /** `getStatusIcon(status)`: a switch on `status.toLowerCase()`. */
  function StatusIcon(status: string): (icon: string)
    ensures icon in {"check-circle", "clock-outline", "loading", "help-circle-outline"}
  {
    var key := ToLower(status);
    if key == DoneKey then "check-circle"
    else if key == PendingKey then "clock-outline"
    else if key == InProgressKey then "loading"
    else "help-circle-outline"
  }

  /** `getStatusColor(status)`; `primary` is the theme's primary colour. */
  function StatusColor(status: string, primary: string): (color: string)
    ensures color in {"green", "orange", primary, "gray"}
  {
    var key := ToLower(status);
    if key == DoneKey then "green"
    else if key == PendingKey then "orange"
    else if key == InProgressKey then primary
    else "gray"
  }

  /** `status.replace(/_/g, ' ')` */
  function StatusLabel(status: string): (text: string)
    ensures |text| == |status|
    ensures forall i :: 0 <= i < |status| ==> text[i] == (if status[i] == '_' then ' ' else status[i])
  {
    if status == "" then ""
    else [if status[0] == '_' then ' ' else status[0]] + StatusLabel(status[1..])
  }

  /** The icon is chosen case-insensitively: "CONCLUIDA", "Concluida" and
      "concluida" all get the check mark, and so on for each key (the keys
      themselves have no capitals). */
  lemma {:induction false} IconIgnoresCase(status: string)
    ensures StatusIcon(status) == "check-circle" <==> SameIgnoringCase(status, DoneKey)
    ensures StatusIcon(status) == "clock-outline" <==> SameIgnoringCase(status, PendingKey)
    ensures StatusIcon(status) == "loading" <==> SameIgnoringCase(status, InProgressKey)
  {
    var key := ToLower(status);
    assert NoCapitals(DoneKey) && NoCapitals(PendingKey) && NoCapitals(InProgressKey);
    ToLowerMatches(status, DoneKey);
    ToLowerMatches(status, PendingKey);
    ToLowerMatches(status, InProgressKey);
    assert StatusIcon(status) == "check-circle" <==> key == DoneKey;
    assert StatusIcon(status) == "clock-outline" <==> key == PendingKey;
    assert StatusIcon(status) == "loading" <==> key == InProgressKey;
  }

  /** Icon and colour come from switches with the same arms: when the
      theme's primary colour is none of the fixed ones, the colour of a
      status determines its icon and back. */
  lemma {:induction false} ColorFollowsIcon(status: string, primary: string)
    requires primary != "green" && primary != "orange" && primary != "gray"
    ensures StatusColor(status, primary) == "green" <==> StatusIcon(status) == "check-circle"
    ensures StatusColor(status, primary) == "orange" <==> StatusIcon(status) == "clock-outline"
    ensures StatusColor(status, primary) == primary <==> StatusIcon(status) == "loading"
    ensures StatusColor(status, primary) == "gray" <==> StatusIcon(status) == "help-circle-outline"
  {
  }

  /** The status the server sends for a finished task, in capitals, shows
      the check mark in green. */
  lemma {:induction false} ServerStatusDone(primary: string)
    ensures StatusIcon("CONCLUIDA") == "check-circle"
    ensures StatusColor("CONCLUIDA", primary) == "green"
  {
    var s := "CONCLUIDA";
    assert ToLower(s)[..] == DoneKey by {
      assert |ToLower(s)| == |DoneKey|;
      forall i | 0 <= i < |s| ensures ToLower(s)[i] == DoneKey[i] {
      }
    }
  }

  /** A label never shows an underscore. */
  lemma {:induction false} LabelHasNoUnderscore(status: string)
    ensures '_' !in StatusLabel(status)
  {
    var text := StatusLabel(status);
    forall i | 0 <= i < |text| ensures text[i] != '_' {
      assert text[i] == (if status[i] == '_' then ' ' else status[i]);
    }
  }

  /** The label of a status without underscores is the status itself. */
  lemma {:induction false} LabelKeepsPlainStatus(status: string)
    requires '_' !in status
    ensures StatusLabel(status) == status
  {
    var text := StatusLabel(status);
    forall i | 0 <= i < |status| ensures text[i] == status[i] {
      assert status[i] in status;
    }
  }

  class TaskListScreen {
    const challengeId: string
    var tasks: seq<ListedTask>
    var loading: bool
    var error: Option<string>
    /** Requests the screen has sent, oldest first. */
    var sent: seq<Request>
    /** `Alert.alert` calls, oldest first. */
    var alerts: seq<Alert>

    constructor (challengeId: string)
      ensures this.challengeId == challengeId && tasks == [] && loading && error == None
      ensures sent == [] && alerts == []
    {
      this.challengeId := challengeId;
      tasks := [];
      loading, error := true, None;
      sent, alerts := [], [];
    }

    /** `loadTasks()` with the stored token and the answer to the GET. */
    method LoadTasks(token: Option<string>, outcome: Outcome<seq<ListedTask>>)
      modifies this
      ensures !loading
      ensures error == None <==> !HasToken(token) || outcome.Ok?
      ensures !HasToken(token) ==>
        tasks == old(tasks) && sent == old(sent) && alerts == old(alerts) + [Alert("Não autenticado", None)]
      ensures HasToken(token) ==>
        sent == old(sent) + [Request(GET, TasksUrl(challengeId), [Bearer(token.value)], None)]
        && alerts == old(alerts)
      ensures HasToken(token) && outcome.Ok? ==> tasks == outcome.json
      ensures HasToken(token) && outcome.HttpError? ==>
        tasks == old(tasks) && error == Some(OrDefault(outcome.message, "Erro ao carregar tarefas."))
      ensures HasToken(token) && outcome.TransportError? ==>
        tasks == old(tasks) && error == Some("Erro de conexão ao carregar tarefas.")
    {
      loading := true;
      error := None;
      if !HasToken(token) {
        alerts := alerts + [Alert("Não autenticado", None)];
        loading := false;
        return;
      }
      sent := sent + [Request(GET, TasksUrl(challengeId), [Bearer(token.value)], None)];
      match outcome {
        case Ok(_, data) =>
          tasks := data;
        case HttpError(_, message) =>
          error := Some(OrDefault(message, "Erro ao carregar tarefas."));
        case TransportError(_) =>
          error := Some("Erro de conexão ao carregar tarefas.");
      }
      loading := false;
    }
  }
}
