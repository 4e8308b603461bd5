/** The first revision of the notification sender (backend/src/fcm_loop.rs). It differs from
    the later worker in what it sends: the stored payload's entries go out as they are, JSON
    values and all, with no notification part. The schedule type it reads is declared in a
    file that is not part of this model; the schedule of `FcmModel` stands for it. */
module BackendFcmLoop {
  import opened Wrappers
  import Json
  import opened FcmUtils
  import opened FcmModel
  import opened SchedulerPass
  import FcmWorker

  /** `FCMBody` and `FCM` of this revision: data entries and the device token. */
  datatype LoopBody = LoopBody(data: map<string, Json.Value>, token: string)

  datatype LoopFcm = LoopFcm(message: LoopBody)

  /** A POST to Firebase: the endpoint, the Authorization header and the JSON body. */
  datatype LoopRequest = LoopRequest(endpoint: string, authorization: string, message: LoopFcm)

  /** What this sender depends on outside the model. */
  datatype LoopEnv = LoopEnv(
    authProjects: set<string>,                              // projects with a service account
    getToken: string -> Option<string>,                     // an OAuth token for a project
    send: LoopRequest -> FcmWorker.SendOutcome,             // the HTTP client
    parseObject: string -> Option<map<string, Json.Value>>, // a string payload as a JSON object
    cron: string -> CronOutcome,                            // `parse(pattern, now)`
    updateError: int -> Option<string>)                     // the UPDATE failing for an id

  /** The data entries sent for a stored payload: an object's entries unchanged; a string
      parsed as an object (no entries when it does not parse); anything else, no entries. */
  function LoopData(payload: Json.Value, parseObject: string -> Option<map<string, Json.Value>>)
    : (d: map<string, Json.Value>)
    ensures payload.Object? ==> d == payload.fields
    ensures payload.Str? ==> d == parseObject(payload.s).GetOr(map[])
    ensures !payload.Object? && !payload.Str? ==> d == map[]
  {
    match payload
    case Object(f) => f
    case Str(s) => parseObject(s).GetOr(map[])
    case _ => map[]
  }

  /** The loop that copies an object payload's entries. */
  method CopyData(payload: Json.Value, parseObject: string -> Option<map<string, Json.Value>>)
    returns (data: map<string, Json.Value>)
    ensures data == LoopData(payload, parseObject)
  {
    data := map[];
    match payload {
      case Object(fields) =>
        var keys := fields.Keys;
        while keys != {}
          invariant keys <= fields.Keys
          invariant data.Keys == fields.Keys - keys
          invariant forall k :: k in data ==> data[k] == fields[k]
          decreases keys
        {
          ghost var member := MemberOf(keys);
          var key :| key in keys;
          data := data[key := fields[key]];
          keys := keys - {key};
        }
      case Str(s) =>
        data := parseObject(s).GetOr(map[]);
      case _ =>
    }
  }

  /** The request sent for a due schedule, or None when it is skipped before sending. */
  function LoopCompose(msg: Schedule, env: LoopEnv): (r: Option<LoopRequest>)
    ensures r.Some? <==>
              && msg.fbProjectId in env.authProjects
              && env.getToken(msg.fbProjectId).Some?
              && FcmWorker.AuthorizationValue(env.getToken(msg.fbProjectId).value).Some?
    ensures r.Some? ==>
              && r.value.endpoint == FcmWorker.Endpoint(msg.fbProjectId)
              && r.value.authorization == BearerPrefix + env.getToken(msg.fbProjectId).value
              && r.value.message == LoopFcm(LoopBody(LoopData(msg.payload, env.parseObject), msg.pushToken))
  {
    if msg.fbProjectId !in env.authProjects then None
    else
      match env.getToken(msg.fbProjectId)
      case None => None
      case Some(token) =>
        match FcmWorker.AuthorizationValue(token)
        case None => None
        case Some(header) =>
          Some(LoopRequest(FcmWorker.Endpoint(msg.fbProjectId), header,
                           LoopFcm(LoopBody(LoopData(msg.payload, env.parseObject), msg.pushToken))))
  }

  /** What this sender does with one due schedule; the same rule as the later worker's. */
  function LoopStep(m: Schedule, env: LoopEnv): (r: StepResult<LoopRequest>)
    ensures r.sent == LoopCompose(m, env)
    ensures r.advance.Some? <==>
              && r.sent.Some? && !env.send(r.sent.value).TransportError?
              && env.cron(m.cronPattern).Next? && env.updateError(m.id).None?
    ensures r.advance.Some? ==> r.advance.value == (m.id, env.cron(m.cronPattern).time)
    ensures r.halted <==> r.sent.Some? && !env.send(r.sent.value).TransportError? && env.cron(m.cronPattern).Panicked?
  {
    match LoopCompose(m, env)
    case None => StepResult(None, None, false)
    case Some(request) =>
      if env.send(request).TransportError? then StepResult(Some(request), None, false)
      else
        match env.cron(m.cronPattern)
        case Panicked => StepResult(Some(request), None, true)
        case ParseError(_) => StepResult(Some(request), None, false)
        case Next(t) =>
          StepResult(Some(request), if env.updateError(m.id).None? then Some((m.id, t)) else None, false)
  }

  function LoopStepOf(env: LoopEnv): (step: Schedule -> StepResult<LoopRequest>)
    ensures forall m :: step(m) == LoopStep(m, env)
    ensures MovesOwnRow(step)
  {
    m => LoopStep(m, env)
  }

  /** What one pass does to a due schedule's row, as for the later worker: moved to its
      pattern's next time and stamped with the pass's time when reached before a panic and
      its step moves it; kept as it was when its step does not. Every request of a schedule
      reached before a panic is among those sent. */
  lemma LoopPassOutcome(rows: map<int, Schedule>, msgs: seq<Schedule>, env: LoopEnv, dbNow: Time,
                        currentTime: Time, i: int)
    requires ListsExactly(msgs, rows, Due(dbNow)) && 0 <= i < |msgs|
    ensures !Run(msgs[..i], LoopStepOf(env)).halted && LoopStep(msgs[i], env).advance.Some? ==>
              Apply(rows, Run(msgs, LoopStepOf(env)).advances, currentTime)[msgs[i].id] ==
                AdvancedRow(rows[msgs[i].id], env.cron(msgs[i].cronPattern).time, currentTime)
    ensures LoopStep(msgs[i], env).advance.None? ==>
              Apply(rows, Run(msgs, LoopStepOf(env)).advances, currentTime)[msgs[i].id] == rows[msgs[i].id]
    ensures !Run(msgs[..i], LoopStepOf(env)).halted && LoopCompose(msgs[i], env).Some? ==>
              LoopCompose(msgs[i], env).value in Run(msgs, LoopStepOf(env)).sent
  {
    PassOutcome(rows, msgs, LoopStepOf(env), dbNow, currentTime, i);
    if !Run(msgs[..i], LoopStepOf(env)).halted {
      RunComplete(msgs, LoopStepOf(env), i);
    }
  }

  /** The body of the loop for one due schedule. */
  method ProcessLoopMessage(table: ScheduleTable, msg: Schedule, env: LoopEnv, currentTime: Time)
    returns (sent: Option<LoopRequest>, halted: bool)
    requires table.Valid()
    modifies table`rows
    ensures table.Valid()
    ensures sent == LoopStep(msg, env).sent && halted == LoopStep(msg, env).halted
    ensures LoopStep(msg, env).advance.None? ==> table.rows == old(table.rows)
    ensures LoopStep(msg, env).advance.Some? ==>
              table.rows == AdvanceWhere(old(table.rows), msg.id, LoopStep(msg, env).advance.value.1, currentTime)
  {
    sent := None;
    halted := false;
    var project := msg.fbProjectId;
    if project !in env.authProjects {
      return;
    }
    var token := env.getToken(project);
    if token.None? {
      return;
    }
    var data := CopyData(msg.payload, env.parseObject);
    var header := FcmWorker.AuthorizationValue(token.value);
    if header.None? {
      return;
    }
    var request := LoopRequest(FcmWorker.Endpoint(project), header.value, LoopFcm(LoopBody(data, msg.pushToken)));
    sent := Some(request);
    var response := env.send(request);
    if response.TransportError? {
      return;
    }
    match env.cron(msg.cronPattern) {
      case Panicked =>
        halted := true;
      case ParseError(_) =>
      case Next(next) =>
        var _ := table.Advance(msg.id, next, currentTime, env.updateError(msg.id));
    }
  }

  /** One iteration of this revision's `run_every_minute`. */
  method PollOnce(table: ScheduleTable, env: LoopEnv, currentTime: Time, dbNow: Time, selectFails: bool)
    returns (messages: seq<Schedule>, sent: seq<LoopRequest>, halted: bool)
    requires table.Valid()
    modifies table`rows
    ensures table.Valid()
    ensures selectFails ==> messages == []
    ensures !selectFails ==> ListsExactly(messages, old(table.rows), Due(dbNow))
    ensures sent == Run(messages, LoopStepOf(env)).sent && halted == Run(messages, LoopStepOf(env)).halted
    ensures table.rows == Apply(old(table.rows), Run(messages, LoopStepOf(env)).advances, currentTime)
  {
    if selectFails {
      messages := [];
    } else {
      messages := table.SelectWhere(Due(dbNow));
    }
    sent := [];
    halted := false;
    var i := 0;
    while i < |messages| && !halted
      invariant 0 <= i <= |messages|
      invariant table.Valid()
      invariant sent == Run(messages[..i], LoopStepOf(env)).sent && halted == Run(messages[..i], LoopStepOf(env)).halted
      invariant table.rows == Apply(old(table.rows), Run(messages[..i], LoopStepOf(env)).advances, currentTime)
    {
      ghost var before := Run(messages[..i], LoopStepOf(env));
      RunExtends(messages, i, LoopStepOf(env));
      ApplyExtends(old(table.rows), before.advances, LoopStep(messages[i], env).advance, currentTime);
      var request, stop := ProcessLoopMessage(table, messages[i], env, currentTime);
      sent := sent + OptionSeq(request);
      halted := stop;
      i := i + 1;
    }
    RunOfPrefix(messages, i, LoopStepOf(env));
  }
}
