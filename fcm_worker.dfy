/** The background sender of the notification scheduler (src/fcm/worker.rs): every minute it
    reads the due schedules, sends each one to Firebase Cloud Messaging and moves its next
    execution forward. The service accounts, the HTTP client, the JSON parser and the cron
    parser are outside the model and appear as the fields of `Env`. */
module FcmWorker {
  import opened Wrappers
  import Json
  import opened FcmUtils
  import opened FcmModel
  import opened SchedulerPass

  /** `Notification`: what the device shows. */
  datatype Notification = Notification(title: Option<string>, body: Option<string>) {
    /** `is_empty`: neither a title nor a body. */
    predicate IsEmpty() {
      title.None? && body.None?
    }
  }

  /** `FCMBody` and `Fcm`: the message of a send request. */
  datatype FcmBody = FcmBody(notification: Notification, data: map<string, string>, token: string)

  datatype Fcm = Fcm(message: FcmBody)

  /** The message as it goes over the wire: an empty notification is not written at all. */
  datatype WireBody = WireBody(notification: Option<Notification>, data: map<string, string>, token: string)

  function Wire(b: FcmBody): (w: WireBody)
    ensures w.notification.Some? <==> !b.notification.IsEmpty()
    ensures w.notification.Some? ==> w.notification.value == b.notification
    ensures w.data == b.data && w.token == b.token
  {
    WireBody(if b.notification.IsEmpty() then None else Some(b.notification), b.data, b.token)
  }

  /** How a receiver reads a wire message back: a missing notification is an empty one. */
  function Unwire(w: WireBody): FcmBody {
    FcmBody(w.notification.GetOr(Notification(None, None)), w.data, w.token)
  }

  /** Leaving out an empty notification loses nothing. */
  lemma WireRoundTrip(b: FcmBody)
    ensures Unwire(Wire(b)) == b
  {
  }

  // ---- JSON text of a payload value ----

  function HexDigit(d: int): (c: char)
    requires 0 <= d < 16
    ensures '0' <= c <= '9' || 'a' <= c <= 'f'
  {
    if d < 10 then ('0' as int + d) as char else ('a' as int + d - 10) as char
  }

  /** serde_json's escape for one character of a string literal. */
  function EscapeChar(c: char): (r: string)
    ensures |r| >= 1
    ensures r == [c] <==> c != '"' && c != '\\' && c as int >= 0x20
  {
    if c == '"' then "\\\""
    else if c == '\\' then "\\\\"
    else if c as int == 0x08 then "\\b"
    else if c as int == 0x0c then "\\f"
    else if c == '\n' then "\\n"
    else if c == '\r' then "\\r"
    else if c == '\t' then "\\t"
    else if c as int < 0x20 then "\\u00" + [HexDigit(c as int / 16), HexDigit(c as int % 16)]
    else [c]
  }

  /** A character that needs no escape. */
  predicate Plain(c: char) {
    c != '"' && c != '\\' && c as int >= 0x20
  }

  function Escape(s: string): (r: string)
    ensures |r| >= |s|
    ensures (forall i :: 0 <= i < |s| ==> Plain(s[i])) ==> r == s
  {
    if s == [] then [] else EscapeChar(s[0]) + Escape(s[1..])
  }

  /** The JSON text of a string: quotes around the escaped characters. */
  function Quote(s: string): (r: string)
    ensures |r| >= |s| + 2 && r[0] == '"' && r[|r| - 1] == '"'
  {
    "\"" + Escape(s) + "\""
  }

  /** `value.to_string()` as the worker applies it to each payload value: a JSON string
      comes out as JSON text, quotes and all; `render` is serde_json's text of any other value. */
  function TextAsWritten(v: Json.Value, render: Json.Value -> string): (t: string)
    ensures v.Str? ==> t == Quote(v.s)
    ensures !v.Str? ==> t == render(v)
  {
    match v
    case Str(s) => Quote(s)
    case _ => render(v)
  }

  /** The text of a payload value as a data entry is meant to carry it: a string as itself,
      any other value as its JSON text. */
  function Text(v: Json.Value, render: Json.Value -> string): (t: string)
    ensures v.Str? ==> t == v.s
    ensures !v.Str? ==> t == render(v) && t == TextAsWritten(v, render)
  {
    match v
    case Str(s) => s
    case _ => render(v)
  }

  /** The data entries the worker builds from a stored payload, as written: an object's values
      through `TextAsWritten`; a string parsed as an object of strings (`parseMap`, None when
      it does not parse, which gives no entries); anything else, no entries. */
  function DataAsWritten(payload: Json.Value, parseMap: string -> Option<map<string, string>>,
                         render: Json.Value -> string): (d: map<string, string>)
    ensures payload.Object? ==> d.Keys == payload.fields.Keys
    ensures payload.Object? ==> forall k :: k in d ==> d[k] == TextAsWritten(payload.fields[k], render)
    ensures payload.Str? ==> d == parseMap(payload.s).GetOr(map[])
    ensures !payload.Object? && !payload.Str? ==> d == map[]
  {
    match payload
    case Object(f) => map k | k in f :: TextAsWritten(f[k], render)
    case Str(s) => parseMap(s).GetOr(map[])
    case _ => map[]
  }

  /** The data entries with strings carried as themselves; otherwise as `DataAsWritten`. */
  function DataOf(payload: Json.Value, parseMap: string -> Option<map<string, string>>,
                  render: Json.Value -> string): (d: map<string, string>)
    ensures payload.Object? ==> d.Keys == payload.fields.Keys
    ensures payload.Object? ==> forall k :: k in d ==> d[k] == Text(payload.fields[k], render)
    ensures !payload.Object? ==> d == DataAsWritten(payload, parseMap, render)
  {
    match payload
    case Object(f) => map k | k in f :: Text(f[k], render)
    case Str(s) => parseMap(s).GetOr(map[])
    case _ => map[]
  }

  /** The loop that copies an object payload into the data entries, as written. */
  method BuildData(payload: Json.Value, parseMap: string -> Option<map<string, string>>,
                   render: Json.Value -> string) returns (data: map<string, string>)
    ensures data == DataAsWritten(payload, parseMap, render)
  {
    data := map[];
    match payload {
      case Object(fields) =>
        var keys := fields.Keys;
        while keys != {}
          invariant keys <= fields.Keys
          invariant data.Keys == fields.Keys - keys
          invariant forall k :: k in data ==> data[k] == TextAsWritten(fields[k], render)
          decreases keys
        {
          ghost var member := MemberOf(keys);
          var key :| key in keys;
          data := data[key := TextAsWritten(fields[key], render)];
          keys := keys - {key};
        }
      case Str(s) =>
        data := parseMap(s).GetOr(map[]);
      case _ =>
    }
  }

  // ---- notification and data ----

  /** Takes the `title` and `body` entries out of the data into the notification. */
  function SplitNotification(data: map<string, string>): (r: (Notification, map<string, string>))
    ensures r.0.title.Some? <==> "title" in data
    ensures r.0.title.Some? ==> r.0.title.value == data["title"]
    ensures r.0.body.Some? <==> "body" in data
    ensures r.0.body.Some? ==> r.0.body.value == data["body"]
    ensures "title" !in r.1 && "body" !in r.1
    ensures forall k :: k in r.1 <==> k in data && k != "title" && k != "body"
    ensures forall k :: k in r.1 ==> r.1[k] == data[k]
  {
    var title := if "title" in data then Some(data["title"]) else None;
    var body := if "body" in data then Some(data["body"]) else None;
    (Notification(title, body), data - {"title", "body"})
  }

  /** Puts a notification's parts back among the data entries. */
  function Rejoin(n: Notification, data: map<string, string>): map<string, string> {
    var withTitle := if n.title.Some? then data["title" := n.title.value] else data;
    if n.body.Some? then withTitle["body" := n.body.value] else withTitle
  }

  /** Splitting loses no entry: the notification and the rest give back the data. */
  lemma SplitRejoin(data: map<string, string>)
    ensures var (n, rest) := SplitNotification(data); Rejoin(n, rest) == data
  {
    var (n, rest) := SplitNotification(data);
    var back := Rejoin(n, rest);
    assert back.Keys == data.Keys;
    forall k | k in data
      ensures back[k] == data[k]
    {
      if k != "title" && k != "body" {
        assert k in rest;
      }
    }
  }

  // ---- the send request ----

  /** A byte an HTTP header value may hold: visible, or a tab; characters past ASCII are
      sent as bytes from 0x80 up, which are allowed too. */
  predicate HeaderChar(c: char) {
    (c as int >= 32 && c as int != 127) || c == '\t'
  }

  /** `format!("Bearer {}", token).parse()` into a header value. */
  function AuthorizationValue(token: string): (r: Option<string>)
    ensures r.Some? <==> forall i :: 0 <= i < |token| ==> HeaderChar(token[i])
    ensures r.Some? ==> r.value == BearerPrefix + token
  {
    var text := BearerPrefix + token;
    assert forall i :: 0 <= i < |BearerPrefix| ==> HeaderChar(text[i]);
    assert forall i :: 0 <= i < |token| ==> text[|BearerPrefix| + i] == token[i];
    if forall i :: 0 <= i < |text| ==> HeaderChar(text[i]) then Some(text) else None
  }

  const ApiPrefix: string := "https://fcm.googleapis.com/v1/projects/"
  const SendSuffix: string := "/messages:send"

  /** The send endpoint of a Firebase project. */
  function Endpoint(project: string): (e: string)
    ensures |e| == |ApiPrefix| + |project| + |SendSuffix|
    ensures e[..|ApiPrefix|] == ApiPrefix && e[|ApiPrefix|..|ApiPrefix| + |project|] == project
    ensures e[|ApiPrefix| + |project|..] == SendSuffix
  {
    ApiPrefix + project + SendSuffix
  }

  /** Different projects are sent to different endpoints. */
  lemma EndpointInjective(a: string, b: string)
    ensures Endpoint(a) == Endpoint(b) ==> a == b
  {
    if Endpoint(a) == Endpoint(b) {
      assert |a| == |b|;
      assert a == Endpoint(a)[|ApiPrefix|..|ApiPrefix| + |a|];
    }
  }

  /** A POST to Firebase: the endpoint, the Authorization header and the JSON body. */
  datatype Request = Request(endpoint: string, authorization: string, message: Fcm)

  /** What sending a request gives: no answer at all, or an HTTP status, successful or not. */
  datatype SendOutcome = TransportError | Response(success: bool)

  /** What the worker depends on outside the model. */
  datatype Env = Env(
    authProjects: set<string>,                          // projects with a service account
    getToken: string -> Option<string>,                 // an OAuth token for a project
    send: Request -> SendOutcome,                       // the HTTP client
    parseMap: string -> Option<map<string, string>>,    // a string payload as an object of strings
    render: Json.Value -> string,                       // serde_json's text of a non-string value
    cron: string -> CronOutcome,                        // `parse(pattern, now)`
    updateError: int -> Option<string>)                 // the worker's UPDATE failing for an id

  /** The request sent for a due schedule, or None when it is skipped before sending: no
      service account for its project, no token, or a token not allowed in a header. */
  function Compose(msg: Schedule, env: Env): (r: Option<Request>)
    ensures r.Some? <==>
              && msg.fbProjectId in env.authProjects
              && env.getToken(msg.fbProjectId).Some?
              && AuthorizationValue(env.getToken(msg.fbProjectId).value).Some?
    ensures r.Some? ==>
              && r.value.endpoint == Endpoint(msg.fbProjectId)
              && r.value.authorization == BearerPrefix + env.getToken(msg.fbProjectId).value
              && r.value.message.message.token == msg.pushToken
              && (r.value.message.message.notification, r.value.message.message.data)
                 == SplitNotification(DataAsWritten(msg.payload, env.parseMap, env.render))
  {
    if msg.fbProjectId !in env.authProjects then None
    else
      match env.getToken(msg.fbProjectId)
      case None => None
      case Some(token) =>
        var (notification, data) := SplitNotification(DataAsWritten(msg.payload, env.parseMap, env.render));
        match AuthorizationValue(token)
        case None => None
        case Some(header) =>
          Some(Request(Endpoint(msg.fbProjectId), header, Fcm(FcmBody(notification, data, msg.pushToken))))
  }

  /** What the worker does with one due schedule. A schedule moves forward only when its
      request got an HTTP answer, successful or not, its pattern gives a next time and the
      UPDATE succeeds; a panic of the cron parser ends the worker. */
  function Step(m: Schedule, env: Env): (r: StepResult<Request>)
    ensures r.sent == Compose(m, env)
    ensures r.advance.Some? <==>
              && r.sent.Some? && !env.send(r.sent.value).TransportError?
              && env.cron(m.cronPattern).Next? && env.updateError(m.id).None?
    ensures r.advance.Some? ==> r.advance.value == (m.id, env.cron(m.cronPattern).time)
    ensures r.halted <==> r.sent.Some? && !env.send(r.sent.value).TransportError? && env.cron(m.cronPattern).Panicked?
  {
    match Compose(m, env)
    case None => StepResult(None, None, false)
    case Some(request) =>
      if env.send(request).TransportError? then StepResult(Some(request), None, false)
      else
        match env.cron(m.cronPattern)
        case Panicked => StepResult(Some(request), None, true)
        case ParseError(_) => StepResult(Some(request), None, false)
        case Next(t) =>
          StepResult(Some(request), if env.updateError(m.id).None? then Some((m.id, t)) else None, false)
  }

  /** The worker's step as the function a pass applies. */
  function StepOf(env: Env): (step: Schedule -> StepResult<Request>)
    ensures forall m :: step(m) == Step(m, env)
    ensures MovesOwnRow(step)
  {
    m => Step(m, env)
  }

  /** Every schedule the worker moves forward moves to the time its own pattern gives, and
      every request it sends is the one composed for one of the due schedules. */
  lemma WorkerPassFaithful(msgs: seq<Schedule>, env: Env)
    ensures forall j :: 0 <= j < |Run(msgs, StepOf(env)).advances| ==>
              exists i :: 0 <= i < |msgs| && msgs[i].id == Run(msgs, StepOf(env)).advances[j].0 &&
                          env.cron(msgs[i].cronPattern) == Next(Run(msgs, StepOf(env)).advances[j].1)
    ensures forall j :: 0 <= j < |Run(msgs, StepOf(env)).sent| ==>
              exists i :: 0 <= i < |msgs| && Compose(msgs[i], env) == Some(Run(msgs, StepOf(env)).sent[j])
  {
    var run := Run(msgs, StepOf(env));
    AdvancesComeFromSteps(msgs, StepOf(env));
    SentComeFromSteps(msgs, StepOf(env));
    forall j | 0 <= j < |run.advances|
      ensures exists i :: 0 <= i < |msgs| && msgs[i].id == run.advances[j].0 &&
                          env.cron(msgs[i].cronPattern) == Next(run.advances[j].1)
    {
      var i :| 0 <= i < |msgs| && StepOf(env)(msgs[i]).advance == Some(run.advances[j]);
      assert Step(msgs[i], env).advance == Some(run.advances[j]);
    }
  }

  /** Conversely, every schedule the worker reaches before a panic has its request sent and
      its move made, whenever its step makes them: a pass that skips work satisfies neither. */
  lemma WorkerPassComplete(msgs: seq<Schedule>, env: Env)
    ensures forall i :: 0 <= i < |msgs| && !Run(msgs[..i], StepOf(env)).halted && Compose(msgs[i], env).Some? ==>
              Compose(msgs[i], env).value in Run(msgs, StepOf(env)).sent
    ensures forall i :: 0 <= i < |msgs| && !Run(msgs[..i], StepOf(env)).halted && Step(msgs[i], env).advance.Some? ==>
              (msgs[i].id, env.cron(msgs[i].cronPattern).time) in Run(msgs, StepOf(env)).advances
  {
    forall i | 0 <= i < |msgs| && !Run(msgs[..i], StepOf(env)).halted
      ensures Compose(msgs[i], env).Some? ==> Compose(msgs[i], env).value in Run(msgs, StepOf(env)).sent
      ensures Step(msgs[i], env).advance.Some? ==>
                (msgs[i].id, env.cron(msgs[i].cronPattern).time) in Run(msgs, StepOf(env)).advances
    {
      RunComplete(msgs, StepOf(env), i);
    }
  }

  /** What one pass does to a due schedule's row: a schedule reached before a panic whose
      request got an HTTP answer, whose pattern gives a next time and whose UPDATE succeeds
      ends with that next time and the pass's time stamped on it; a schedule whose step does
      not move it keeps its row. */
  lemma WorkerPassOutcome(rows: map<int, Schedule>, msgs: seq<Schedule>, env: Env, dbNow: Time,
                          currentTime: Time, i: int)
    requires ListsExactly(msgs, rows, Due(dbNow)) && 0 <= i < |msgs|
    ensures !Run(msgs[..i], StepOf(env)).halted && Step(msgs[i], env).advance.Some? ==>
              Apply(rows, Run(msgs, StepOf(env)).advances, currentTime)[msgs[i].id] ==
                AdvancedRow(rows[msgs[i].id], env.cron(msgs[i].cronPattern).time, currentTime)
    ensures Step(msgs[i], env).advance.None? ==>
              Apply(rows, Run(msgs, StepOf(env)).advances, currentTime)[msgs[i].id] == rows[msgs[i].id]
  {
    PassOutcome(rows, msgs, StepOf(env), dbNow, currentTime, i);
  }

  /** The body of the worker's loop for one due schedule: returns the request sent, if any,
      and whether the cron parser panicked. */
  method ProcessMessage(table: ScheduleTable, msg: Schedule, env: Env, currentTime: Time)
    returns (sent: Option<Request>, halted: bool)
    requires table.Valid()
    modifies table`rows
    ensures table.Valid()
    ensures sent == Step(msg, env).sent && halted == Step(msg, env).halted
    ensures Step(msg, env).advance.None? ==> table.rows == old(table.rows)
    ensures Step(msg, env).advance.Some? ==>
              table.rows == AdvanceWhere(old(table.rows), msg.id, Step(msg, env).advance.value.1, currentTime)
  {
    sent := None;
    halted := false;
    var project := msg.fbProjectId;
    if project !in env.authProjects {
      return;
    }
    var token := env.getToken(project);
    if token.None? {
      return;
    }
    var data := BuildData(msg.payload, env.parseMap, env.render);
    var (notification, rest) := SplitNotification(data);
    var header := AuthorizationValue(token.value);
    if header.None? {
      return;
    }
    var request := Request(Endpoint(project), header.value, Fcm(FcmBody(notification, rest, msg.pushToken)));
    sent := Some(request);
    var response := env.send(request);
    if response.TransportError? {
      return;
    }
    match env.cron(msg.cronPattern) {
      case Panicked =>
        halted := true;
      case ParseError(_) =>
      case Next(next) =>
        var _ := table.Advance(msg.id, next, currentTime, env.updateError(msg.id));
    }
  }

  /** One iteration of `run_every_minute`: read the schedules due at the database's time
      `dbNow` (a failed read gives none), then send and move forward each one, stamping the
      moved rows with `currentTime`. Returns the schedules read, the requests sent and whether
      the cron parser panicked. */
  method PollOnce(table: ScheduleTable, env: Env, currentTime: Time, dbNow: Time, selectFails: bool)
    returns (messages: seq<Schedule>, sent: seq<Request>, halted: bool)
    requires table.Valid()
    modifies table`rows
    ensures table.Valid()
    ensures selectFails ==> messages == []
    ensures !selectFails ==> ListsExactly(messages, old(table.rows), Due(dbNow))
    ensures sent == Run(messages, StepOf(env)).sent && halted == Run(messages, StepOf(env)).halted
    ensures table.rows == Apply(old(table.rows), Run(messages, StepOf(env)).advances, currentTime)
  {
    if selectFails {
      messages := [];
    } else {
      messages := table.SelectWhere(Due(dbNow));
    }
    sent := [];
    halted := false;
    var i := 0;
    while i < |messages| && !halted
      invariant 0 <= i <= |messages|
      invariant table.Valid()
      invariant sent == Run(messages[..i], StepOf(env)).sent && halted == Run(messages[..i], StepOf(env)).halted
      invariant table.rows == Apply(old(table.rows), Run(messages[..i], StepOf(env)).advances, currentTime)
    {
      ghost var before := Run(messages[..i], StepOf(env));
      RunExtends(messages, i, StepOf(env));
      ApplyExtends(old(table.rows), before.advances, Step(messages[i], env).advance, currentTime);
      var request, stop := ProcessMessage(table, messages[i], env, currentTime);
      sent := sent + OptionSeq(request);
      halted := stop;
      i := i + 1;
    }
    RunOfPrefix(messages, i, StepOf(env));
  }

  // ---- the quoted strings ----

  /** As written, a string payload value reaches the device with its JSON quotes: the payload
      {"title": "Reminder"} gives the title "\"Reminder\"", and so does every title made of
      characters JSON needs no escape for. */
  lemma TitleQuotedAsWritten(title: string, parseMap: string -> Option<map<string, string>>,
                             render: Json.Value -> string)
    requires forall i :: 0 <= i < |title| ==> Plain(title[i])
    ensures var payload := Json.Object(map["title" := Json.Str(title)]);
            var shown := SplitNotification(DataAsWritten(payload, parseMap, render)).0.title;
            shown == Some("\"" + title + "\"") && shown != Some(title)
  {
    var payload := Json.Object(map["title" := Json.Str(title)]);
    var data := DataAsWritten(payload, parseMap, render);
    assert data["title"] == TextAsWritten(Json.Str(title), render) == Quote(title);
    assert |"\"" + title + "\""| != |title|;
  }

  /** The two data maps differ in string values only, where the written one has the JSON
      text of the string the corrected one carries. */
  lemma AsWrittenQuotesStrings(payload: Json.Value, parseMap: string -> Option<map<string, string>>,
                               render: Json.Value -> string)
    ensures DataAsWritten(payload, parseMap, render).Keys == DataOf(payload, parseMap, render).Keys
    ensures payload.Object? ==> forall k :: k in payload.fields ==>
              DataAsWritten(payload, parseMap, render)[k] ==
                if payload.fields[k].Str? then Quote(DataOf(payload, parseMap, render)[k])
                else DataOf(payload, parseMap, render)[k]
    ensures !payload.Object? ==> DataAsWritten(payload, parseMap, render) == DataOf(payload, parseMap, render)
  {
  }

  /** With strings carried as themselves, every string entry of an object payload reaches the
      device unchanged, as title, body or data entry. */
  lemma StringsReachDevice(payload: Json.Value, parseMap: string -> Option<map<string, string>>,
                           render: Json.Value -> string, key: string)
    requires payload.Object? && key in payload.fields && payload.fields[key].Str?
    ensures var (n, rest) := SplitNotification(DataOf(payload, parseMap, render));
            var s := payload.fields[key].s;
            && (key == "title" ==> n.title == Some(s))
            && (key == "body" ==> n.body == Some(s))
            && (key != "title" && key != "body" ==> key in rest && rest[key] == s)
  {
  }
}
