/** The first revision of the notification scheduler's endpoints (backend/src/fcm.rs), over a
    SQLite table whose columns are all nullable. The token comes from the framework's Bearer
    scheme; the token decoder and the cron parser are parameters, and so is each database
    statement's failure. */
module BackendFcm {
  import opened Wrappers
  import Json
  import opened FcmUtils
  import FcmModel

  /** One row of the SQLite `fcm_schedule` table (`FCMSchedule` of this revision). */
  datatype BackendSchedule = BackendSchedule(
    id: int,
    name: Option<string>,
    fbUserId: Option<string>,
    pushToken: Option<string>,
    fbProjectId: Option<string>,
    cronPattern: Option<string>,
    payload: Json.Value,
    lastExecution: Option<Time>,
    nextExecution: Option<Time>,
    createdAt: Option<Time>,
    updatedAt: Option<Time>)

  /** The body of an update request: every field optional, the two identity fields included. */
  datatype BackendUpdate = BackendUpdate(
    name: Option<string>,
    fbUserId: Option<string>,
    fbProjectId: Option<string>,
    pushToken: Option<string>,
    cronPattern: Option<string>,
    payload: Option<Json.Value>)

  /** What an endpoint of this revision answers. `Panic` is a handler that panicked: the
      request gets no answer. */
  datatype Answer<T> =
    | Ok(data: T)
    | Unauthorized(error: string)
    | BadRequest(error: string)
    | NotFound(error: string)
    | ServerError(text: string)
    | Panic

  function Status<T>(a: Answer<T>): (code: Option<int>)
    ensures code.None? <==> a.Panic?
    ensures code == Some(200) <==> a.Ok?
    ensures code.Some? ==> 200 <= code.value < 600
    ensures a.Unauthorized? ==> code == Some(401)
    ensures a.BadRequest? ==> code == Some(400)
    ensures a.NotFound? ==> code == Some(404)
    ensures a.ServerError? ==> code == Some(500)
  {
    match a
    case Ok(_) => Some(200)
    case Unauthorized(_) => Some(401)
    case BadRequest(_) => Some(400)
    case NotFound(_) => Some(404)
    case ServerError(_) => Some(500)
    case Panic => None
  }

  const NotFoundMessage: string := "Schedule not found"

  /** The text of sqlx's error for a `fetch_one` that found no row. */
  const RowNotFound: string := "no rows returned by a query that expected to return at least one row"

  /** `extract_claims` of this revision: the Bearer token is decoded as it is, and every
      failure is "Unauthorized". */
  function ExtractBearerClaims(token: string, decode: string -> Option<Claims>): (r: Result<Claims, string>)
    ensures r.Success? <==> decode(token).Some?
    ensures r.Success? ==> r.value == decode(token).value
    ensures r.Failure? ==> r.error == "Unauthorized"
  {
    match decode(token)
    case Some(claims) => Success(claims)
    case None => Failure("Unauthorized")
  }

  /** The row the INSERT writes: the owner and the project come from the token. */
  function NewBackendRow(id: int, claims: Claims, body: BackendSchedule, next: Time, now: Time): (row: BackendSchedule)
    ensures row.id == id && row.fbUserId == Some(claims.userId) && row.fbProjectId == Some(claims.aud)
    ensures row.name == body.name && row.pushToken == body.pushToken && row.cronPattern == body.cronPattern
    ensures row.payload == body.payload && row.nextExecution == Some(next)
    ensures row.lastExecution == Some(now) && row.createdAt == Some(now) && row.updatedAt == Some(now)
  {
    BackendSchedule(id, body.name, Some(claims.userId), body.pushToken, Some(claims.aud), body.cronPattern,
                    body.payload, Some(now), Some(next), Some(now), Some(now))
  }

  /** The row after the UPDATE: the body's identity fields are ignored and the missing fields
      are written as NULL. The payload column is read back into a JSON value that cannot be
      NULL; a missing payload stands here as the JSON null. */
  function UpdatedBackendRow(row: BackendSchedule, u: BackendUpdate, next: Time, now: Time): (r: BackendSchedule)
    ensures r.id == row.id && r.fbUserId == row.fbUserId && r.fbProjectId == row.fbProjectId
    ensures r.lastExecution == row.lastExecution && r.createdAt == row.createdAt
    ensures r.name == u.name && r.pushToken == u.pushToken && r.cronPattern == u.cronPattern
    ensures r.payload == (if u.payload.Some? then u.payload.value else Json.Null)
    ensures r.nextExecution == Some(next) && r.updatedAt == Some(now)
  {
    row.(name := u.name, pushToken := u.pushToken, cronPattern := u.cronPattern,
         payload := u.payload.GetOr(Json.Null), nextExecution := Some(next), updatedAt := Some(now))
  }

  /** The row `id` exists and belongs to `user` (`WHERE id = ? AND fb_user_id = ?`; a NULL
      owner matches no one). */
  predicate OwnsRow(rows: map<int, BackendSchedule>, id: int, user: string) {
    id in rows && rows[id].fbUserId == Some(user)
  }

  /** `out` lists, once each, exactly the rows of `rows` that belong to `user`. */
  ghost predicate ListsOwnedRows(out: seq<BackendSchedule>, rows: map<int, BackendSchedule>, user: string) {
    && (forall i :: 0 <= i < |out| ==> out[i].id in rows && rows[out[i].id] == out[i] && out[i].fbUserId == Some(user))
    && (forall id :: id in rows && rows[id].fbUserId == Some(user) ==> rows[id] in out)
    && (forall i, j :: 0 <= i < j < |out| ==> out[i].id != out[j].id)
  }

  /** The SQLite `fcm_schedule` table: rows by rowid and the next rowid to hand out. */
  class BackendTable {
    var rows: map<int, BackendSchedule>
    var nextRowid: int

    ghost predicate Valid()
      reads this
    {
      forall id :: id in rows ==> rows[id].id == id && id < nextRowid
    }

    constructor ()
      ensures Valid() && rows == map[] && nextRowid == 1
    {
      rows := map[];
      nextRowid := 1;
    }

    /** `INSERT ... .execute(...).last_insert_rowid()`. */
    method Insert(row: BackendSchedule, error: Option<string>) returns (r: Result<int, string>)
      requires Valid()
      modifies this
      ensures Valid()
      ensures error.Some? ==> r == Failure(error.value) && rows == old(rows) && nextRowid == old(nextRowid)
      ensures error.None? ==>
                && r == Success(old(nextRowid)) && nextRowid == old(nextRowid) + 1
                && rows == old(rows)[old(nextRowid) := row.(id := old(nextRowid))]
    {
      if error.Some? {
        return Failure(error.value);
      }
      rows := rows[nextRowid := row.(id := nextRowid)];
      r := Success(nextRowid);
      nextRowid := nextRowid + 1;
    }

    /** `SELECT * ... WHERE id = ?` with `fetch_one`: the row, or the failure's text (a
        missing row is a failure too). */
    method SelectById(id: int, error: Option<string>) returns (r: Result<BackendSchedule, string>)
      ensures error.Some? ==> r == Failure(error.value)
      ensures error.None? && id in rows ==> r == Success(rows[id])
      ensures error.None? && id !in rows ==> r == Failure(RowNotFound)
    {
      if error.Some? {
        return Failure(error.value);
      }
      if id in rows {
        r := Success(rows[id]);
      } else {
        r := Failure(RowNotFound);
      }
    }

    /** `SELECT * ... WHERE id = ? AND fb_user_id = ?` with `fetch_one`, whose error the
        handlers drop. */
    method SelectOwned(id: int, user: string, fails: bool) returns (r: Option<BackendSchedule>)
      ensures r.Some? <==> !fails && OwnsRow(rows, id, user)
      ensures r.Some? ==> r.value == rows[id]
    {
      if !fails && OwnsRow(rows, id, user) {
        r := Some(rows[id]);
      } else {
        r := None;
      }
    }

    /** `SELECT * FROM fcm_schedule WHERE fb_user_id = ?`. */
    method SelectByUser(user: string) returns (out: seq<BackendSchedule>)
      requires Valid()
      ensures ListsOwnedRows(out, rows, user)
    {
      var keys := rows.Keys;
      out := [];
      while keys != {}
        invariant keys <= rows.Keys
        invariant forall i :: 0 <= i < |out| ==>
                    out[i].id in rows && rows[out[i].id] == out[i] && out[i].fbUserId == Some(user) && out[i].id !in keys
        invariant forall id :: id in rows && id !in keys && rows[id].fbUserId == Some(user) ==> rows[id] in out
        invariant forall i, j :: 0 <= i < j < |out| ==> out[i].id != out[j].id
        decreases keys
      {
        ghost var member := FcmModel.MemberOf(keys);
        var k :| k in keys;
        if rows[k].fbUserId == Some(user) {
          out := out + [rows[k]];
        }
        keys := keys - {k};
      }
    }

    /** `DELETE ... WHERE id = ? AND fb_user_id = ?`: the number of rows removed. */
    method DeleteOwned(id: int, user: string, error: Option<string>) returns (affected: Result<nat, string>)
      requires Valid()
      modifies this`rows
      ensures Valid()
      ensures error.Some? ==> affected == Failure(error.value) && rows == old(rows)
      ensures error.None? && OwnsRow(old(rows), id, user) ==> affected == Success(1) && rows == old(rows) - {id}
      ensures error.None? && !OwnsRow(old(rows), id, user) ==> affected == Success(0) && rows == old(rows)
    {
      if error.Some? {
        return Failure(error.value);
      }
      if OwnsRow(rows, id, user) {
        rows := rows - {id};
        affected := Success(1);
      } else {
        affected := Success(0);
      }
    }

    /** `UPDATE fcm_schedule SET ... WHERE id = ? AND fb_user_id = ?`. */
    method UpdateOwned(id: int, user: string, u: BackendUpdate, next: Time, now: Time, error: Option<string>)
      returns (affected: Result<nat, string>)
      requires Valid()
      modifies this`rows
      ensures Valid()
      ensures error.Some? ==> affected == Failure(error.value) && rows == old(rows)
      ensures error.None? && OwnsRow(old(rows), id, user) ==>
                affected == Success(1) && rows == old(rows)[id := UpdatedBackendRow(old(rows)[id], u, next, now)]
      ensures error.None? && !OwnsRow(old(rows), id, user) ==> affected == Success(0) && rows == old(rows)
    {
      if error.Some? {
        return Failure(error.value);
      }
      if OwnsRow(rows, id, user) {
        rows := rows[id := UpdatedBackendRow(rows[id], u, next, now)];
        affected := Success(1);
      } else {
        affected := Success(0);
      }
    }
  }

  /** The length limits the web framework checks on a create body of this revision before the
      handler runs, each on a field that is present: name 3..64, push token 32..128 and cron
      pattern 3..64 characters. */
  predicate ValidBackendBody(body: BackendSchedule) {
    && (body.name.Some? ==> 3 <= |body.name.value| <= 64)
    && (body.pushToken.Some? ==> 32 <= |body.pushToken.value| <= 128)
    && (body.cronPattern.Some? ==> 3 <= |body.cronPattern.value| <= 64)
  }

  /** What `create_schedule` answers before it writes, in the handler's order: the token,
      then the cron pattern, whose absence panics. On success, the claims and the first time
      the schedule fires. */
  function CreateOutcome(token: string, body: BackendSchedule, decode: string -> Option<Claims>,
                         cron: string -> CronOutcome): (r: Result<(Claims, Time), Answer<BackendSchedule>>)
    ensures r.Success? <==>
              decode(token).Some? && body.cronPattern.Some? && cron(body.cronPattern.value).Next?
    ensures r.Success? ==> r.value == (decode(token).value, cron(body.cronPattern.value).time)
    ensures r.Failure? ==> (r.error == Unauthorized("Unauthorized") <==> decode(token).None?)
    ensures r.Failure? && decode(token).Some? ==>
              r.error == (if body.cronPattern.None? then Panic else BadRequest("Invalid cron pattern"))
  {
    match ExtractBearerClaims(token, decode)
    case Failure(e) => Failure(Unauthorized(e))
    case Success(claims) =>
      if body.cronPattern.None? then Failure(Panic)
      else
        match DecodeCron(body.cronPattern.value, cron)
        case Failure(e) => Failure(BadRequest(e))
        case Success(next) => Success((claims, next))
  }

  /** `create_schedule`: inserts the body under the caller's ids, then reads the row back by
      its rowid. `insertError` and `reselectError` are the two statements' failures. */
  method CreateSchedule(table: BackendTable, token: string, body: BackendSchedule,
                        decode: string -> Option<Claims>, cron: string -> CronOutcome, now: Time,
                        insertError: Option<string>, reselectError: Option<string>)
    returns (r: Answer<BackendSchedule>)
    requires table.Valid() && ValidBackendBody(body)
    modifies table
    ensures table.Valid()
    ensures var c := CreateOutcome(token, body, decode, cron);
            c.Failure? ==> r == c.error && table.rows == old(table.rows) && table.nextRowid == old(table.nextRowid)
    ensures var c := CreateOutcome(token, body, decode, cron);
            c.Success? && insertError.Some? ==>
              r == ServerError(insertError.value) && table.rows == old(table.rows)
    ensures var c := CreateOutcome(token, body, decode, cron);
            c.Success? && insertError.None? ==>
              var row := NewBackendRow(old(table.nextRowid), c.value.0, body, c.value.1, now);
              && table.rows == old(table.rows)[row.id := row]
              && r == (if reselectError.Some? then ServerError(reselectError.value) else Ok(row))
  {
    var claims := ExtractBearerClaims(token, decode);
    if claims.Failure? {
      return Unauthorized(claims.error);
    }
    if body.cronPattern.None? {
      return Panic;
    }
    var next := DecodeCron(body.cronPattern.value, cron);
    if next.Failure? {
      return BadRequest(next.error);
    }
    var rowid := table.Insert(NewBackendRow(0, claims.value, body, next.value, now), insertError);
    if rowid.Failure? {
      return ServerError(rowid.error);
    }
    var schedule := table.SelectById(rowid.value, reselectError);
    if schedule.Failure? {
      return ServerError(schedule.error);
    }
    r := Ok(schedule.value);
  }

  /** `find_all_schedules`: the caller's schedules and no one else's. */
  method FindAllSchedules(table: BackendTable, token: string, decode: string -> Option<Claims>,
                          error: Option<string>)
    returns (r: Answer<seq<BackendSchedule>>)
    requires table.Valid()
    ensures decode(token).None? ==> r == Unauthorized("Unauthorized")
    ensures decode(token).Some? && error.Some? ==> r == ServerError(error.value)
    ensures decode(token).Some? && error.None? ==>
              r.Ok? && ListsOwnedRows(r.data, table.rows, decode(token).value.userId)
  {
    var claims := ExtractBearerClaims(token, decode);
    if claims.Failure? {
      return Unauthorized(claims.error);
    }
    var schedules := table.SelectByUser(claims.value.userId);
    if error.Some? {
      return ServerError(error.value);
    }
    r := Ok(schedules);
  }

  /** `delete_schedule`: removes the caller's schedule `id` and answers with the row as it
      was. The answer to a DELETE that removed nothing is left out: after the lookup found
      the row, nothing in this sequential model can remove it first. */
  method DeleteSchedule(table: BackendTable, token: string, id: int, decode: string -> Option<Claims>,
                        selectFails: bool, deleteError: Option<string>)
    returns (r: Answer<BackendSchedule>)
    requires table.Valid()
    modifies table`rows
    ensures table.Valid()
    ensures decode(token).None? ==> r == Unauthorized("Unauthorized") && table.rows == old(table.rows)
    ensures decode(token).Some? && (selectFails || !OwnsRow(old(table.rows), id, decode(token).value.userId)) ==>
              r == NotFound(NotFoundMessage) && table.rows == old(table.rows)
    ensures decode(token).Some? && !selectFails && OwnsRow(old(table.rows), id, decode(token).value.userId) ==>
              && (deleteError.Some? ==> r == ServerError(deleteError.value) && table.rows == old(table.rows))
              && (deleteError.None? ==> r == Ok(old(table.rows)[id]) && table.rows == old(table.rows) - {id})
  {
    var claims := ExtractBearerClaims(token, decode);
    if claims.Failure? {
      return Unauthorized(claims.error);
    }
    var user := claims.value.userId;
    var schedule := table.SelectOwned(id, user, selectFails);
    if schedule.None? {
      return NotFound(NotFoundMessage);
    }
    var result := table.DeleteOwned(id, user, deleteError);
    if result.Failure? {
      return ServerError(result.error);
    }
    r := Ok(schedule.value);
  }

  /** What `update_schedule` answers before it writes, in the handler's order: the token,
      the caller's ownership of the row, then the cron pattern, whose absence panics. */
  function UpdateOutcome(token: string, rows: map<int, BackendSchedule>, id: int, u: BackendUpdate,
                         decode: string -> Option<Claims>, cron: string -> CronOutcome, selectFails: bool)
    : (r: Result<(Claims, Time), Answer<BackendSchedule>>)
    ensures r.Success? <==>
              && decode(token).Some? && !selectFails && OwnsRow(rows, id, decode(token).value.userId)
              && u.cronPattern.Some? && cron(u.cronPattern.value).Next?
    ensures r.Success? ==> r.value == (decode(token).value, cron(u.cronPattern.value).time)
    ensures r.Failure? ==> (r.error == Unauthorized("Unauthorized") <==> decode(token).None?)
    ensures r.Failure? && decode(token).Some? ==>
              (r.error == NotFound(NotFoundMessage) <==> selectFails || !OwnsRow(rows, id, decode(token).value.userId))
    ensures r.Failure? && r.error.Panic? ==> u.cronPattern.None?
    ensures r.Failure? && decode(token).Some? && !selectFails && OwnsRow(rows, id, decode(token).value.userId) ==>
              r.error == (if u.cronPattern.None? then Panic else BadRequest("Invalid cron pattern"))
  {
    match ExtractBearerClaims(token, decode)
    case Failure(e) => Failure(Unauthorized(e))
    case Success(claims) =>
      if selectFails || !OwnsRow(rows, id, claims.userId) then Failure(NotFound(NotFoundMessage))
      else if u.cronPattern.None? then Failure(Panic)
      else
        match DecodeCron(u.cronPattern.value, cron)
        case Failure(e) => Failure(BadRequest(e))
        case Success(next) => Success((claims, next))
  }

  /** `update_schedule`: rewrites the caller's schedule `id` and answers with the row read
      back. */
  method UpdateSchedule(table: BackendTable, token: string, id: int, u: BackendUpdate,
                        decode: string -> Option<Claims>, cron: string -> CronOutcome, now: Time,
                        selectFails: bool, updateError: Option<string>, reselectFails: Option<string>)
    returns (r: Answer<BackendSchedule>)
    requires table.Valid()
    modifies table`rows
    ensures table.Valid()
    ensures var c := UpdateOutcome(token, old(table.rows), id, u, decode, cron, selectFails);
            c.Failure? ==> r == c.error && table.rows == old(table.rows)
    ensures var c := UpdateOutcome(token, old(table.rows), id, u, decode, cron, selectFails);
            c.Success? && updateError.Some? ==> r == ServerError(updateError.value) && table.rows == old(table.rows)
    ensures var c := UpdateOutcome(token, old(table.rows), id, u, decode, cron, selectFails);
            c.Success? && updateError.None? ==>
              && table.rows == old(table.rows)[id := UpdatedBackendRow(old(table.rows)[id], u, c.value.1, now)]
              && r == (if reselectFails.Some? then ServerError(reselectFails.value) else Ok(table.rows[id]))
  {
    var claims := ExtractBearerClaims(token, decode);
    if claims.Failure? {
      return Unauthorized(claims.error);
    }
    var user := claims.value.userId;
    var schedule := table.SelectOwned(id, user, selectFails);
    if schedule.None? {
      return NotFound(NotFoundMessage);
    }
    if u.cronPattern.None? {
      return Panic;
    }
    var next := DecodeCron(u.cronPattern.value, cron);
    if next.Failure? {
      return BadRequest(next.error);
    }
    var result := table.UpdateOwned(id, user, u, next.value, now, updateError);
    if result.Failure? {
      return ServerError(result.error);
    }
    var updated := table.SelectOwned(id, user, reselectFails.Some?);
    if updated.None? {
      return ServerError(reselectFails.value);
    }
    r := Ok(updated.value);
  }
}
