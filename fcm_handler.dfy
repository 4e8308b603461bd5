/** The four endpoints of the notification scheduler (src/fcm/handler.rs): create, list,
    delete and update a schedule, each on behalf of the Firebase user named by the
    `firebase-auth` token. The token decoder and the cron parser are parameters; each
    database statement's failure is a parameter too (its error text, or a flag where
    the handler drops the text). */
module FcmHandler {
  import opened Wrappers
  import Json
  import opened Utils
  import opened FcmUtils
  import opened FcmModel

  /** The checks `create_schedule` makes before it writes, in their order: the token, its
      project, the payload's shape and the cron pattern. On success, the caller's claims and
      the time the schedule first fires. */
  function CreateChecks(projects: seq<string>, header: Option<string>, payload: Json.Value, cronPattern: string,
                        decode: string -> Option<Claims>, cron: string -> CronOutcome)
    : (r: Result<(Claims, Time), JsonError<string>>)
    ensures r.Success? <==>
              && ExtractClaims(header, decode).Success?
              && ExtractClaims(header, decode).value.aud in projects
              && payload.Object?
              && cron(cronPattern).Next?
    ensures r.Success? ==> r.value == (ExtractClaims(header, decode).value, cron(cronPattern).time)
    ensures r.Failure? ==>
              (r.error.Unauthorized? <==>
                 ExtractClaims(header, decode).Failure? || ExtractClaims(header, decode).value.aud !in projects)
    ensures r.Failure? && !r.error.Unauthorized? ==> r.error.BadRequest?
    ensures header.None? ==> r == Failure(RespondUnauthorized("unable to extract token"))
    ensures ExtractClaims(header, decode).Failure? ==>
              r == Failure(RespondUnauthorized(ExtractClaims(header, decode).error))
    ensures ExtractClaims(header, decode).Success? && ExtractClaims(header, decode).value.aud !in projects ==>
              r == Failure(RespondUnauthorized("Invalid project id"))
    ensures r.Failure? && r.error.BadRequest? ==>
              r.error.body.error == Some(if payload.Object? then "Invalid cron pattern" else "Invalid payload")
  {
    match ExtractClaims(header, decode)
    case Failure(e) => Failure(RespondUnauthorized(e))
    case Success(claims) =>
      if claims.aud !in projects then Failure(RespondUnauthorized("Invalid project id"))
      else if !payload.Object? then Failure(RespondBadRequest("Invalid payload"))
      else
        match DecodeCron(cronPattern, cron)
        case Failure(e) => Failure(RespondBadRequest(e))
        case Success(next) => Success((claims, next))
  }

  /** The checks `delete_schedule` makes before it deletes: the token, then that the caller
      owns a schedule with that id (a failed lookup reads as "not found" too). On success, the
      row as it was. */
  function DeleteChecks(header: Option<string>, rows: map<int, Schedule>, id: int,
                        decode: string -> Option<Claims>, selectFails: bool)
    : (r: Result<Schedule, JsonError<string>>)
    ensures r.Success? <==>
              ExtractClaims(header, decode).Success? && !selectFails &&
              Owns(rows, id, ExtractClaims(header, decode).value.userId)
    ensures r.Success? ==> r.value == rows[id]
    ensures r.Failure? ==> (r.error.Unauthorized? <==> ExtractClaims(header, decode).Failure?)
    ensures r.Failure? && !r.error.Unauthorized? ==> r.error == RespondNotFound("Schedule not found")
  {
    match ExtractClaims(header, decode)
    case Failure(e) => Failure(RespondUnauthorized(e))
    case Success(claims) =>
      if selectFails || !Owns(rows, id, claims.userId) then Failure(RespondNotFound("Schedule not found"))
      else Success(rows[id])
  }

  /** The checks `update_schedule` makes before it writes, in their order: the token, the
      caller's ownership of the schedule, the payload's shape and the cron pattern. On success,
      the caller's claims and the next time the schedule fires. */
  function UpdateChecks(header: Option<string>, rows: map<int, Schedule>, id: int, u: UpdateSchedule,
                        decode: string -> Option<Claims>, cron: string -> CronOutcome, selectFails: bool)
    : (r: Result<(Claims, Time), JsonError<string>>)
    ensures r.Success? <==>
              && ExtractClaims(header, decode).Success?
              && !selectFails && Owns(rows, id, ExtractClaims(header, decode).value.userId)
              && u.payload.Object?
              && cron(u.cronPattern).Next?
    ensures r.Success? ==> r.value == (ExtractClaims(header, decode).value, cron(u.cronPattern).time)
    ensures r.Failure? ==> (r.error.Unauthorized? <==> ExtractClaims(header, decode).Failure?)
    ensures r.Failure? && ExtractClaims(header, decode).Success? ==>
              (r.error.NotFound? <==> selectFails || !Owns(rows, id, ExtractClaims(header, decode).value.userId))
    ensures r.Failure? && r.error.BadRequest? ==>
              r.error.body.error == Some(if u.payload.Object? then "Invalid cron pattern" else "Invalid payload")
    ensures r.Failure? && !r.error.Unauthorized? && !r.error.NotFound? ==> r.error.BadRequest?
    ensures ExtractClaims(header, decode).Failure? ==>
              r == Failure(RespondUnauthorized(ExtractClaims(header, decode).error))
    ensures r.Failure? && r.error.NotFound? ==> r.error == RespondNotFound("Schedule not found")
  {
    match ExtractClaims(header, decode)
    case Failure(e) => Failure(RespondUnauthorized(e))
    case Success(claims) =>
      if selectFails || !Owns(rows, id, claims.userId) then Failure(RespondNotFound("Schedule not found"))
      else if !u.payload.Object? then Failure(RespondBadRequest("Invalid payload"))
      else
        match DecodeCron(u.cronPattern, cron)
        case Failure(e) => Failure(RespondBadRequest(e))
        case Success(next) => Success((claims, next))
  }

  /** `FirebaseMessaging`: the endpoints, configured with the Firebase projects they serve. */
  class FirebaseMessaging {
    const projects: seq<string>

    constructor (projects: seq<string>)
      ensures this.projects == projects
    {
      this.projects := projects;
    }

    /** `create_schedule`: stores the body under the caller's user and project ids and answers
        201 with the stored row. `now` is the current time; `dbError` the INSERT's failure. */
    method CreateSchedule(table: ScheduleTable, header: Option<string>, body: Schedule,
                          decode: string -> Option<Claims>, cron: string -> CronOutcome,
                          now: Time, dbError: Option<string>)
      returns (r: Reply<Schedule>)
      requires table.Valid() && ValidSchedule(body)
      modifies table
      ensures table.Valid()
      ensures var c := CreateChecks(projects, header, body.payload, body.cronPattern, decode, cron);
              c.Failure? ==>
                r == Failure(c.error) && table.rows == old(table.rows) && table.nextId == old(table.nextId)
      ensures var c := CreateChecks(projects, header, body.payload, body.cronPattern, decode, cron);
              c.Success? && dbError.Some? ==>
                r == Failure(RespondInternalServerError(dbError.value)) &&
                table.rows == old(table.rows) && table.nextId == old(table.nextId)
      ensures var c := CreateChecks(projects, header, body.payload, body.cronPattern, decode, cron);
              c.Success? && dbError.None? ==>
                var row := NewRow(old(table.nextId), c.value.0, body, c.value.1, now);
                && r == Success(RespondCreated(row))
                && table.rows == old(table.rows)[row.id := row]
                && table.nextId == old(table.nextId) + 1
    {
      var claims := ExtractClaims(header, decode);
      if claims.Failure? {
        return Failure(RespondUnauthorized(claims.error));
      }
      if claims.value.aud !in projects {
        return Failure(RespondUnauthorized("Invalid project id"));
      }
      if !body.payload.Object? {
        return Failure(RespondBadRequest("Invalid payload"));
      }
      var next := DecodeCron(body.cronPattern, cron);
      if next.Failure? {
        return Failure(RespondBadRequest(next.error));
      }
      var stored := table.Insert(NewRow(0, claims.value, body, next.value, now), dbError);
      if stored.Failure? {
        return Failure(RespondInternalServerError(stored.error));
      }
      r := Success(RespondCreated(stored.value));
    }

    /** `find_all_schedules`: the caller's schedules and no one else's. `dbError` is the
        SELECT's failure. */
    method FindAllSchedules(table: ScheduleTable, header: Option<string>,
                            decode: string -> Option<Claims>, dbError: Option<string>)
      returns (r: Reply<seq<Schedule>>)
      requires table.Valid()
      ensures ExtractClaims(header, decode).Failure? ==>
                r == Failure(RespondUnauthorized(ExtractClaims(header, decode).error))
      ensures ExtractClaims(header, decode).Success? && dbError.Some? ==>
                r == Failure(RespondInternalServerError(dbError.value))
      ensures ExtractClaims(header, decode).Success? && dbError.None? ==>
                r.Success? && r.value.Ok? && r.value.body.data.Some? &&
                ListsOwned(r.value.body.data.value, table.rows, ExtractClaims(header, decode).value.userId)
    {
      var claims := ExtractClaims(header, decode);
      if claims.Failure? {
        return Failure(RespondUnauthorized(claims.error));
      }
      var user := claims.value.userId;
      var schedules := table.SelectWhere((s: Schedule) => s.fbUserId == user);
      if dbError.Some? {
        return Failure(RespondInternalServerError(dbError.value));
      }
      r := Success(RespondOk(schedules));
    }

    /** `delete_schedule`: removes the caller's schedule `id` and answers 200 with the row as
        it was. `selectFails` is the lookup's failure, `deleteError` the DELETE's. The answer to
        a DELETE that removed nothing is left out: after the lookup found the row, nothing in
        this sequential model can remove it first. */
    method DeleteSchedule(table: ScheduleTable, header: Option<string>, id: int,
                          decode: string -> Option<Claims>, selectFails: bool, deleteError: Option<string>)
      returns (r: Reply<Schedule>)
      requires table.Valid()
      modifies table`rows
      ensures table.Valid()
      ensures var c := DeleteChecks(header, old(table.rows), id, decode, selectFails);
              c.Failure? ==> r == Failure(c.error) && table.rows == old(table.rows)
      ensures var c := DeleteChecks(header, old(table.rows), id, decode, selectFails);
              c.Success? && deleteError.Some? ==>
                r == Failure(RespondInternalServerError(deleteError.value)) && table.rows == old(table.rows)
      ensures var c := DeleteChecks(header, old(table.rows), id, decode, selectFails);
              c.Success? && deleteError.None? ==>
                r == Success(RespondOk(c.value)) && table.rows == old(table.rows) - {id}
    {
      var claims := ExtractClaims(header, decode);
      if claims.Failure? {
        return Failure(RespondUnauthorized(claims.error));
      }
      var user := claims.value.userId;
      var schedule := table.SelectOwned(id, user, selectFails);
      if schedule.None? {
        return Failure(RespondNotFound("Schedule not found"));
      }
      var result := table.DeleteOwned(id, user, deleteError);
      if result.Failure? {
        return Failure(RespondInternalServerError(result.error));
      }
      r := Success(RespondOk(schedule.value));
    }

    /** `update_schedule`: rewrites the caller's schedule `id` from the body and answers 200
        with the row read back. `selectFails` is the first lookup's failure, `updateError` the
        UPDATE's and `reselectError` the read-back's. */
    method UpdateSchedule(table: ScheduleTable, header: Option<string>, id: int, u: UpdateSchedule,
                          decode: string -> Option<Claims>, cron: string -> CronOutcome, now: Time,
                          selectFails: bool, updateError: Option<string>, reselectError: Option<string>)
      returns (r: Reply<Schedule>)
      requires table.Valid() && ValidUpdate(u)
      modifies table`rows
      ensures table.Valid()
      ensures var c := UpdateChecks(header, old(table.rows), id, u, decode, cron, selectFails);
              c.Failure? ==> r == Failure(c.error) && table.rows == old(table.rows)
      ensures var c := UpdateChecks(header, old(table.rows), id, u, decode, cron, selectFails);
              c.Success? && updateError.Some? ==>
                r == Failure(RespondInternalServerError(updateError.value)) && table.rows == old(table.rows)
      ensures var c := UpdateChecks(header, old(table.rows), id, u, decode, cron, selectFails);
              c.Success? && updateError.None? ==>
                && table.rows == old(table.rows)[id := UpdatedRow(old(table.rows)[id], u, c.value.1, now)]
                && (reselectError.Some? ==> r == Failure(RespondInternalServerError(reselectError.value)))
                && (reselectError.None? ==> r == Success(RespondOk(table.rows[id])))
    {
      var claims := ExtractClaims(header, decode);
      if claims.Failure? {
        return Failure(RespondUnauthorized(claims.error));
      }
      var user := claims.value.userId;
      var schedule := table.SelectOwned(id, user, selectFails);
      if schedule.None? {
        return Failure(RespondNotFound("Schedule not found"));
      }
      if !u.payload.Object? {
        return Failure(RespondBadRequest("Invalid payload"));
      }
      var next := DecodeCron(u.cronPattern, cron);
      if next.Failure? {
        return Failure(RespondBadRequest(next.error));
      }
      var result := table.UpdateOwned(id, user, u, next.value, now, updateError);
      if result.Failure? {
        return Failure(RespondInternalServerError(result.error));
      }
      var updated := table.SelectOwned(id, user, reselectError.Some?);
      if updated.None? {
        return Failure(RespondInternalServerError(reselectError.value));
      }
      r := Success(RespondOk(updated.value));
    }
  }
}
