/** The schedule schema of the notification scheduler (src/fcm/model.rs) and the
    `fcm_schedule` table its handlers and worker read and write through SQL
    (the statements in src/fcm/handler.rs and src/fcm/worker.rs). */
module FcmModel {
  import opened Wrappers
  import Json
  import opened FcmUtils

  /** One row of `fcm_schedule` (`FCMSchedule`). */
  datatype Schedule = Schedule(
    id: int,
    name: string,
    fbUserId: string,
    pushToken: string,
    fbProjectId: string,
    cronPattern: string,
    payload: Json.Value,
    lastExecution: Time,
    nextExecution: Time,
    createdAt: Time,
    updatedAt: Time)

  /** The body of an update request (`UpdateSchedule`). */
  datatype UpdateSchedule = UpdateSchedule(name: string, pushToken: string, cronPattern: string, payload: Json.Value)

  /** The length limits the web framework checks on request bodies before a handler runs:
      name 3..64, push token 32..512 and cron pattern 3..64 characters. */
  predicate ValidFields(name: string, pushToken: string, cronPattern: string) {
    3 <= |name| <= 64 && 32 <= |pushToken| <= 512 && 3 <= |cronPattern| <= 64
  }

  predicate ValidSchedule(s: Schedule) {
    ValidFields(s.name, s.pushToken, s.cronPattern)
  }

  predicate ValidUpdate(u: UpdateSchedule) {
    ValidFields(u.name, u.pushToken, u.cronPattern)
  }

  /** The row an INSERT writes for `body`: the owner and project come from the token's claims,
      never from the body, and the three bookkeeping times are the same instant. */
  function NewRow(id: int, claims: Claims, body: Schedule, next: Time, now: Time): (row: Schedule)
    ensures row.id == id && row.fbUserId == claims.userId && row.fbProjectId == claims.aud
    ensures row.name == body.name && row.pushToken == body.pushToken
    ensures row.cronPattern == body.cronPattern && row.payload == body.payload
    ensures row.nextExecution == next
    ensures row.lastExecution == now && row.createdAt == now && row.updatedAt == now
  {
    Schedule(id, body.name, claims.userId, body.pushToken, claims.aud, body.cronPattern, body.payload,
             now, next, now, now)
  }

  /** The row after the handler's UPDATE: the four request fields, the next execution and
      `updated_at` change; id, owner, project, `last_execution` and `created_at` do not. */
  function UpdatedRow(row: Schedule, u: UpdateSchedule, next: Time, now: Time): (r: Schedule)
    ensures r.name == u.name && r.pushToken == u.pushToken && r.cronPattern == u.cronPattern
    ensures r.payload == u.payload && r.nextExecution == next && r.updatedAt == now
    ensures r.id == row.id && r.fbUserId == row.fbUserId && r.fbProjectId == row.fbProjectId
    ensures r.lastExecution == row.lastExecution && r.createdAt == row.createdAt
  {
    row.(name := u.name, pushToken := u.pushToken, cronPattern := u.cronPattern, payload := u.payload,
         nextExecution := next, updatedAt := now)
  }

  /** The row after the worker's UPDATE: only the next execution and the two times move. */
  function AdvancedRow(row: Schedule, next: Time, at: Time): (r: Schedule)
    ensures r.nextExecution == next && r.lastExecution == at && r.updatedAt == at
    ensures r == row.(nextExecution := next, lastExecution := at, updatedAt := at)
  {
    row.(nextExecution := next, lastExecution := at, updatedAt := at)
  }

  /** `rows` holds the row with id `id`, and it belongs to `user`. */
  predicate Owns(rows: map<int, Schedule>, id: int, user: string) {
    id in rows && rows[id].fbUserId == user
  }

  /** The rows left by `DELETE ... WHERE id = $1 AND fb_user_id = $2`: the caller's row
      with that id goes, every other row stays as it was. */
  function DeleteWhereOwned(rows: map<int, Schedule>, id: int, user: string): (r: map<int, Schedule>)
    ensures r.Keys == if Owns(rows, id, user) then rows.Keys - {id} else rows.Keys
    ensures forall k :: k in r ==> r[k] == rows[k]
    ensures forall k :: k in rows && rows[k].fbUserId != user ==> k in r
  {
    if Owns(rows, id, user) then rows - {id} else rows
  }

  /** The rows left by the handler's `UPDATE ... WHERE id = $7 AND fb_user_id = $8`: only the
      caller's row with that id changes, as `UpdatedRow` says. */
  function UpdateWhereOwned(rows: map<int, Schedule>, id: int, user: string, u: UpdateSchedule, next: Time, now: Time)
    : (r: map<int, Schedule>)
    ensures r.Keys == rows.Keys
    ensures forall k :: k in rows && k != id ==> r[k] == rows[k]
    ensures forall k :: k in rows && rows[k].fbUserId != user ==> r[k] == rows[k]
    ensures Owns(rows, id, user) ==> r[id] == UpdatedRow(rows[id], u, next, now)
    ensures !Owns(rows, id, user) ==> r == rows
  {
    if Owns(rows, id, user) then rows[id := UpdatedRow(rows[id], u, next, now)] else rows
  }

  /** The rows left by the worker's `UPDATE ... WHERE id = $4`. */
  function AdvanceWhere(rows: map<int, Schedule>, id: int, next: Time, at: Time): (r: map<int, Schedule>)
    ensures r.Keys == rows.Keys
    ensures forall k :: k in rows && k != id ==> r[k] == rows[k]
    ensures id in rows ==> r[id] == AdvancedRow(rows[id], next, at)
  {
    if id in rows then rows[id := AdvancedRow(rows[id], next, at)] else rows
  }

  /** The `rows_affected` of a statement whose WHERE clause names the caller's row `id`. */
  function AffectedOwned(rows: map<int, Schedule>, id: int, user: string): (n: nat)
    ensures n <= 1
    ensures n == 1 <==> Owns(rows, id, user)
  {
    if Owns(rows, id, user) then 1 else 0
  }

  /** `out` lists, once each, exactly the rows of `rows` that belong to `user`. */
  ghost predicate ListsOwned(out: seq<Schedule>, rows: map<int, Schedule>, user: string) {
    && (forall i :: 0 <= i < |out| ==> out[i].id in rows && rows[out[i].id] == out[i] && out[i].fbUserId == user)
    && (forall id :: id in rows && rows[id].fbUserId == user ==> rows[id] in out)
    && (forall i, j :: 0 <= i < j < |out| ==> out[i].id != out[j].id)
  }

  /** The worker's filter `next_execution < NOW()`, with `now` the database's clock. */
  function Due(now: Time): (p: Schedule -> bool)
    ensures forall s :: p(s) <==> s.nextExecution < now
  {
    (s: Schedule) => s.nextExecution < now
  }

  /** `out` lists, once each, exactly the rows of `rows` that satisfy `p`. */
  ghost predicate ListsExactly(out: seq<Schedule>, rows: map<int, Schedule>, p: Schedule -> bool) {
    && (forall i :: 0 <= i < |out| ==> out[i].id in rows && rows[out[i].id] == out[i] && p(out[i]))
    && (forall id :: id in rows && p(rows[id]) ==> rows[id] in out)
    && (forall i, j :: 0 <= i < j < |out| ==> out[i].id != out[j].id)
  }

  /** A member of a non-empty set. */
  lemma {:induction false} MemberOf<T>(keys: set<T>) returns (k: T)
    requires keys != {}
    ensures k in keys
  {
    if forall x :: x !in keys {
      assert false;
    }
    k :| k in keys;
  }

  /** The `fcm_schedule` table: rows by id, and the sequence that numbers new rows. */
  class ScheduleTable {
    var rows: map<int, Schedule>
    var nextId: int

    ghost predicate Valid()
      reads this
    {
      forall id :: id in rows ==> rows[id].id == id && id < nextId && ValidSchedule(rows[id])
    }

    constructor ()
      ensures Valid() && rows == map[] && nextId == 1
    {
      rows := map[];
      nextId := 1;
    }

    /** `INSERT ... RETURNING *`: the row gets the next id of the sequence. */
    method Insert(row: Schedule, error: Option<string>) returns (r: Result<Schedule, string>)
      requires Valid() && ValidSchedule(row)
      modifies this
      ensures Valid()
      ensures error.Some? ==> r == Failure(error.value) && rows == old(rows) && nextId == old(nextId)
      ensures error.None? ==> r == Success(row.(id := old(nextId))) && nextId == old(nextId) + 1
      ensures error.None? ==> rows == old(rows)[old(nextId) := row.(id := old(nextId))]
    {
      if error.Some? {
        return Failure(error.value);
      }
      var stored := row.(id := nextId);
      rows := rows[nextId := stored];
      nextId := nextId + 1;
      r := Success(stored);
    }

    /** `SELECT * FROM fcm_schedule WHERE <p>`, in whatever order the database returns rows. */
    method SelectWhere(p: Schedule -> bool) returns (out: seq<Schedule>)
      requires Valid()
      ensures ListsExactly(out, rows, p)
    {
      var keys := rows.Keys;
      out := [];
      while keys != {}
        invariant keys <= rows.Keys
        invariant forall i :: 0 <= i < |out| ==>
                    out[i].id in rows && rows[out[i].id] == out[i] && p(out[i]) && out[i].id !in keys
        invariant forall id :: id in rows && id !in keys && p(rows[id]) ==> rows[id] in out
        invariant forall i, j :: 0 <= i < j < |out| ==> out[i].id != out[j].id
        decreases keys
      {
        ghost var member := MemberOf(keys);
        var k :| k in keys;
        if p(rows[k]) {
          out := out + [rows[k]];
        }
        keys := keys - {k};
      }
    }

    /** `SELECT * ... WHERE id = $1 AND fb_user_id = $2` with `fetch_one`: a missing row and a
        database error are both failures. */
    method SelectOwned(id: int, user: string, fails: bool) returns (r: Option<Schedule>)
      ensures r.Some? <==> !fails && Owns(rows, id, user)
      ensures r.Some? ==> r.value == rows[id]
    {
      if !fails && Owns(rows, id, user) {
        r := Some(rows[id]);
      } else {
        r := None;
      }
    }

    /** `DELETE ... WHERE id = $1 AND fb_user_id = $2`: the number of rows removed. */
    method DeleteOwned(id: int, user: string, error: Option<string>) returns (affected: Result<nat, string>)
      requires Valid()
      modifies this`rows
      ensures Valid()
      ensures error.Some? ==> affected == Failure(error.value) && rows == old(rows)
      ensures error.None? ==> affected == Success(AffectedOwned(old(rows), id, user))
      ensures error.None? ==> rows == DeleteWhereOwned(old(rows), id, user)
    {
      if error.Some? {
        return Failure(error.value);
      }
      affected := Success(AffectedOwned(rows, id, user));
      rows := DeleteWhereOwned(rows, id, user);
    }

    /** `UPDATE ... SET name, push_token, cron_pattern, payload, next_execution, updated_at
        WHERE id = $7 AND fb_user_id = $8`. */
    method UpdateOwned(id: int, user: string, u: UpdateSchedule, next: Time, now: Time, error: Option<string>)
      returns (affected: Result<nat, string>)
      requires Valid() && ValidUpdate(u)
      modifies this`rows
      ensures Valid()
      ensures error.Some? ==> affected == Failure(error.value) && rows == old(rows)
      ensures error.None? ==> affected == Success(AffectedOwned(old(rows), id, user))
      ensures error.None? ==> rows == UpdateWhereOwned(old(rows), id, user, u, next, now)
    {
      if error.Some? {
        return Failure(error.value);
      }
      affected := Success(AffectedOwned(rows, id, user));
      rows := UpdateWhereOwned(rows, id, user, u, next, now);
    }

    /** The worker's `UPDATE ... SET next_execution, last_execution, updated_at WHERE id = $4`. */
    method Advance(id: int, next: Time, at: Time, error: Option<string>) returns (affected: Result<nat, string>)
      requires Valid()
      modifies this`rows
      ensures Valid()
      ensures error.Some? ==> affected == Failure(error.value) && rows == old(rows)
      ensures error.None? ==> affected == Success(if id in old(rows) then 1 else 0)
      ensures error.None? ==> rows == AdvanceWhere(old(rows), id, next, at)
    {
      if error.Some? {
        return Failure(error.value);
      }
      affected := Success(if id in rows then 1 else 0);
      rows := AdvanceWhere(rows, id, next, at);
    }
  }
}
