/** One pass of a notification sender over the due schedules, independent of what it sends:
    both senders (src/fcm/worker.rs and backend/src/fcm_loop.rs) walk the schedules in the
    order the database returned them, and for each one maybe send a request, maybe move the
    row's next execution forward, or die when the cron parser panics. */
module SchedulerPass {
  import opened Wrappers
  import opened FcmUtils
  import opened FcmModel

  /** What a sender does with one due schedule: the request it sends, if any; the row it moves
      forward (id and next execution), if any; and whether the cron parser panicked. */
  datatype StepResult<M> = StepResult(sent: Option<M>, advance: Option<(int, Time)>, halted: bool)

  /** A step only ever moves the row of the schedule it was given. */
  ghost predicate MovesOwnRow<M>(step: Schedule -> StepResult<M>) {
    forall m :: step(m).advance.Some? ==> step(m).advance.value.0 == m.id
  }

  /** What a pass did: the requests sent, the rows moved forward and whether it died. */
  datatype RunResult<M> = RunResult(sent: seq<M>, advances: seq<(int, Time)>, halted: bool)

  /** The pass over `msgs` in order, up to a panic of the cron parser. */
  function Run<M>(msgs: seq<Schedule>, step: Schedule -> StepResult<M>): (r: RunResult<M>)
    ensures |r.sent| <= |msgs| && |r.advances| <= |msgs|
    decreases |msgs|
  {
    if msgs == [] then RunResult([], [], false)
    else
      var before := Run(msgs[..|msgs| - 1], step);
      if before.halted then before
      else
        var s := step(msgs[|msgs| - 1]);
        RunResult(before.sent + OptionSeq(s.sent), before.advances + OptionSeq(s.advance), s.halted)
  }

  /** The rows after the pass's UPDATEs, all stamped with the pass's time `at`. No column
      but the three the UPDATE sets ever changes, and the last UPDATE of a row decides it. */
  function Apply(rows: map<int, Schedule>, advances: seq<(int, Time)>, at: Time): (r: map<int, Schedule>)
    ensures r.Keys == rows.Keys
    ensures forall id :: id in rows && (forall j :: 0 <= j < |advances| ==> advances[j].0 != id) ==> r[id] == rows[id]
    ensures forall id :: id in rows ==>
              r[id].(nextExecution := rows[id].nextExecution, lastExecution := rows[id].lastExecution,
                     updatedAt := rows[id].updatedAt) == rows[id]
    ensures advances != [] && advances[|advances| - 1].0 in rows ==>
              r[advances[|advances| - 1].0] ==
                AdvancedRow(rows[advances[|advances| - 1].0], advances[|advances| - 1].1, at)
    decreases |advances|
  {
    if advances == [] then rows
    else
      var (id, next) := advances[|advances| - 1];
      AdvanceWhere(Apply(rows, advances[..|advances| - 1], at), id, next, at)
  }

  /** The pass over one more schedule, when it has not died before it. */
  lemma RunExtends<M>(msgs: seq<Schedule>, i: int, step: Schedule -> StepResult<M>)
    requires 0 <= i < |msgs| && !Run(msgs[..i], step).halted
    ensures var before := Run(msgs[..i], step);
            var s := step(msgs[i]);
            Run(msgs[..i + 1], step) ==
              RunResult(before.sent + OptionSeq(s.sent), before.advances + OptionSeq(s.advance), s.halted)
  {
    assert msgs[..i + 1][..i] == msgs[..i];
  }

  /** Applying one more optional advance. */
  lemma ApplyExtends(rows: map<int, Schedule>, advances: seq<(int, Time)>, extra: Option<(int, Time)>, at: Time)
    ensures extra.None? ==> Apply(rows, advances + OptionSeq(extra), at) == Apply(rows, advances, at)
    ensures extra.Some? ==>
              Apply(rows, advances + OptionSeq(extra), at) == AdvanceWhere(Apply(rows, advances, at), extra.value.0, extra.value.1, at)
  {
    if extra.None? {
      assert advances + OptionSeq(extra) == advances;
    } else {
      var longer := advances + OptionSeq(extra);
      assert longer[..|longer| - 1] == advances;
    }
  }

  /** Once the cron parser has panicked, later schedules are not looked at. */
  lemma {:induction false} RunStopsAtHalt<M>(msgs: seq<Schedule>, more: seq<Schedule>, step: Schedule -> StepResult<M>)
    requires Run(msgs, step).halted
    ensures Run(msgs + more, step) == Run(msgs, step)
    decreases |more|
  {
    if more != [] {
      var longer := msgs + more;
      var shorter := msgs + more[..|more| - 1];
      assert longer[..|longer| - 1] == shorter;
      RunStopsAtHalt(msgs, more[..|more| - 1], step);
      assert Run(shorter, step).halted;
    } else {
      assert msgs + more == msgs;
    }
  }

  /** Every row the pass moves forward is moved by the step of one of its schedules. */
  lemma {:induction false} AdvancesComeFromSteps<M>(msgs: seq<Schedule>, step: Schedule -> StepResult<M>)
    ensures forall j :: 0 <= j < |Run(msgs, step).advances| ==>
              exists i :: 0 <= i < |msgs| && step(msgs[i]).advance == Some(Run(msgs, step).advances[j])
    decreases |msgs|
  {
    if msgs != [] {
      var prefix := msgs[..|msgs| - 1];
      AdvancesComeFromSteps(prefix, step);
      var before := Run(prefix, step);
      var advances := Run(msgs, step).advances;
      forall j | 0 <= j < |advances|
        ensures exists i :: 0 <= i < |msgs| && step(msgs[i]).advance == Some(advances[j])
      {
        if j < |before.advances| {
          assert advances[j] == before.advances[j];
          var i :| 0 <= i < |prefix| && step(prefix[i]).advance == Some(before.advances[j]);
          assert msgs[i] == prefix[i];
        } else {
          var last := |msgs| - 1;
          var s := step(msgs[last]);
          assert !before.halted && advances == before.advances + OptionSeq(s.advance);
          assert s.advance == Some(advances[j]);
        }
      }
    } else {
      assert Run(msgs, step).advances == [];
    }
  }

  /** Every request the pass sends is the one the step of one of its schedules sends. */
  lemma {:induction false} SentComeFromSteps<M>(msgs: seq<Schedule>, step: Schedule -> StepResult<M>)
    ensures forall j :: 0 <= j < |Run(msgs, step).sent| ==>
              exists i :: 0 <= i < |msgs| && step(msgs[i]).sent == Some(Run(msgs, step).sent[j])
    decreases |msgs|
  {
    if msgs != [] {
      var prefix := msgs[..|msgs| - 1];
      SentComeFromSteps(prefix, step);
      var before := Run(prefix, step);
      var sent := Run(msgs, step).sent;
      forall j | 0 <= j < |sent|
        ensures exists i :: 0 <= i < |msgs| && step(msgs[i]).sent == Some(sent[j])
      {
        if j < |before.sent| {
          assert sent[j] == before.sent[j];
          var i :| 0 <= i < |prefix| && step(prefix[i]).sent == Some(before.sent[j]);
          assert msgs[i] == prefix[i];
        } else {
          var last := |msgs| - 1;
          var s := step(msgs[last]);
          assert !before.halted && sent == before.sent + OptionSeq(s.sent);
          assert s.sent == Some(sent[j]);
        }
      }
    } else {
      assert Run(msgs, step).sent == [];
    }
  }

  /** A pass over the schedules due at `now` leaves every schedule that was not due as it was. */
  lemma PassLeavesOthers<M>(rows: map<int, Schedule>, msgs: seq<Schedule>, step: Schedule -> StepResult<M>,
                            now: Time, at: Time)
    requires ListsExactly(msgs, rows, Due(now)) && MovesOwnRow(step)
    ensures forall id :: id in rows && rows[id].nextExecution >= now ==>
              Apply(rows, Run(msgs, step).advances, at)[id] == rows[id]
  {
    var advances := Run(msgs, step).advances;
    AdvancesComeFromSteps(msgs, step);
    forall id | id in rows && rows[id].nextExecution >= now
      ensures forall j :: 0 <= j < |advances| ==> advances[j].0 != id
    {
      forall j | 0 <= j < |advances|
        ensures advances[j].0 != id
      {
        var i :| 0 <= i < |msgs| && step(msgs[i]).advance == Some(advances[j]);
        assert rows[msgs[i].id] == msgs[i] && Due(now)(msgs[i]);
      }
    }
  }

  /** Ends a loop that stopped after `i` schedules: either it saw them all, or the pass died
      at the `i`-th and the rest changed nothing. */
  lemma RunOfPrefix<M>(msgs: seq<Schedule>, i: int, step: Schedule -> StepResult<M>)
    requires 0 <= i <= |msgs| && (i < |msgs| ==> Run(msgs[..i], step).halted)
    ensures Run(msgs, step) == Run(msgs[..i], step)
  {
    if i < |msgs| {
      RunStopsAtHalt(msgs[..i], msgs[i..], step);
      assert msgs[..i] + msgs[i..] == msgs;
    } else {
      assert msgs[..i] == msgs;
    }
  }

  /** A pass keeps every request and every move its steps make until it dies: a schedule
      reached while the pass is alive has its request among those sent and its move among
      those made, and what the pass had done before it stays in place. */
  lemma {:induction false} RunGrows<M>(msgs: seq<Schedule>, n: int, step: Schedule -> StepResult<M>)
    requires 0 <= n <= |msgs|
    ensures Run(msgs[..n], step).sent <= Run(msgs, step).sent
    ensures Run(msgs[..n], step).advances <= Run(msgs, step).advances
    decreases |msgs|
  {
    if n == |msgs| {
      assert msgs[..n] == msgs;
    } else {
      var prefix := msgs[..|msgs| - 1];
      assert prefix[..n] == msgs[..n];
      RunGrows(prefix, n, step);
      SeqPrefixTrans(Run(msgs[..n], step).sent, Run(prefix, step).sent, Run(msgs, step).sent);
      SeqPrefixTrans(Run(msgs[..n], step).advances, Run(prefix, step).advances, Run(msgs, step).advances);
    }
  }

  lemma SeqPrefixTrans<T>(a: seq<T>, b: seq<T>, c: seq<T>)
    requires a <= b && b <= c
    ensures a <= c
  {
    assert c[..|b|][..|a|] == c[..|a|];
  }

  /** The `i`-th schedule, reached while the pass is alive, has its request among those the
      pass sends and its move among those it makes. */
  lemma RunComplete<M>(msgs: seq<Schedule>, step: Schedule -> StepResult<M>, i: int)
    requires 0 <= i < |msgs| && !Run(msgs[..i], step).halted
    ensures step(msgs[i]).sent.Some? ==> step(msgs[i]).sent.value in Run(msgs, step).sent
    ensures step(msgs[i]).advance.Some? ==> step(msgs[i]).advance.value in Run(msgs, step).advances
  {
    RunExtends(msgs, i, step);
    RunGrows(msgs, i + 1, step);
    var before := Run(msgs[..i], step);
    var s := step(msgs[i]);
    if s.sent.Some? {
      LastIn(before.sent + OptionSeq(s.sent), Run(msgs, step).sent);
    }
    if s.advance.Some? {
      LastIn(before.advances + OptionSeq(s.advance), Run(msgs, step).advances);
    }
  }

  lemma LastIn<T>(a: seq<T>, b: seq<T>)
    requires a != [] && a <= b
    ensures a[|a| - 1] in b
  {
    assert b[|a| - 1] == a[|a| - 1];
  }

  /** A pass that died before the `k`-th schedule is dead at every later one. */
  lemma HaltPersists<M>(msgs: seq<Schedule>, step: Schedule -> StepResult<M>, k: int, i: int)
    requires 0 <= k <= i <= |msgs|
    ensures Run(msgs[..k], step).halted ==> Run(msgs[..i], step).halted
  {
    if Run(msgs[..k], step).halted {
      assert msgs[..k] + msgs[k..i] == msgs[..i];
      RunStopsAtHalt(msgs[..k], msgs[k..i], step);
    }
  }

  /** Rows moved by every UPDATE of theirs to the same time `next` end as one such UPDATE
      leaves them. */
  lemma {:induction false} ApplyUniform(rows: map<int, Schedule>, advances: seq<(int, Time)>, at: Time,
                                        id: int, next: Time)
    requires id in rows && (id, next) in advances
    requires forall j :: 0 <= j < |advances| && advances[j].0 == id ==> advances[j].1 == next
    ensures Apply(rows, advances, at)[id] == AdvancedRow(rows[id], next, at)
    decreases |advances|
  {
    var prefix := advances[..|advances| - 1];
    if advances[|advances| - 1].0 != id {
      var j :| 0 <= j < |advances| && advances[j] == (id, next);
      assert prefix[j] == (id, next);
      ApplyUniform(rows, prefix, at, id, next);
    }
  }

  /** In a pass over the schedules due at `now`, a due schedule ends as its own step leaves it:
      moved to the step's time when the pass reached it alive and the step moves it, and as it
      was when the step does not move it. */
  lemma PassOutcome<M>(rows: map<int, Schedule>, msgs: seq<Schedule>, step: Schedule -> StepResult<M>,
                       now: Time, at: Time, i: int)
    requires ListsExactly(msgs, rows, Due(now)) && MovesOwnRow(step)
    requires 0 <= i < |msgs|
    ensures step(msgs[i]).advance.None? ==> Apply(rows, Run(msgs, step).advances, at)[msgs[i].id] == msgs[i]
    ensures !Run(msgs[..i], step).halted && step(msgs[i]).advance.Some? ==>
              Apply(rows, Run(msgs, step).advances, at)[msgs[i].id] ==
                AdvancedRow(msgs[i], step(msgs[i]).advance.value.1, at)
  {
    var advances := Run(msgs, step).advances;
    var id := msgs[i].id;
    AdvancesComeFromSteps(msgs, step);
    forall j | 0 <= j < |advances| && advances[j].0 == id
      ensures step(msgs[i]).advance == Some(advances[j])
    {
      var k :| 0 <= k < |msgs| && step(msgs[k]).advance == Some(advances[j]);
      assert msgs[k].id == id;
    }
    if step(msgs[i]).advance.Some? && !Run(msgs[..i], step).halted {
      RunComplete(msgs, step, i);
      ApplyUniform(rows, advances, at, id, step(msgs[i]).advance.value.1);
    }
  }
}
