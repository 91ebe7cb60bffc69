/** What the committed outcomes say, told by the stored events, rows and response codes alone. */
module Outcomes {
  import opened Text
  import opened Effects
  import opened Delivery
  import opened Protocol
  import opened Safety
  import opened Conservation

  // ---- What a delivery may end in ------------------------------------------------------

  /** 408, 425, 429 and the server errors are worth another try. */
  predicate Temporary(code: nat) {
    code == 408 || code == 425 || code == 429 || 500 <= code <= 599
  }

  predicate ClientError(code: nat) {
    400 <= code <= 499 && code != 408 && code != 425 && code != 429
  }

  /** A delivery of `ev` may succeed with this response code: a webhook only with a response that is
      no error, everything else without sending a request, and the forced failure never. */
  predicate MaySucceed(c: Config, ev: Event, code: Option<nat>) {
    && ev.eventType != "force.fail"
    && (ev.eventType == "webhook" ==>
          c.plan(ev.payload).Post? && code.Some? && (code.value < 400 || code.value > 599))
    && (ev.eventType != "webhook" ==> code.None?)
  }

  /** A delivery of `ev` may fail for good: its payload leads to no request, or the request was
      answered with a client error. */
  predicate MayFailForGood(c: Config, ev: Event, code: Option<nat>) {
    && ev.eventType == "webhook"
    && (code.None? ==> !c.plan(ev.payload).Post?)
    && (code.Some? ==> c.plan(ev.payload).Post? && ClientError(code.value))
  }

  /** A delivery of `ev` may fail for now: a forced failure, no answer, or one that is temporary. */
  predicate MayFailForNow(c: Config, ev: Event, code: Option<nat>) {
    || (ev.eventType == "force.fail" && code.None?)
    || (ev.eventType == "webhook" && c.plan(ev.payload).Post? && (code.Some? ==> Temporary(code.value)))
  }

  predicate FailsAs(c: Config, ev: Event, failure: Failure) {
    if failure.kind.Permanent? then MayFailForGood(c, ev, failure.status) else MayFailForNow(c, ev, failure.status)
  }

  /** A failed message in the dead-letter stream names its event and its entry. */
  ghost predicate Told(dlqStream: seq<Values>, e: string, i: nat) {
    exists k :: 0 <= k < |dlqStream| && EventOf(dlqStream[k]) == e && ErrorText in dlqStream[k] && DlqAt in dlqStream[k]
                && OriginalStreamId in dlqStream[k] && dlqStream[k][OriginalStreamId] == Itoa(i)
  }

  /** An outcome row and its attempt, committed together. */
  predicate Paired(row: Row, a: AttemptRow) {
    && a.event == row.event && row.entry == Some(a.entry) && a.number == row.retry + 1
    && (a.success <==> row.status.Delivered?) && a.startedAt <= row.at
  }

  predicate JudgedRow(c: Config, ev: Event, row: Row, code: Option<nat>) {
    && (row.status.Delivered? ==> MaySucceed(c, ev, code))
    && (row.status.Retrying? ==> MayFailForNow(c, ev, code) && 0 <= row.retry < c.maxRetries)
    && (row.status.DeadLettered? ==>
          if row.retry < c.maxRetries then MayFailForGood(c, ev, code)
          else MayFailForGood(c, ev, code) || MayFailForNow(c, ev, code))
  }

  ghost predicate PairOk(c: Config, events: map<string, Event>, row: Row, a: AttemptRow) {
    && IsOutcome(row.status) && Paired(row, a) && row.event in events
    && JudgedRow(c, events[row.event], row, a.code) && events[row.event].createdAt <= a.startedAt
  }

  function OutcomeRows(history: seq<Row>): seq<Row> {
    if history == [] then []
    else
      var row := history[|history| - 1];
      OutcomeRows(history[..|history| - 1]) + if IsOutcome(row.status) then [row] else []
  }

  /** The outcome rows and the attempts correspond, one by one and in order. */
  ghost predicate PairsOk(c: Config, db: Db) {
    && |OutcomeRows(db.history)| == |db.attempts|
    && forall i :: 0 <= i < |db.attempts| ==> PairOk(c, db.events, OutcomeRows(db.history)[i], db.attempts[i])
  }

  ghost predicate JobJudged(c: Config, events: map<string, Event>, dlqStream: seq<Values>, job: Job) {
    job.Job? ==>
      && EventOf(job.msg) in events
      && var ev := events[EventOf(job.msg)];
         && ev.createdAt <= job.since
         && (job.phase.Succeeded? ==> MaySucceed(c, ev, job.phase.code))
         && (job.phase.Broke? ==> FailsAs(c, ev, job.phase.failure))
         && (job.phase.Scheduled? ==> MayFailForNow(c, ev, job.phase.failure.status) && job.retry < c.maxRetries)
         && (job.phase.DlqWritten? ==>
               && FailsAs(c, ev, job.phase.failure)
               && (job.retry < c.maxRetries ==> job.phase.failure.kind.Permanent?)
               && Told(dlqStream, EventOf(job.msg), job.entry))
  }

  ghost predicate JobsJudged(c: Config, events: map<string, Event>, dlqStream: seq<Values>, workers: map<nat, Worker>) {
    forall w :: w in workers ==> JobJudged(c, events, dlqStream, workers[w].job)
  }

  /** Every dead letter was told to the dead-letter stream. */
  ghost predicate DeadTold(history: seq<Row>, dlqStream: seq<Values>) {
    forall k :: 0 <= k < |history| && history[k].status.DeadLettered? ==>
      history[k].entry.Some? && Told(dlqStream, history[k].event, history[k].entry.value)
  }

  /** A row of a call carries the counter of its entry. */
  ghost predicate CounterOk(stream: seq<Values>, row: Row) {
    IsOutcome(row.status) || row.status.Processing? ==>
      row.entry.Some? && row.entry.value < |stream| && row.retry == ParseRetry(stream[row.entry.value])
  }

  ghost predicate CountersOk(stream: seq<Values>, history: seq<Row>) {
    forall k :: 0 <= k < |history| ==> CounterOk(stream, history[k])
  }

  ghost predicate Past(db: Db) {
    forall e :: e in db.events ==> db.events[e].createdAt <= db.clock
  }

  ghost predicate Judged(c: Config, s: State) {
    && JobsJudged(c, s.db.events, s.rs.dlqStream, s.ps.workers)
    && PairsOk(c, s.db)
    && DeadTold(s.db.history, s.rs.dlqStream)
    && CountersOk(s.rs.stream, s.db.history)
    && Past(s.db)
  }

  // ---- Growth --------------------------------------------------------------------------

  lemma OutcomeRowsAppend(history: seq<Row>, row: Row)
    ensures OutcomeRows(history + [row]) == OutcomeRows(history) + if IsOutcome(row.status) then [row] else []
  {
    assert (history + [row])[..|history|] == history;
  }

  lemma ToldGrows(a: seq<Values>, b: seq<Values>, e: string, i: nat)
    requires a <= b && Told(a, e, i)
    ensures Told(b, e, i)
  {
    var k :| 0 <= k < |a| && EventOf(a[k]) == e && ErrorText in a[k] && DlqAt in a[k]
      && OriginalStreamId in a[k] && a[k][OriginalStreamId] == Itoa(i);
    assert b[k] == a[k];
  }

  lemma JobJudgedGrows(c: Config, events: map<string, Event>, events': map<string, Event>,
                       dlq: seq<Values>, dlq': seq<Values>, job: Job)
    requires JobJudged(c, events, dlq, job) && EventsGrow(events, events') && dlq <= dlq'
    ensures JobJudged(c, events', dlq', job)
  {
    if job.Job? && job.phase.DlqWritten? {
      ToldGrows(dlq, dlq', EventOf(job.msg), job.entry);
    }
  }

  lemma PairsGrow(c: Config, db: Db, db': Db)
    requires PairsOk(c, db) && EventsGrow(db.events, db'.events) && db'.attempts == db.attempts
    requires OutcomeRows(db'.history) == OutcomeRows(db.history)
    ensures PairsOk(c, db')
  {
    forall i | 0 <= i < |db.attempts| ensures PairOk(c, db'.events, OutcomeRows(db'.history)[i], db'.attempts[i]) {
      assert PairOk(c, db.events, OutcomeRows(db.history)[i], db.attempts[i]);
    }
  }

  lemma OtherRowsAdded(history: seq<Row>, rows: seq<Row>)
    requires |rows| <= 2 && forall k :: 0 <= k < |rows| ==> !IsOutcome(rows[k].status)
    ensures OutcomeRows(history + rows) == OutcomeRows(history)
  {
    if |rows| == 1 {
      assert rows == [rows[0]];
      OutcomeRowsAppend(history, rows[0]);
    } else if |rows| == 2 {
      assert history + rows == (history + [rows[0]]) + [rows[1]];
      OutcomeRowsAppend(history, rows[0]);
      OutcomeRowsAppend(history + [rows[0]], rows[1]);
    } else {
      assert history + rows == history;
    }
  }

  // ---- The worker's own job --------------------------------------------------------------

  /** A message in hand speaks of its stored event. */
  lemma MessageSpeaks(c: Config, s: State, w: nat)
    requires Inv(c, s) && JobOf(s.ps, w).Job? && JobOf(s.ps, w).msg == s.rs.stream[JobOf(s.ps, w).entry]
    requires JobOf(s.ps, w).entry < |s.rs.stream|
    ensures var v := JobOf(s.ps, w).msg;
            && EventOf(v) in s.db.events && TypeOf(v) == s.db.events[EventOf(v)].eventType
            && Payload in v && v[Payload] == s.db.events[EventOf(v)].payload
  {
    assert EntryOk(c, s.db.events, s.rs.stream, JobOf(s.ps, w).entry);
  }

  lemma DeliveryJudged(c: Config, v: Values, ev: Event, reply: HttpReply)
    requires TypeOf(v) == ev.eventType && Payload in v && v[Payload] == ev.payload
    ensures match AttemptOf(c, v, reply)
            case Success(code) => MaySucceed(c, ev, code)
            case Failed(failure) => FailsAs(c, ev, failure)
  {
  }

  lemma DeliverJudged(c: Config, s: State, w: nat, reply: HttpReply)
    requires Inv(c, s) && WorkerEnabled(c, s, w, Deliver(reply))
    requires JobJudged(c, s.db.events, s.rs.dlqStream, JobOf(s.ps, w))
    ensures JobJudged(c, s.db.events, s.rs.dlqStream, WorkerLocal(c, s, w, Deliver(reply)).job)
  {
    WorkerFacts(c, s, w);
    MessageSpeaks(c, s, w);
    DeliveryJudged(c, JobOf(s.ps, w).msg, s.db.events[EventOf(JobOf(s.ps, w).msg)], reply);
  }

  lemma TakeJudged(c: Config, s: State, w: nat)
    requires Inv(c, s) && Past(s.db) && WorkerEnabled(c, s, w, Take)
    ensures JobJudged(c, s.db.events, s.rs.dlqStream, WorkerLocal(c, s, w, Take).job)
  {
    assert EntryOk(c, s.db.events, s.rs.stream, WorkerOf(s.ps, w).todo[0]);
  }

  lemma DlqJudged(c: Config, s: State, w: nat, now: string, cause: string)
    requires WorkerEnabled(c, s, w, WriteDlq(now, cause, Ok))
    requires JobJudged(c, s.db.events, s.rs.dlqStream, JobOf(s.ps, w))
    ensures JobJudged(c, s.db.events, WorkerRedis(s.rs, JobOf(s.ps, w), WriteDlq(now, cause, Ok)).dlqStream,
                      WorkerLocal(c, s, w, WriteDlq(now, cause, Ok)).job)
  {
    var job := JobOf(s.ps, w);
    var dlq := WorkerRedis(s.rs, job, WriteDlq(now, cause, Ok)).dlqStream;
    assert EventOf(dlq[|s.rs.dlqStream|]) == EventOf(job.msg);
  }

  lemma OwnJobJudged(c: Config, s: State, w: nat, a: WorkerAction)
    requires Inv(c, s) && Past(s.db) && WorkerEnabled(c, s, w, a)
    requires JobJudged(c, s.db.events, s.rs.dlqStream, JobOf(s.ps, w))
    ensures JobJudged(c, s.db.events, WorkerRedis(s.rs, JobOf(s.ps, w), a).dlqStream, WorkerLocal(c, s, w, a).job)
  {
    match a {
      case Take => TakeJudged(c, s, w);
      case Deliver(reply) => DeliverJudged(c, s, w, reply);
      case WriteDlq(now, cause, f) =>
        if f.Ok? {
          DlqJudged(c, s, w, now, cause);
        }
      case _ => CallJudged(c, s, w, a);
    }
  }

  lemma CallJudged(c: Config, s: State, w: nat, a: WorkerAction)
    requires WorkerEnabled(c, s, w, a) && !a.Take? && !a.Deliver? && !a.WriteDlq?
    requires JobJudged(c, s.db.events, s.rs.dlqStream, JobOf(s.ps, w))
    ensures JobJudged(c, s.db.events, WorkerRedis(s.rs, JobOf(s.ps, w), a).dlqStream, WorkerLocal(c, s, w, a).job)
  {
  }

  // ---- Steps -----------------------------------------------------------------------------

  lemma JobsKept(c: Config, s: State, a: Action)
    requires Inv(c, s) && Past(s.db) && JobsJudged(c, s.db.events, s.rs.dlqStream, s.ps.workers) && Enabled(c, s, a)
    ensures JobsJudged(c, Apply(c, s, a).db.events, Apply(c, s, a).rs.dlqStream, Apply(c, s, a).ps.workers)
  {
    var s' := Apply(c, s, a);
    StepGrows(c, s, a);
    WorkersStep(c, s, a);
    DlqStreamStep(c, s, a);
    forall w | w in s'.ps.workers ensures JobJudged(c, s'.db.events, s'.rs.dlqStream, s'.ps.workers[w].job) {
      if a.Work? && w == a.w {
        OwnJobJudged(c, s, w, a.work);
      } else {
        JobJudgedGrows(c, s.db.events, s'.db.events, s.rs.dlqStream, s'.rs.dlqStream, s.ps.workers[w].job);
      }
    }
  }

  lemma DlqStreamStep(c: Config, s: State, a: Action)
    requires Enabled(c, s, a)
    ensures s.rs.dlqStream <= Apply(c, s, a).rs.dlqStream
    ensures a.Work? ==> Apply(c, s, a).rs.dlqStream == WorkerRedis(s.rs, JobOf(s.ps, a.w), a.work).dlqStream
                        && Apply(c, s, a).db.events == s.db.events
  {
  }

  lemma PairsSnoc(c: Config, db: Db, db': Db, row: Row, attempt: AttemptRow)
    requires PairsOk(c, db) && db'.events == db.events && PairOk(c, db.events, row, attempt)
    requires db'.history == db.history + [row] && db'.attempts == db.attempts + [attempt]
    ensures PairsOk(c, db')
  {
    OutcomeRowsAppend(db.history, row);
    forall i | 0 <= i < |db'.attempts| ensures PairOk(c, db'.events, OutcomeRows(db'.history)[i], db'.attempts[i]) {
      if i < |db.attempts| {
        assert PairOk(c, db.events, OutcomeRows(db.history)[i], db.attempts[i]);
      }
    }
  }

  lemma NewPairOk(c: Config, db: Db, dlqStream: seq<Values>, job: Job, id: nat, at: nat)
    requires job.Job? && OutcomeStatus(job.phase).Some? && JobJudged(c, db.events, dlqStream, job)
    requires 0 <= job.retry && job.since <= at
    ensures var db' := OutcomeDb(db, job, id, at);
            PairOk(c, db.events, db'.history[|db.history|], db'.attempts[|db.attempts|])
  {
  }

  lemma OutcomePaired(c: Config, s: State, w: nat, id: nat, at: nat, f: Fault)
    requires Inv(c, s) && PairsOk(c, s.db) && WorkerEnabled(c, s, w, RecordOutcome(id, at, f)) && !f.Lost?
    requires JobJudged(c, s.db.events, s.rs.dlqStream, JobOf(s.ps, w))
    ensures PairsOk(c, WorkerDb(s.db, JobOf(s.ps, w), RecordOutcome(id, at, f)))
  {
    var job := JobOf(s.ps, w);
    var db' := OutcomeDb(s.db, job, id, at);
    WorkerFacts(c, s, w);
    JobEvent(c, s, job);
    NewPairOk(c, s.db, s.rs.dlqStream, job, id, at);
    PairsSnoc(c, s.db, db', db'.history[|s.db.history|], db'.attempts[|s.db.attempts|]);
  }

  lemma OtherPairsKept(c: Config, s: State, a: Action)
    requires PairsOk(c, s.db) && Enabled(c, s, a) && !(a.Work? && a.work.RecordOutcome? && !a.work.f.Lost?)
    ensures PairsOk(c, Apply(c, s, a).db)
  {
    StepGrows(c, s, a);
    HistoryStep(c, s, a);
    NoOutcomeRows(c, s, a);
    OtherAttempts(c, s, a, "");
    OtherRowsAdded(s.db.history, NewRows(c, s, a));
    PairsGrow(c, s.db, Apply(c, s, a).db);
  }

  lemma NoOutcomeRows(c: Config, s: State, a: Action)
    requires Enabled(c, s, a) && !(a.Work? && a.work.RecordOutcome? && !a.work.f.Lost?)
    ensures forall k :: 0 <= k < |NewRows(c, s, a)| ==> !IsOutcome(NewRows(c, s, a)[k].status)
  {
  }

  lemma PairsKept(c: Config, s: State, a: Action)
    requires Inv(c, s) && PairsOk(c, s.db) && Enabled(c, s, a)
    requires JobsJudged(c, s.db.events, s.rs.dlqStream, s.ps.workers)
    ensures PairsOk(c, Apply(c, s, a).db)
  {
    if a.Work? && a.work.RecordOutcome? && !a.work.f.Lost? {
      OutcomePaired(c, s, a.w, a.work.id, a.work.at, a.work.f);
    } else {
      OtherPairsKept(c, s, a);
    }
  }

  lemma NewRowTold(c: Config, s: State, a: Action, k: nat)
    requires Enabled(c, s, a) && k < |NewRows(c, s, a)|
    requires JobsJudged(c, s.db.events, s.rs.dlqStream, s.ps.workers)
    ensures var row := NewRows(c, s, a)[k];
            row.status.DeadLettered? ==> row.entry.Some? && Told(s.rs.dlqStream, row.event, row.entry.value)
  {
    if a.Work? && a.work.RecordOutcome? {
      assert JobJudged(c, s.db.events, s.rs.dlqStream, JobOf(s.ps, a.w));
    }
  }

  lemma DeadToldKept(c: Config, s: State, a: Action)
    requires DeadTold(s.db.history, s.rs.dlqStream) && Enabled(c, s, a)
    requires JobsJudged(c, s.db.events, s.rs.dlqStream, s.ps.workers)
    ensures DeadTold(Apply(c, s, a).db.history, Apply(c, s, a).rs.dlqStream)
  {
    var s' := Apply(c, s, a);
    var n := |s.db.history|;
    HistoryStep(c, s, a);
    DlqStreamStep(c, s, a);
    forall k | 0 <= k < |s'.db.history| && s'.db.history[k].status.DeadLettered?
      ensures s'.db.history[k].entry.Some?
              && Told(s'.rs.dlqStream, s'.db.history[k].event, s'.db.history[k].entry.value) {
      if k >= n {
        NewRowTold(c, s, a, k - n);
      }
      ToldGrows(s.rs.dlqStream, s'.rs.dlqStream, s'.db.history[k].event, s'.db.history[k].entry.value);
    }
  }

  lemma NewRowCounts(c: Config, s: State, a: Action, k: nat)
    requires Inv(c, s) && Enabled(c, s, a) && k < |NewRows(c, s, a)|
    ensures CounterOk(s.rs.stream, NewRows(c, s, a)[k])
  {
    if a.Work? {
      WorkerFacts(c, s, a.w);
    }
  }

  lemma CountersKept(c: Config, s: State, a: Action)
    requires Inv(c, s) && CountersOk(s.rs.stream, s.db.history) && Enabled(c, s, a)
    ensures CountersOk(Apply(c, s, a).rs.stream, Apply(c, s, a).db.history)
  {
    var s' := Apply(c, s, a);
    StepGrows(c, s, a);
    HistoryStep(c, s, a);
    forall k | 0 <= k < |s'.db.history| ensures CounterOk(s'.rs.stream, s'.db.history[k]) {
      if k >= |s.db.history| {
        NewRowCounts(c, s, a, k - |s.db.history|);
      } else {
        assert CounterOk(s.rs.stream, s.db.history[k]);
      }
    }
  }

  lemma PastKept(c: Config, s: State, a: Action)
    requires Past(s.db) && Enabled(c, s, a)
    ensures Past(Apply(c, s, a).db)
  {
    StepGrows(c, s, a);
    EventsStep(c, s, a);
  }

  lemma EventsStep(c: Config, s: State, a: Action)
    requires Enabled(c, s, a)
    ensures Apply(c, s, a).db.events ==
            if a.World? && a.world.Ingest? then s.db.events[a.world.event := a.world.ev] else s.db.events
  {
  }

  lemma StepJudged(c: Config, s: State, a: Action)
    requires Inv(c, s) && Judged(c, s) && Enabled(c, s, a)
    ensures Judged(c, Apply(c, s, a))
  {
    JobsKept(c, s, a);
    PairsKept(c, s, a);
    DeadToldKept(c, s, a);
    CountersKept(c, s, a);
    PastKept(c, s, a);
  }

  lemma {:induction false} RunJudged(c: Config, s: State, acts: seq<Action>, s': State)
    requires ValidConfig(c) && Inv(c, s) && Judged(c, s) && Runs(c, s, acts, s')
    ensures Judged(c, s')
    decreases |acts|
  {
    if acts != [] {
      StepKeeps(c, s, acts[0]);
      StepJudged(c, s, acts[0]);
      RunJudged(c, Apply(c, s, acts[0]), acts[1..], s');
    }
  }

  lemma ReachableJudged(c: Config, s: State)
    requires ValidConfig(c) && Reachable(c, s)
    ensures Judged(c, s)
  {
    var t: nat, acts :| Runs(c, Init(t), acts, s);
    InitInv(c, t);
    assert Judged(c, Init(t));
    RunJudged(c, Init(t), acts, s);
  }

  // ---- Results ---------------------------------------------------------------------------

  lemma {:induction false} OutcomeIndex(history: seq<Row>, k: nat) returns (i: nat)
    requires k < |history| && IsOutcome(history[k].status)
    ensures i < |OutcomeRows(history)| && OutcomeRows(history)[i] == history[k]
    decreases |history|
  {
    var front := history[..|history| - 1];
    if k == |history| - 1 {
      i := |OutcomeRows(front)|;
    } else {
      i := OutcomeIndex(front, k);
    }
  }

  lemma {:induction false} OutcomePosition(history: seq<Row>, i: nat) returns (k: nat)
    requires i < |OutcomeRows(history)|
    ensures k < |history| && history[k] == OutcomeRows(history)[i]
    decreases |history|
  {
    var front := history[..|history| - 1];
    if i < |OutcomeRows(front)| {
      k := OutcomePosition(front, i);
    } else {
      k := |history| - 1;
    }
  }

  /** Every outcome row has its attempt, and the two tell the same story. */
  lemma OutcomeHasAttempt(c: Config, s: State, k: nat) returns (i: nat)
    requires ValidConfig(c) && Reachable(c, s) && k < |s.db.history| && IsOutcome(s.db.history[k].status)
    ensures i < |s.db.attempts| && PairOk(c, s.db.events, s.db.history[k], s.db.attempts[i])
  {
    ReachableJudged(c, s);
    i := OutcomeIndex(s.db.history, k);
    assert PairOk(c, s.db.events, OutcomeRows(s.db.history)[i], s.db.attempts[i]);
  }

  /** Every attempt has its outcome row. */
  lemma AttemptHasOutcome(c: Config, s: State, i: nat) returns (k: nat)
    requires ValidConfig(c) && Reachable(c, s) && i < |s.db.attempts|
    ensures k < |s.db.history| && PairOk(c, s.db.events, s.db.history[k], s.db.attempts[i])
  {
    ReachableJudged(c, s);
    k := OutcomePosition(s.db.history, i);
    assert PairOk(c, s.db.events, OutcomeRows(s.db.history)[i], s.db.attempts[i]);
  }

  /** An attempt at entry `i` of event `e`. */
  predicate IsAttempt(a: AttemptRow, e: string, i: Option<nat>) {
    a.event == e && i == Some(a.entry)
  }

  /** A webhook is recorded as delivered only with a response that is no error; everything else is
      delivered without a request, and the forced failure is never delivered. */
  lemma DeliveredMeansAnswered(c: Config, s: State, k: nat)
    requires ValidConfig(c) && Reachable(c, s) && k < |s.db.history| && s.db.history[k].status.Delivered?
    ensures var row := s.db.history[k];
            && row.event in s.db.events && s.db.events[row.event].eventType != "force.fail"
            && exists i :: 0 <= i < |s.db.attempts| && IsAttempt(s.db.attempts[i], row.event, row.entry)
                 && s.db.attempts[i].success
                 && (s.db.events[row.event].eventType == "webhook" ==>
                       && s.db.attempts[i].code.Some?
                       && (s.db.attempts[i].code.value < 400 || s.db.attempts[i].code.value >= 600))
                 && (s.db.events[row.event].eventType != "webhook" ==> s.db.attempts[i].code.None?)
  {
    var i := OutcomeHasAttempt(c, s, k);
    assert IsAttempt(s.db.attempts[i], s.db.history[k].event, s.db.history[k].entry);
  }

  /** A retry is recorded only below the limit, and only after a forced failure, no answer, 408, 425,
      429 or a server error. */
  lemma RetriedMeansTemporary(c: Config, s: State, k: nat)
    requires ValidConfig(c) && Reachable(c, s) && k < |s.db.history| && s.db.history[k].status.Retrying?
    ensures var row := s.db.history[k];
            && 0 <= row.retry < c.maxRetries && row.event in s.db.events
            && (s.db.events[row.event].eventType == "webhook" || s.db.events[row.event].eventType == "force.fail")
            && exists i :: 0 <= i < |s.db.attempts| && IsAttempt(s.db.attempts[i], row.event, row.entry)
                 && !s.db.attempts[i].success
                 && (s.db.attempts[i].code.Some? ==>
                       || s.db.attempts[i].code.value in {408, 425, 429}
                       || 500 <= s.db.attempts[i].code.value <= 599)
  {
    var i := OutcomeHasAttempt(c, s, k);
    assert IsAttempt(s.db.attempts[i], s.db.history[k].event, s.db.history[k].entry);
  }

  /** A dead letter below the limit is recorded only for a webhook, and only if its payload leads to no
      request or the answer was another client error. */
  lemma BuriedEarlyMeansPermanent(c: Config, s: State, k: nat)
    requires ValidConfig(c) && Reachable(c, s) && k < |s.db.history| && s.db.history[k].status.DeadLettered?
    requires s.db.history[k].retry < c.maxRetries
    ensures var row := s.db.history[k];
            && row.event in s.db.events && s.db.events[row.event].eventType == "webhook"
            && exists i :: 0 <= i < |s.db.attempts| && IsAttempt(s.db.attempts[i], row.event, row.entry)
                 && !s.db.attempts[i].success
                 && (s.db.attempts[i].code.None? <==> !c.plan(s.db.events[row.event].payload).Post?)
                 && (s.db.attempts[i].code.Some? ==>
                       && 400 <= s.db.attempts[i].code.value <= 499
                       && s.db.attempts[i].code.value !in {408, 425, 429})
  {
    var i := OutcomeHasAttempt(c, s, k);
    assert IsAttempt(s.db.attempts[i], s.db.history[k].event, s.db.history[k].entry);
  }

  /** Every dead letter stands in the dead-letter stream with its event, its own entry, the time and
      the error. */
  lemma DeadLetterTold(c: Config, s: State, k: nat)
    requires ValidConfig(c) && Reachable(c, s) && k < |s.db.history| && s.db.history[k].status.DeadLettered?
    ensures var row := s.db.history[k];
            && row.entry.Some?
            && exists j :: 0 <= j < |s.rs.dlqStream| && EventOf(s.rs.dlqStream[j]) == row.event
                 && OriginalStreamId in s.rs.dlqStream[j]
                 && s.rs.dlqStream[j][OriginalStreamId] == Itoa(row.entry.value)
                 && ErrorText in s.rs.dlqStream[j] && DlqAt in s.rs.dlqStream[j]
  {
    ReachableJudged(c, s);
  }

  /** The rows of a call carry the retry counter of the stream entry they are about. */
  lemma RowsCarryCounter(c: Config, s: State, k: nat)
    requires ValidConfig(c) && Reachable(c, s) && k < |s.db.history|
    requires s.db.history[k].status.Processing? || IsOutcome(s.db.history[k].status)
    ensures var row := s.db.history[k];
            && row.entry.Some? && row.entry.value < |s.rs.stream|
            && EventOf(s.rs.stream[row.entry.value]) == row.event
            && row.retry == ParseRetry(s.rs.stream[row.entry.value])
  {
    ReachableJudged(c, s);
    ReachableInv(c, s);
    assert CounterOk(s.rs.stream, s.db.history[k]);
    assert RowOk(s.db, s.rs.stream, s.rs.zset, s.db.history[k]);
  }

  // ---- Successes and failures are counted apart --------------------------------------------

  function TallyBy(attempts: seq<AttemptRow>, e: string, success: bool): nat {
    if attempts == [] then 0
    else
      var a := attempts[|attempts| - 1];
      TallyBy(attempts[..|attempts| - 1], e, success) + if a.event == e && a.success == success then 1 else 0
  }

  ghost predicate InStep(rows: seq<Row>, attempts: seq<AttemptRow>) {
    |rows| == |attempts| && forall i :: 0 <= i < |rows| ==> IsOutcome(rows[i].status) && Paired(rows[i], attempts[i])
  }

  lemma {:induction false} TalliesAgree(rows: seq<Row>, attempts: seq<AttemptRow>, e: string)
    requires InStep(rows, attempts)
    ensures TallyBy(attempts, e, true) == Tally(rows, e, Delivered)
    ensures TallyBy(attempts, e, false) == Tally(rows, e, Retrying) + Tally(rows, e, DeadLettered)
    decreases |rows|
  {
    if rows != [] {
      var n := |rows| - 1;
      assert InStep(rows[..n], attempts[..n]);
      TalliesAgree(rows[..n], attempts[..n], e);
      assert Paired(rows[n], attempts[n]);
    }
  }

  lemma {:induction false} TallyOfOutcomes(history: seq<Row>, e: string, status: Status)
    requires IsOutcome(status)
    ensures Tally(OutcomeRows(history), e, status) == Tally(history, e, status)
  {
    if history != [] {
      var front, row := history[..|history| - 1], history[|history| - 1];
      TallyOfOutcomes(front, e, status);
      if IsOutcome(row.status) {
        TallyAppend(OutcomeRows(front), row, e, status);
      } else {
        assert OutcomeRows(history) == OutcomeRows(front);
      }
    }
  }

  /** Successful attempts are exactly the deliveries, failed ones the retries and dead letters. */
  lemma SuccessesAreDeliveries(c: Config, s: State, e: string)
    requires ValidConfig(c) && Reachable(c, s)
    ensures TallyBy(s.db.attempts, e, true) == Tally(s.db.history, e, Delivered)
    ensures TallyBy(s.db.attempts, e, false)
            == Tally(s.db.history, e, Retrying) + Tally(s.db.history, e, DeadLettered)
  {
    ReachableJudged(c, s);
    PairsInStep(c, s.db);
    TalliesAgree(OutcomeRows(s.db.history), s.db.attempts, e);
    TallyOfOutcomes(s.db.history, e, Delivered);
    TallyOfOutcomes(s.db.history, e, Retrying);
    TallyOfOutcomes(s.db.history, e, DeadLettered);
  }

  lemma PairsInStep(c: Config, db: Db)
    requires PairsOk(c, db)
    ensures InStep(OutcomeRows(db.history), db.attempts)
  {
    forall i | 0 <= i < |db.attempts|
      ensures IsOutcome(OutcomeRows(db.history)[i].status) && Paired(OutcomeRows(db.history)[i], db.attempts[i]) {
      assert PairOk(c, db.events, OutcomeRows(db.history)[i], db.attempts[i]);
    }
  }
}
