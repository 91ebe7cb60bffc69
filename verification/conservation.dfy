/** Counting: attempts against status rows, redrives against dead letters, publications
    against outbox rows. */
module Conservation {
  import opened Text
  import opened Effects
  import opened Protocol
  import opened Safety

  // ---- Tallies ----------------------------------------------------------------------

  function Tally(rows: seq<Row>, e: string, status: Status): nat {
    if rows == [] then 0
    else Tally(rows[..|rows| - 1], e, status)
         + (if rows[|rows| - 1].event == e && rows[|rows| - 1].status == status then 1 else 0)
  }

  lemma TallyAppend(rows: seq<Row>, row: Row, e: string, status: Status)
    ensures Tally(rows + [row], e, status)
            == Tally(rows, e, status) + (if row.event == e && row.status == status then 1 else 0)
  {
    assert (rows + [row])[..|rows|] == rows;
  }

  function TallyAttempts(attempts: seq<AttemptRow>, e: string): nat {
    if attempts == [] then 0
    else TallyAttempts(attempts[..|attempts| - 1], e) + (if attempts[|attempts| - 1].event == e then 1 else 0)
  }

  lemma TallyAttemptsAppend(attempts: seq<AttemptRow>, a: AttemptRow, e: string)
    ensures TallyAttempts(attempts + [a], e) == TallyAttempts(attempts, e) + (if a.event == e then 1 else 0)
  {
    assert (attempts + [a])[..|attempts|] == attempts;
  }

  function Outcomes(rows: seq<Row>, e: string): nat {
    Tally(rows, e, Delivered) + Tally(rows, e, Retrying) + Tally(rows, e, DeadLettered)
  }

  // ---- In-flight processing ---------------------------------------------------------

  /** A worker between its committed PROCESSING row and the outcome row of the same call. */
  predicate Between(job: Job, e: string) {
    job.Job? && !job.phase.Took? && !job.phase.Settled? && EventOf(job.msg) == e
  }

  ghost function InFlight(workers: map<nat, Worker>, e: string): set<nat> {
    set w | w in workers && Between(workers[w].job, e)
  }

  lemma InFlightUpdate(ps: Procs, w: nat, worker: Worker, e: string)
    ensures var before := |InFlight(ps.workers, e)|;
            var after := |InFlight(ps.workers[w := worker], e)|;
            after == before + (if Between(worker.job, e) then 1 else 0) - (if Between(JobOf(ps, w), e) then 1 else 0)
  {
    var before := InFlight(ps.workers, e);
    var after := InFlight(ps.workers[w := worker], e);
    assert after - {w} == before - {w};
    assert |before| == |before - {w}| + (if w in before then 1 else 0);
    assert |after| == |after - {w}| + (if w in after then 1 else 0);
  }

  // ---- The invariant ----------------------------------------------------------------

  ghost predicate Balanced(s: State, e: string) {
    && TallyAttempts(s.db.attempts, e) == Outcomes(s.db.history, e)
    && Outcomes(s.db.history, e) + |InFlight(s.ps.workers, e)| <= Tally(s.db.history, e, Processing)
  }

  ghost predicate RedrivesPaid(db: Db, e: string) {
    && Tally(db.history, e, Redriven) <= Tally(db.history, e, DeadLettered)
    && (e in db.dlq && db.dlq[e].status.Open? ==> Tally(db.history, e, Redriven) < Tally(db.history, e, DeadLettered))
  }

  ghost predicate DeadBetween(rows: seq<Row>, e: string, p: nat, q: nat) {
    exists r :: p < r < q && r < |rows| && rows[r].event == e && rows[r].status.DeadLettered?
  }

  /** Two redrives of an event have a dead letter between them, and an open record has one
      after the last redrive. */
  ghost predicate Alternates(db: Db, e: string) {
    && (forall p, q :: 0 <= p < q < |db.history| && IsRedrive(db.history[p], e) && IsRedrive(db.history[q], e)
          ==> DeadBetween(db.history, e, p, q))
    && (e in db.dlq && db.dlq[e].status.Open? ==>
          forall p :: 0 <= p < |db.history| && IsRedrive(db.history[p], e) ==>
            DeadBetween(db.history, e, p, |db.history|))
  }

  predicate IsRedrive(row: Row, e: string) {
    row.event == e && row.status.Redriven?
  }

  ghost predicate PublishedOnce(db: Db, e: string) {
    Tally(db.history, e, Published) == if e in db.outbox && db.outbox[e].published then 1 else 0
  }

  /** The record of a dead letter names the entry that failed last, not the entry it retried. */
  ghost predicate NamesOwnEntry(db: Db, e: string)
    requires e in db.dlq
  {
    exists k :: 0 <= k < |db.history| && db.history[k].event == e && db.history[k].status.DeadLettered?
      && db.history[k].entry.Some? && db.dlq[e].originalStreamId == Itoa(db.history[k].entry.value)
      && db.dlq[e].attemptCount == db.history[k].retry + 1
  }

  ghost predicate AttemptOk(c: Config, handed: nat, a: AttemptRow) {
    1 <= a.number <= c.maxRetries + 1 && a.entry < handed
  }

  ghost predicate Counted(c: Config, s: State) {
    && (forall e :: Balanced(s, e))
    && (forall e :: RedrivesPaid(s.db, e))
    && (forall e :: Alternates(s.db, e))
    && (forall e :: PublishedOnce(s.db, e))
    && (forall e :: e in s.db.dlq ==> NamesOwnEntry(s.db, e))
    && AllHanded(c, s.db, s.rs.handed)
  }

  lemma InitCounted(c: Config, t: nat)
    ensures Counted(c, Init(t))
  {
  }

  // ---- Every step keeps the counts --------------------------------------------------

  lemma TallyRow(rows: seq<Row>, row: Row, e: string)
    ensures forall status :: Tally(rows + [row], e, status)
              == Tally(rows, e, status) + (if row.event == e && row.status == status then 1 else 0)
  {
    forall status ensures Tally(rows + [row], e, status)
              == Tally(rows, e, status) + (if row.event == e && row.status == status then 1 else 0) {
      TallyAppend(rows, row, e, status);
    }
  }

  /** The status rows a step commits, in order. */
  function NewRows(c: Config, s: State, a: Action): seq<Row>
    requires Enabled(c, s, a)
  {
    match a
    case World(Ingest(e, ev, _, id, id2)) =>
      [Row(id, e, Stored, ev.createdAt, None, 0), Row(id2, e, PendingPublication, ev.createdAt, None, 0)]
    case Publish(p, CommitPublished(id, f)) =>
      var pub := s.ps.publishers[p];
      if f.Lost? then [] else [Row(id, pub.event, Published, pub.at, Some(pub.entry), 0)]
    case Work(w, RecordProcessing(id, at, f)) =>
      if f.Lost? then [] else [JobRow(JobOf(s.ps, w), id, Processing, at)]
    case Work(w, RecordOutcome(id, at, f)) =>
      var job := JobOf(s.ps, w);
      if f.Lost? then [] else [JobRow(job, id, OutcomeStatus(job.phase).value, at)]
    case Operate(e, CommitRedrive(id, f)) =>
      var tx := s.ps.redrives[e];
      if f.Lost? then [] else [Row(id, e, Redriven, tx.at, Some(tx.entry), 0)]
    case _ => []
  }

  lemma WorkerHistory(c: Config, s: State, w: nat, a: WorkerAction)
    requires WorkerEnabled(c, s, w, a)
    ensures WorkerStep(c, s, w, a).db.history == s.db.history + NewRows(c, s, Work(w, a))
  {
  }

  lemma PublisherHistory(c: Config, s: State, p: nat, a: PublisherAction)
    requires PublisherEnabled(s, p, a)
    ensures PublisherStep(c, s, p, a).db.history == s.db.history + NewRows(c, s, Publish(p, a))
  {
  }

  lemma WorldHistory(c: Config, s: State, a: WorldAction)
    requires WorldEnabled(s, a)
    ensures WorldStep(s, a).db.history == s.db.history + NewRows(c, s, World(a))
  {
  }

  lemma HistoryStep(c: Config, s: State, a: Action)
    requires Enabled(c, s, a)
    ensures Apply(c, s, a).db.history == s.db.history + NewRows(c, s, a)
  {
    match a {
      case World(world) => WorldHistory(c, s, world);
      case Publish(p, publish) => PublisherHistory(c, s, p, publish);
      case Work(w, work) => WorkerHistory(c, s, w, work);
      case Pumping(_, _) =>
      case Operate(_, _) =>
    }
  }

  function RowsOf(rows: seq<Row>, e: string, status: Status): nat
    requires |rows| <= 2
  {
    (if |rows| > 0 && rows[0].event == e && rows[0].status == status then 1 else 0)
    + (if |rows| > 1 && rows[1].event == e && rows[1].status == status then 1 else 0)
  }

  lemma TallyStep(c: Config, s: State, a: Action, e: string)
    requires Enabled(c, s, a)
    ensures forall status :: Tally(Apply(c, s, a).db.history, e, status)
              == Tally(s.db.history, e, status) + RowsOf(NewRows(c, s, a), e, status)
  {
    HistoryStep(c, s, a);
    var rows := NewRows(c, s, a);
    var h := s.db.history;
    if |rows| == 1 {
      assert rows == [rows[0]];
      TallyRow(h, rows[0], e);
    } else if |rows| == 2 {
      assert h + rows == (h + [rows[0]]) + [rows[1]];
      TallyRow(h, rows[0], e);
      TallyRow(h + [rows[0]], rows[1], e);
    } else {
      assert h + rows == h;
    }
  }

  lemma OutcomeAttempts(c: Config, s: State, w: nat, a: WorkerAction, e: string)
    requires WorkerEnabled(c, s, w, a) && a.RecordOutcome? && !a.f.Lost?
    ensures var rows := NewRows(c, s, Work(w, a));
            TallyAttempts(WorkerStep(c, s, w, a).db.attempts, e) == TallyAttempts(s.db.attempts, e)
              + RowsOf(rows, e, Delivered) + RowsOf(rows, e, Retrying) + RowsOf(rows, e, DeadLettered)
  {
    var db' := WorkerStep(c, s, w, a).db;
    TallyAttemptsAppend(s.db.attempts, db'.attempts[|s.db.attempts|], e);
  }

  lemma OtherAttempts(c: Config, s: State, a: Action, e: string)
    requires Enabled(c, s, a) && !(a.Work? && a.work.RecordOutcome? && !a.work.f.Lost?)
    ensures Apply(c, s, a).db.attempts == s.db.attempts
    ensures var rows := NewRows(c, s, a);
            RowsOf(rows, e, Delivered) == 0 && RowsOf(rows, e, Retrying) == 0 && RowsOf(rows, e, DeadLettered) == 0
  {
  }

  lemma AttemptsStep(c: Config, s: State, a: Action, e: string)
    requires Enabled(c, s, a)
    ensures var rows := NewRows(c, s, a);
            TallyAttempts(Apply(c, s, a).db.attempts, e) == TallyAttempts(s.db.attempts, e)
              + RowsOf(rows, e, Delivered) + RowsOf(rows, e, Retrying) + RowsOf(rows, e, DeadLettered)
  {
    if a.Work? && a.work.RecordOutcome? && !a.work.f.Lost? {
      OutcomeAttempts(c, s, a.w, a.work, e);
    } else {
      OtherAttempts(c, s, a, e);
    }
  }

  function One(b: bool): nat {
    if b then 1 else 0
  }

  /** A call enters flight by committing PROCESSING and commits an outcome only by leaving it. */
  lemma FlightStep(c: Config, s: State, w: nat, a: WorkerAction, e: string)
    requires WorkerEnabled(c, s, w, a)
    ensures var rows := NewRows(c, s, Work(w, a));
            One(Between(WorkerLocal(c, s, w, a).job, e))
              + RowsOf(rows, e, Delivered) + RowsOf(rows, e, Retrying) + RowsOf(rows, e, DeadLettered)
            <= One(Between(JobOf(s.ps, w), e)) + RowsOf(rows, e, Processing)
  {
  }

  lemma WorkersStep(c: Config, s: State, a: Action)
    requires Enabled(c, s, a)
    ensures Apply(c, s, a).ps.workers ==
            if a.Work? then s.ps.workers[a.w := WorkerLocal(c, s, a.w, a.work)] else s.ps.workers
  {
  }

  /** Rows, attempts and calls in flight that change together stay in balance. */
  lemma Rebalanced(s: State, s': State, rows: seq<Row>, e: string)
    requires Balanced(s, e) && |rows| <= 2
    requires forall status ::
               Tally(s'.db.history, e, status) == Tally(s.db.history, e, status) + RowsOf(rows, e, status)
    requires TallyAttempts(s'.db.attempts, e) == TallyAttempts(s.db.attempts, e)
               + RowsOf(rows, e, Delivered) + RowsOf(rows, e, Retrying) + RowsOf(rows, e, DeadLettered)
    requires |InFlight(s'.ps.workers, e)| + RowsOf(rows, e, Delivered) + RowsOf(rows, e, Retrying)
               + RowsOf(rows, e, DeadLettered) <= |InFlight(s.ps.workers, e)| + RowsOf(rows, e, Processing)
    ensures Balanced(s', e)
  {
  }

  lemma BalancedKept(c: Config, s: State, a: Action, e: string)
    requires Balanced(s, e) && Enabled(c, s, a)
    ensures Balanced(Apply(c, s, a), e)
  {
    TallyStep(c, s, a, e);
    AttemptsStep(c, s, a, e);
    WorkersStep(c, s, a);
    if a.Work? {
      FlightStep(c, s, a.w, a.work, e);
      InFlightUpdate(s.ps, a.w, WorkerLocal(c, s, a.w, a.work), e);
    } else {
      OtherAttempts(c, s, a, e);
    }
    Rebalanced(s, Apply(c, s, a), NewRows(c, s, a), e);
  }

  ghost predicate IsOpen(db: Db, e: string) {
    e in db.dlq && db.dlq[e].status.Open?
  }

  /** A redrive commits only on an open record and closes it; only a dead letter opens one. */
  ghost predicate DlqChange(db: Db, rows: seq<Row>, db': Db, e: string)
    requires |rows| <= 2
  {
    && RowsOf(rows, e, Redriven) + RowsOf(rows, e, DeadLettered) <= 1
    && (RowsOf(rows, e, Redriven) == 1 ==> IsOpen(db, e) && !IsOpen(db', e))
    && (IsOpen(db', e) && !IsOpen(db, e) ==> RowsOf(rows, e, DeadLettered) == 1)
    && (RowsOf(rows, e, DeadLettered) == 0 && e in db'.dlq ==>
          e in db.dlq && db'.dlq[e].originalStreamId == db.dlq[e].originalStreamId
          && db'.dlq[e].attemptCount == db.dlq[e].attemptCount)
  }

  lemma WorkDlqStep(c: Config, s: State, w: nat, a: WorkerAction, e: string)
    requires WorkerEnabled(c, s, w, a)
    ensures DlqChange(s.db, NewRows(c, s, Work(w, a)), WorkerStep(c, s, w, a).db, e)
  {
  }

  lemma RedriveDlqStep(c: Config, s: State, d: string, a: RedriveAction, e: string)
    requires DlqOk(s.db, s.rs.stream, s.ps.redrives) && RedriveEnabled(s, d, a)
    ensures DlqChange(s.db, NewRows(c, s, Operate(d, a)), RedriveStep(s, d, a).db, e)
  {
    assert d in s.ps.redrives ==> RedriveOk(s.db, s.rs.stream, d, s.ps.redrives[d]);
  }

  lemma OtherDlqStep(c: Config, s: State, a: Action, e: string)
    requires Enabled(c, s, a) && !a.Work? && !a.Operate?
    ensures DlqChange(s.db, NewRows(c, s, a), Apply(c, s, a).db, e)
  {
  }

  lemma DlqStep(c: Config, s: State, a: Action, e: string)
    requires DlqOk(s.db, s.rs.stream, s.ps.redrives) && Enabled(c, s, a)
    ensures DlqChange(s.db, NewRows(c, s, a), Apply(c, s, a).db, e)
  {
    match a {
      case Work(w, work) => WorkDlqStep(c, s, w, work, e);
      case Operate(d, operate) => RedriveDlqStep(c, s, d, operate, e);
      case _ => OtherDlqStep(c, s, a, e);
    }
  }

  lemma RedrivesPaidKept(c: Config, s: State, a: Action, e: string)
    requires DlqOk(s.db, s.rs.stream, s.ps.redrives) && RedrivesPaid(s.db, e) && Enabled(c, s, a)
    ensures RedrivesPaid(Apply(c, s, a).db, e)
  {
    TallyStep(c, s, a, e);
    DlqStep(c, s, a, e);
  }

  ghost predicate OutboxChange(outbox: map<string, OutboxRow>, rows: nat, outbox': map<string, OutboxRow>, e: string) {
    var isPublished := e in outbox && outbox[e].published;
    && (isPublished ==> e in outbox' && outbox'[e].published && rows == 0)
    && (!isPublished ==> (rows == 1 <==> e in outbox' && outbox'[e].published) && rows <= 1)
  }

  lemma PublisherOutboxStep(c: Config, s: State, p: nat, a: PublisherAction, e: string)
    requires OutboxOk(s.db.outbox, s.rs.stream, s.ps.publishers) && PublisherEnabled(s, p, a)
    ensures OutboxChange(s.db.outbox, RowsOf(NewRows(c, s, Publish(p, a)), e, Published),
                         PublisherStep(c, s, p, a).db.outbox, e)
  {
    if p in s.ps.publishers {
      assert PublisherOk(s.db.outbox, s.rs.stream, s.ps.publishers[p]);
    }
  }

  lemma OtherOutboxStep(c: Config, s: State, a: Action, e: string)
    requires s.db.outbox.Keys == s.db.events.Keys && Enabled(c, s, a) && !a.Publish?
    ensures OutboxChange(s.db.outbox, RowsOf(NewRows(c, s, a), e, Published), Apply(c, s, a).db.outbox, e)
  {
  }

  lemma OutboxStep(c: Config, s: State, a: Action, e: string)
    requires OutboxOk(s.db.outbox, s.rs.stream, s.ps.publishers) && s.db.outbox.Keys == s.db.events.Keys
    requires Enabled(c, s, a)
    ensures OutboxChange(s.db.outbox, RowsOf(NewRows(c, s, a), e, Published), Apply(c, s, a).db.outbox, e)
  {
    if a.Publish? {
      PublisherOutboxStep(c, s, a.p, a.publish, e);
    } else {
      OtherOutboxStep(c, s, a, e);
    }
  }

  lemma PublishedOnceKept(c: Config, s: State, a: Action, e: string)
    requires OutboxOk(s.db.outbox, s.rs.stream, s.ps.publishers) && s.db.outbox.Keys == s.db.events.Keys
    requires PublishedOnce(s.db, e) && Enabled(c, s, a)
    ensures PublishedOnce(Apply(c, s, a).db, e)
  {
    TallyStep(c, s, a, e);
    OutboxStep(c, s, a, e);
  }

  // ---- Alternation ------------------------------------------------------------------

  lemma DeadBetweenGrows(rows: seq<Row>, rows': seq<Row>, e: string, p: nat, q: nat, q': nat)
    requires DeadBetween(rows, e, p, q) && rows <= rows' && q <= q'
    ensures DeadBetween(rows', e, p, q')
  {
    var r :| p < r < q && r < |rows| && rows[r].event == e && rows[r].status.DeadLettered?;
    assert rows'[r] == rows[r];
  }

  lemma NewRedriveAt(c: Config, s: State, a: Action, e: string, q: nat)
    requires Enabled(c, s, a) && |s.db.history| <= q < |Apply(c, s, a).db.history|
    requires IsRedrive(Apply(c, s, a).db.history[q], e)
    ensures RowsOf(NewRows(c, s, a), e, Redriven) == 1 && q == |s.db.history|
  {
    HistoryStep(c, s, a);
  }

  lemma NewDeadAt(c: Config, s: State, a: Action, e: string)
    requires Enabled(c, s, a) && RowsOf(NewRows(c, s, a), e, DeadLettered) == 1
    ensures var h := Apply(c, s, a).db.history;
            var k := |s.db.history|;
            k < |h| && h[k].event == e && h[k].status.DeadLettered?
  {
    HistoryStep(c, s, a);
  }

  lemma AlternatesKept(c: Config, s: State, a: Action, e: string)
    requires DlqOk(s.db, s.rs.stream, s.ps.redrives) && Alternates(s.db, e) && Enabled(c, s, a)
    ensures Alternates(Apply(c, s, a).db, e)
  {
    var h := s.db.history;
    var db' := Apply(c, s, a).db;
    var h' := db'.history;
    StepGrows(c, s, a);
    DlqStep(c, s, a, e);
    forall p, q | 0 <= p < q < |h'| && IsRedrive(h'[p], e) && IsRedrive(h'[q], e)
      ensures DeadBetween(h', e, p, q) {
      if p >= |h| {
        NewRedriveAt(c, s, a, e, p);
      }
      if q >= |h| {
        NewRedriveAt(c, s, a, e, q);
      }
      DeadBetweenGrows(h, h', e, p, q, q);
    }
    if IsOpen(db', e) {
      forall p | 0 <= p < |h'| && IsRedrive(h'[p], e) ensures DeadBetween(h', e, p, |h'|) {
        if p >= |h| {
          NewRedriveAt(c, s, a, e, p);
        } else if RowsOf(NewRows(c, s, a), e, DeadLettered) == 1 {
          NewDeadAt(c, s, a, e);
        } else {
          DeadBetweenGrows(h, h', e, p, |h|, |h'|);
        }
      }
    }
  }

  // ---- What the record of a dead letter names ---------------------------------------

  lemma WhoDies(c: Config, s: State, a: Action, e: string)
    requires Enabled(c, s, a) && RowsOf(NewRows(c, s, a), e, DeadLettered) == 1
    ensures a.Work? && a.work.RecordOutcome? && !a.work.f.Lost?
    ensures JobOf(s.ps, a.w).Job? && JobOf(s.ps, a.w).phase.DlqWritten? && EventOf(JobOf(s.ps, a.w).msg) == e
  {
  }

  lemma DeadNamesItself(c: Config, s: State, w: nat, a: WorkerAction)
    requires WorkersOk(s.rs, s.db.history, s.ps.workers)
    requires WorkerEnabled(c, s, w, a) && a.RecordOutcome? && !a.f.Lost? && JobOf(s.ps, w).phase.DlqWritten?
    ensures NamesOwnEntry(WorkerStep(c, s, w, a).db, EventOf(JobOf(s.ps, w).msg))
  {
    var job := JobOf(s.ps, w);
    assert JobOk(s.rs.stream, s.rs.zset, s.db.history, job);
    TrimItoa(job.entry);
    assert WorkerStep(c, s, w, a).db.history[|s.db.history|] == JobRow(job, a.id, DeadLettered, a.at);
  }

  lemma NamesStay(db: Db, db': Db, e: string)
    requires e in db.dlq && NamesOwnEntry(db, e) && db.history <= db'.history && e in db'.dlq
    requires db'.dlq[e].originalStreamId == db.dlq[e].originalStreamId
    requires db'.dlq[e].attemptCount == db.dlq[e].attemptCount
    ensures NamesOwnEntry(db', e)
  {
    var k :| 0 <= k < |db.history| && db.history[k].event == e && db.history[k].status.DeadLettered?
      && db.history[k].entry.Some? && db.dlq[e].originalStreamId == Itoa(db.history[k].entry.value)
      && db.dlq[e].attemptCount == db.history[k].retry + 1;
    assert db'.history[k] == db.history[k];
  }

  lemma NamesKept(c: Config, s: State, a: Action, e: string)
    requires DlqOk(s.db, s.rs.stream, s.ps.redrives) && Enabled(c, s, a)
    requires e in s.db.dlq ==> NamesOwnEntry(s.db, e)
    requires WorkersOk(s.rs, s.db.history, s.ps.workers)
    requires e in Apply(c, s, a).db.dlq
    ensures NamesOwnEntry(Apply(c, s, a).db, e)
  {
    StepGrows(c, s, a);
    DlqStep(c, s, a, e);
    if RowsOf(NewRows(c, s, a), e, DeadLettered) == 1 {
      WhoDies(c, s, a, e);
      DeadNamesItself(c, s, a.w, a.work);
    } else {
      NamesStay(s.db, Apply(c, s, a).db, e);
    }
  }

  ghost predicate OutcomeHanded(handed: nat, row: Row) {
    IsOutcome(row.status) ==> row.entry.Some? && row.entry.value < handed
  }

  ghost predicate AllHanded(c: Config, db: Db, handed: nat) {
    && (forall k :: 0 <= k < |db.attempts| ==> AttemptOk(c, handed, db.attempts[k]))
    && (forall k :: 0 <= k < |db.history| ==> OutcomeHanded(handed, db.history[k]))
  }

  lemma AllHandedGrows(c: Config, db: Db, db': Db, handed: nat, handed': nat)
    requires AllHanded(c, db, handed) && handed <= handed'
    requires db'.attempts == db.attempts && db.history <= db'.history
    requires forall k :: |db.history| <= k < |db'.history| ==> !IsOutcome(db'.history[k].status)
    ensures AllHanded(c, db', handed')
  {
    forall k | 0 <= k < |db'.history| ensures OutcomeHanded(handed', db'.history[k]) {
      assert k < |db.history| ==> OutcomeHanded(handed, db.history[k]);
    }
  }

  lemma OutcomeAllHanded(c: Config, db: Db, handed: nat, job: Job, id: nat, at: nat)
    requires AllHanded(c, db, handed) && job.Job? && OutcomeStatus(job.phase).Some?
    requires job.entry < handed && 0 <= job.retry <= c.maxRetries
    ensures AllHanded(c, OutcomeDb(db, job, id, at), handed)
  {
  }

  lemma HandedKept(c: Config, s: State, a: Action)
    requires ValidConfig(c) && Inv(c, s) && AllHanded(c, s.db, s.rs.handed) && Enabled(c, s, a)
    ensures AllHanded(c, Apply(c, s, a).db, Apply(c, s, a).rs.handed)
  {
    if a.Work? && a.work.RecordOutcome? && !a.work.f.Lost? {
      var job := JobOf(s.ps, a.w);
      assert InGroup(s.rs.handed, WorkerOf(s.ps, a.w)) && 0 <= job.retry <= c.maxRetries by {
        WorkerFacts(c, s, a.w);
        JobEvent(c, s, job);
      }
      OutcomeAllHanded(c, s.db, s.rs.handed, job, a.work.id, a.work.at);
    } else {
      OtherHanded(c, s, a);
    }
  }

  lemma OtherHanded(c: Config, s: State, a: Action)
    requires AllHanded(c, s.db, s.rs.handed) && Enabled(c, s, a)
    requires !(a.Work? && a.work.RecordOutcome? && !a.work.f.Lost?)
    ensures AllHanded(c, Apply(c, s, a).db, Apply(c, s, a).rs.handed)
  {
    StepGrows(c, s, a);
    HistoryStep(c, s, a);
    AllHandedGrows(c, s.db, Apply(c, s, a).db, s.rs.handed, Apply(c, s, a).rs.handed);
  }

  lemma StepCounted(c: Config, s: State, a: Action)
    requires ValidConfig(c) && Inv(c, s) && Counted(c, s) && Enabled(c, s, a)
    ensures Counted(c, Apply(c, s, a))
  {
    var s' := Apply(c, s, a);
    forall e ensures Balanced(s', e) && RedrivesPaid(s'.db, e) && Alternates(s'.db, e) && PublishedOnce(s'.db, e) {
      BalancedKept(c, s, a, e);
      RedrivesPaidKept(c, s, a, e);
      AlternatesKept(c, s, a, e);
      PublishedOnceKept(c, s, a, e);
    }
    forall e | e in s'.db.dlq ensures NamesOwnEntry(s'.db, e) {
      NamesKept(c, s, a, e);
    }
    HandedKept(c, s, a);
  }

  lemma {:induction false} RunCounted(c: Config, s: State, acts: seq<Action>, s': State)
    requires ValidConfig(c) && Inv(c, s) && Counted(c, s) && Runs(c, s, acts, s')
    ensures Inv(c, s') && Counted(c, s')
    decreases |acts|
  {
    if acts != [] {
      StepKeeps(c, s, acts[0]);
      StepCounted(c, s, acts[0]);
      RunCounted(c, Apply(c, s, acts[0]), acts[1..], s');
    }
  }

  lemma ReachableCounted(c: Config, s: State)
    requires ValidConfig(c) && Reachable(c, s)
    ensures Inv(c, s) && Counted(c, s)
  {
    var t: nat, acts :| Runs(c, Init(t), acts, s);
    InitInv(c, t);
    InitCounted(c, t);
    RunCounted(c, Init(t), acts, s);
  }

  // ---- Results ----------------------------------------------------------------------

  /** Conservation: every delivery attempt has exactly one outcome row, and no outcome is
      committed without a PROCESSING row of its own. */
  lemma AttemptsConserved(c: Config, s: State, e: string)
    requires ValidConfig(c) && Reachable(c, s)
    ensures TallyAttempts(s.db.attempts, e)
            == Tally(s.db.history, e, Delivered) + Tally(s.db.history, e, Retrying)
               + Tally(s.db.history, e, DeadLettered)
    ensures TallyAttempts(s.db.attempts, e) <= Tally(s.db.history, e, Processing)
    ensures forall k :: 0 <= k < |s.db.attempts| ==> 1 <= s.db.attempts[k].number <= c.maxRetries + 1
  {
    ReachableCounted(c, s);
    assert Balanced(s, e);
    forall k | 0 <= k < |s.db.attempts| ensures 1 <= s.db.attempts[k].number <= c.maxRetries + 1 {
      assert AttemptOk(c, s.rs.handed, s.db.attempts[k]);
    }
  }

  /** An entry leaves the pending list only with a committed outcome row of its own. */
  lemma AckedHasOutcome(c: Config, s: State, i: nat)
    requires ValidConfig(c) && Reachable(c, s)
    requires i < s.rs.handed && i !in s.rs.pel
    ensures i < |s.rs.stream|
    ensures exists k :: 0 <= k < |s.db.history| && s.db.history[k].entry == Some(i) && IsOutcome(s.db.history[k].status)
                        && s.db.history[k].event == EventOf(s.rs.stream[i])
  {
    ReachableInv(c, s);
    var k :| 0 <= k < |s.db.history| && s.db.history[k].entry == Some(i) && IsOutcome(s.db.history[k].status);
    assert RowOk(s.db, s.rs.stream, s.rs.zset, s.db.history[k]);
  }

  /** Redrives are paid for by dead letters, with one to spare while the record is open. */
  lemma RedrivesPaidFor(c: Config, s: State, e: string)
    requires ValidConfig(c) && Reachable(c, s)
    ensures Tally(s.db.history, e, Redriven) <= Tally(s.db.history, e, DeadLettered)
    ensures e in s.db.dlq && s.db.dlq[e].status.Open? ==>
              Tally(s.db.history, e, Redriven) < Tally(s.db.history, e, DeadLettered)
    ensures forall p, q :: 0 <= p < q < |s.db.history| && IsRedrive(s.db.history[p], e) && IsRedrive(s.db.history[q], e)
              ==> DeadBetween(s.db.history, e, p, q)
  {
    ReachableCounted(c, s);
    assert RedrivesPaid(s.db, e) && Alternates(s.db, e);
  }

  /** Because moveToDLQ writes the message's own ID into the shared value map before the record
      is built, the record names the entry that was dead-lettered and its attempt number. */
  lemma DlqRecordNamesOwnEntry(c: Config, s: State, e: string)
    requires ValidConfig(c) && Reachable(c, s) && e in s.db.dlq
    ensures exists k :: 0 <= k < |s.db.history| && s.db.history[k].event == e && s.db.history[k].status.DeadLettered?
              && s.db.history[k].entry.Some? && s.db.dlq[e].originalStreamId == Itoa(s.db.history[k].entry.value)
              && s.db.dlq[e].attemptCount == s.db.history[k].retry + 1
  {
    ReachableCounted(c, s);
    assert NamesOwnEntry(s.db, e);
  }

  /** One PUBLISHED row exists exactly when the outbox row is published, and no two publishers
      hold the same row. */
  lemma PublishedExactlyOnce(c: Config, s: State, e: string)
    requires ValidConfig(c) && Reachable(c, s)
    ensures Tally(s.db.history, e, Published) == if e in s.db.outbox && s.db.outbox[e].published then 1 else 0
    ensures e in s.db.outbox <==> e in s.db.events
    ensures forall p, q :: p in s.ps.publishers && q in s.ps.publishers && p != q ==>
              s.ps.publishers[p].event != s.ps.publishers[q].event
  {
    ReachableCounted(c, s);
    assert PublishedOnce(s.db, e);
  }

  /** Publication failures that a run commits for event `e`. */
  ghost function Failures(c: Config, s: State, acts: seq<Action>, s': State, e: string): nat
    requires Runs(c, s, acts, s')
    decreases |acts|
  {
    if acts == [] then 0
    else
      var a := acts[0];
      One(a.Publish? && a.publish.CommitReschedule? && !a.publish.f.Lost? && s.ps.publishers[a.p].event == e)
      + Failures(c, Apply(c, s, a), acts[1..], s', e)
  }

  lemma AttemptCountStep(c: Config, s: State, a: Action, e: string)
    requires Enabled(c, s, a) && s.db.outbox.Keys == s.db.events.Keys && e in s.db.outbox
    ensures e in Apply(c, s, a).db.outbox
    ensures Apply(c, s, a).db.outbox[e].attemptCount == s.db.outbox[e].attemptCount
      + One(a.Publish? && a.publish.CommitReschedule? && !a.publish.f.Lost? && s.ps.publishers[a.p].event == e)
  {
  }

  /** Published is absorbing, and attempt_count counts exactly the committed failures. */
  lemma {:induction false} OutboxOverRuns(c: Config, s: State, acts: seq<Action>, s': State, e: string)
    requires ValidConfig(c) && Inv(c, s) && Runs(c, s, acts, s') && e in s.db.outbox
    ensures e in s'.db.outbox
    ensures s'.db.outbox[e].attemptCount == s.db.outbox[e].attemptCount + Failures(c, s, acts, s', e)
    ensures s.db.outbox[e].published ==> s'.db.outbox[e].published
    decreases |acts|
  {
    if acts != [] {
      StepKeeps(c, s, acts[0]);
      AttemptCountStep(c, s, acts[0], e);
      OutboxStep(c, s, acts[0], e);
      OutboxOverRuns(c, Apply(c, s, acts[0]), acts[1..], s', e);
    }
  }

  /** XGROUP SETID to an arbitrary position. */
  function Jump(s: State, n: nat): State {
    s.(rs := s.rs.(cursor := n, handed := Max(s.rs.handed, n)))
  }

  /** Moving the group cursor leaves every passed entry pending or with an outcome exactly when
      it does not go past the furthest entry ever handed out. */
  lemma JumpSafeIff(c: Config, s: State, n: nat)
    requires ValidConfig(c) && Reachable(c, s) && n <= |s.rs.stream|
    ensures Settlement(Jump(s, n).rs, s.db.history) <==> n <= s.rs.handed
  {
    ReachableCounted(c, s);
    if n > s.rs.handed {
      var i := s.rs.handed;
      forall k | 0 <= k < |s.db.history|
        ensures !(s.db.history[k].entry == Some(i) && IsOutcome(s.db.history[k].status)) {
        assert OutcomeHanded(s.rs.handed, s.db.history[k]);
      }
      assert i !in Jump(s, n).rs.pel;
    }
  }
}
