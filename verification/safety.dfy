/** What every step of the delivery protocol keeps. */
module Safety {
  import opened Text
  import opened Effects
  import opened Protocol

  // ---- Growth -----------------------------------------------------------------------

  ghost predicate EventsGrow(a: map<string, Event>, b: map<string, Event>) {
    forall e :: e in a ==> e in b && b[e] == a[e]
  }

  /** Nothing committed or appended is ever taken back. */
  ghost predicate Grows(s: State, s': State) {
    && EventsGrow(s.db.events, s'.db.events)
    && s.rs.stream <= s'.rs.stream
    && s.db.history <= s'.db.history
    && s.db.attempts <= s'.db.attempts
    && s.db.dlq.Keys <= s'.db.dlq.Keys
    && s.rs.handed <= s'.rs.handed
    && s.db.clock <= s'.db.clock
    && s.db.serial <= s'.db.serial
  }

  lemma GrowsTransitive(a: State, b: State, c: State)
    requires Grows(a, b) && Grows(b, c)
    ensures Grows(a, c)
  {
  }

  lemma WorldGrows(s: State, a: WorldAction)
    requires WorldEnabled(s, a)
    ensures Grows(s, WorldStep(s, a))
  {
  }

  lemma PublisherGrows(c: Config, s: State, p: nat, a: PublisherAction)
    requires PublisherEnabled(s, p, a)
    ensures Grows(s, PublisherStep(c, s, p, a))
  {
  }

  lemma WorkerGrows(c: Config, s: State, w: nat, a: WorkerAction)
    requires WorkerEnabled(c, s, w, a)
    ensures Grows(s, WorkerStep(c, s, w, a))
  {
  }

  lemma PumpGrows(s: State, k: nat, a: PumpAction)
    requires PumpEnabled(s, k, a)
    ensures Grows(s, PumpStep(s, k, a))
  {
  }

  lemma RedriveGrows(s: State, e: string, a: RedriveAction)
    requires RedriveEnabled(s, e, a)
    ensures Grows(s, RedriveStep(s, e, a))
  {
  }

  lemma StepGrows(c: Config, s: State, a: Action)
    requires Enabled(c, s, a)
    ensures Grows(s, Apply(c, s, a))
  {
    match a {
      case World(world) => WorldGrows(s, world);
      case Publish(p, publish) => PublisherGrows(c, s, p, publish);
      case Work(w, work) => WorkerGrows(c, s, w, work);
      case Pumping(k, pumping) => PumpGrows(s, k, pumping);
      case Operate(e, operate) => RedriveGrows(s, e, operate);
    }
  }

  // ---- Carriers ---------------------------------------------------------------------

  /** Where a message came from: the outbox, a replay or a redrive, and only one of them. */
  predicate OneOrigin(v: Values) {
    || (OutboxId in v && ReplayMark !in v && RedriveMark !in v)
    || (OutboxId !in v && ReplayMark in v && v[ReplayMark] == "1" && RedriveMark !in v)
    || (OutboxId !in v && ReplayMark !in v && RedriveMark in v && v[RedriveMark] == "1")
  }

  /** A message agrees with a committed event, and its counter is within the retry limit. */
  ghost predicate Faithful(c: Config, events: map<string, Event>, v: Values) {
    && EventId in v && v[EventId] in events
    && EventType in v && v[EventType] == events[v[EventId]].eventType
    && Source in v && v[Source] == events[v[EventId]].source
    && Payload in v && v[Payload] == events[v[EventId]].payload
    && CreatedAt in v && v[CreatedAt] == Itoa(events[v[EventId]].createdAt / 1_000_000)
    && RetryCount in v && v[RetryCount] == Itoa(ParseRetry(v))
    && 0 <= ParseRetry(v) <= c.maxRetries
    && OneOrigin(v)
  }

  /** `m` is the member that processing some entry below `n` schedules. */
  ghost predicate Derived(c: Config, stream: seq<Values>, n: nat, m: Values) {
    exists i: nat :: i < n && i < |stream| && m == MemberOf(stream, i) && ParseRetry(stream[i]) < c.maxRetries
  }

  ghost predicate EntryOk(c: Config, events: map<string, Event>, stream: seq<Values>, i: nat)
    requires i < |stream|
  {
    && Faithful(c, events, stream[i])
    && (OriginalStreamId in stream[i] ==> Derived(c, stream, i, stream[i]))
  }

  ghost predicate StreamOk(c: Config, events: map<string, Event>, stream: seq<Values>) {
    forall i :: 0 <= i < |stream| ==> EntryOk(c, events, stream, i)
  }

  ghost predicate QueueOk(c: Config, stream: seq<Values>, zset: set<Values>) {
    forall m :: m in zset ==> Derived(c, stream, |stream|, m)
  }

  ghost predicate PumpOk(c: Config, stream: seq<Values>, pump: Pump) {
    && (forall k :: 0 <= k < |pump.todo| ==> Derived(c, stream, |stream|, pump.todo[k]))
    && (pump.removing.Some? ==> pump.removing.value in stream)
  }

  ghost predicate PumpsOk(c: Config, stream: seq<Values>, pumps: map<nat, Pump>) {
    forall k :: k in pumps ==> PumpOk(c, stream, pumps[k])
  }

  // ---- Consumer group ---------------------------------------------------------------

  ghost predicate IdsOk(db: Db) {
    && (forall e :: e in db.events ==> e != "" && TrimSpace(e) == e)
    && db.outbox.Keys == db.events.Keys
  }

  ghost predicate GroupOk(rs: Redis) {
    && rs.cursor <= rs.handed <= |rs.stream|
    && (forall i :: i in rs.pel ==> i < rs.handed)
  }

  ghost predicate InGroup(handed: nat, worker: Worker) {
    && (forall k :: 0 <= k < |worker.todo| ==> worker.todo[k] < handed)
    && (worker.job.Job? ==> worker.job.entry < handed)
  }

  // ---- Dispositions -----------------------------------------------------------------

  predicate IsOutcome(status: Status) {
    status.Retrying? || status.Delivered? || status.DeadLettered?
  }

  /** Some committed outcome row names entry `i`. */
  ghost predicate Disposed(history: seq<Row>, i: nat) {
    exists k :: 0 <= k < |history| && history[k].entry == Some(i) && IsOutcome(history[k].status)
  }

  /** The retry of entry `i` is queued or already republished. */
  ghost predicate Continued(stream: seq<Values>, zset: set<Values>, i: nat) {
    i < |stream| && (MemberOf(stream, i) in zset || MemberOf(stream, i) in stream)
  }

  ghost predicate JobOk(stream: seq<Values>, zset: set<Values>, history: seq<Row>, job: Job) {
    job.Job? ==>
      && job.entry < |stream|
      && job.retry == ParseRetry(stream[job.entry])
      && EventOf(job.msg) == EventOf(stream[job.entry])
      && (job.phase.Took? || job.phase.Recorded? || job.phase.Succeeded? || job.phase.Broke?
          ==> job.msg == stream[job.entry])
      && (job.phase.Scheduled? ==> Continued(stream, zset, job.entry))
      && (job.phase.DlqWritten? ==>
            OriginalStreamId in job.msg && job.msg[OriginalStreamId] == Itoa(job.entry))
      && (job.phase.Settled? ==> Disposed(history, job.entry))
  }

  ghost predicate WorkersOk(rs: Redis, history: seq<Row>, workers: map<nat, Worker>) {
    forall w :: w in workers ==>
      InGroup(rs.handed, workers[w]) && JobOk(rs.stream, rs.zset, history, workers[w].job)
  }

  /** Everything handed to the consumer group is pending or has an outcome of its own. */
  ghost predicate Settlement(rs: Redis, history: seq<Row>) {
    forall i: nat :: i < rs.handed ==> i in rs.pel || Disposed(history, i)
  }

  ghost predicate RowOk(db: Db, stream: seq<Values>, zset: set<Values>, row: Row) {
    && row.event in db.events
    && row.id < db.serial
    && (row.entry.Some? ==> row.entry.value < |stream| && EventOf(stream[row.entry.value]) == row.event)
    && (IsOutcome(row.status) || row.status.Processing? ==> row.entry.Some?)
    && (row.status.Retrying? ==> Continued(stream, zset, row.entry.value))
    && (row.status.DeadLettered? || row.status.Redriven? ==> row.event in db.dlq)
  }

  ghost predicate RowsOk(db: Db, stream: seq<Values>, zset: set<Values>) {
    forall k :: 0 <= k < |db.history| ==> RowOk(db, stream, zset, db.history[k])
  }

  // ---- Outbox -----------------------------------------------------------------------

  ghost predicate HasEntry(stream: seq<Values>, e: string) {
    exists j :: 0 <= j < |stream| && EventOf(stream[j]) == e
  }

  ghost predicate PublisherOk(outbox: map<string, OutboxRow>, stream: seq<Values>, pub: Publisher) {
    && pub.event in outbox && !outbox[pub.event].published
    && (pub.Appended? ==> pub.entry < |stream| && EventOf(stream[pub.entry]) == pub.event)
  }

  ghost predicate OutboxOk(outbox: map<string, OutboxRow>, stream: seq<Values>, publishers: map<nat, Publisher>) {
    && (forall e :: e in outbox && outbox[e].published ==> HasEntry(stream, e))
    && (forall p :: p in publishers ==> PublisherOk(outbox, stream, publishers[p]))
    && (forall p, q :: p in publishers && q in publishers && p != q ==>
          publishers[p].event != publishers[q].event)
  }

  // ---- Dead letters -----------------------------------------------------------------

  ghost predicate IsRedriveOf(events: map<string, Event>, stream: seq<Values>, j: nat, e: string) {
    j < |stream| && e in events && stream[j] == RedriveValues(e, events[e])
  }

  /** Entry `j` is younger than every entry of `e` recorded as dead-lettered. */
  ghost predicate AboveDead(history: seq<Row>, e: string, j: nat) {
    forall k :: 0 <= k < |history| && history[k].status.DeadLettered? && history[k].event == e
      ==> history[k].entry.Some? && history[k].entry.value < j
  }

  ghost predicate RedrivenAbove(db: Db, stream: seq<Values>, e: string) {
    exists j: nat :: IsRedriveOf(db.events, stream, j, e) && AboveDead(db.history, e, j)
  }

  ghost predicate RedriveOk(db: Db, stream: seq<Values>, e: string, tx: Redrive) {
    && e in db.dlq && db.dlq[e].status.Open?
    && (tx.RedriveAppended? ==>
          IsRedriveOf(db.events, stream, tx.entry, e) && AboveDead(db.history, e, tx.entry))
  }

  ghost predicate DlqOk(db: Db, stream: seq<Values>, redrives: map<string, Redrive>) {
    && (forall e :: e in db.dlq ==> e in db.events)
    && (forall e :: e in db.dlq && db.dlq[e].status.RedrivenDlq? ==> RedrivenAbove(db, stream, e))
    && (forall e :: e in redrives ==> RedriveOk(db, stream, e, redrives[e]))
  }

  ghost predicate Inv(c: Config, s: State) {
    && IdsOk(s.db)
    && GroupOk(s.rs)
    && StreamOk(c, s.db.events, s.rs.stream)
    && QueueOk(c, s.rs.stream, s.rs.zset)
    && PumpsOk(c, s.rs.stream, s.ps.pumps)
    && WorkersOk(s.rs, s.db.history, s.ps.workers)
    && Settlement(s.rs, s.db.history)
    && RowsOk(s.db, s.rs.stream, s.rs.zset)
    && OutboxOk(s.db.outbox, s.rs.stream, s.ps.publishers)
    && DlqOk(s.db, s.rs.stream, s.ps.redrives)
  }

  lemma InitInv(c: Config, t: nat)
    ensures Inv(c, Init(t))
  {
  }

  // ---- Lemmas about messages --------------------------------------------------------

  lemma ZeroRetry(v: Values)
    requires RetryCount in v && v[RetryCount] == "0"
    ensures ParseRetry(v) == 0 && v[RetryCount] == Itoa(0)
  {
    AtoiItoa(0);
    assert Itoa(0) == "0";
  }

  lemma NewOrigin(id: string, ev: Event, mark: Field, text: string)
    requires mark in {OutboxId, ReplayMark, RedriveMark} && (mark != OutboxId ==> text == "1")
    ensures OneOrigin(Carrier(id, ev)[mark := text])
  {
    var v := Carrier(id, ev);
    assert OutboxId !in v && ReplayMark !in v && RedriveMark !in v;
  }

  lemma NewCarrier(c: Config, events: map<string, Event>, id: string, mark: Field, text: string)
    requires ValidConfig(c) && id in events && TrimSpace(id) == id
    requires mark in {OutboxId, ReplayMark, RedriveMark} && (mark != OutboxId ==> text == "1")
    ensures var v := Carrier(id, events[id])[mark := text];
            Faithful(c, events, v) && ParseRetry(v) == 0 && OriginalStreamId !in v && EventOf(v) == id
  {
    ZeroRetry(Carrier(id, events[id])[mark := text]);
    NewOrigin(id, events[id], mark, text);
  }

  lemma RetryFaithful(c: Config, events: map<string, Event>, v: Values, i: nat)
    requires ValidConfig(c) && Faithful(c, events, v) && ParseRetry(v) < c.maxRetries
    ensures var m := WithRetry(v, i, ParseRetry(v) + 1);
            Faithful(c, events, m) && ParseRetry(m) == ParseRetry(v) + 1 && EventOf(m) == EventOf(v)
  {
    AtoiItoa(ParseRetry(v) + 1);
  }

  lemma DerivedGrows(c: Config, a: seq<Values>, b: seq<Values>, n: nat, m: nat, v: Values)
    requires a <= b && n <= m && Derived(c, a, n, v)
    ensures Derived(c, b, m, v)
  {
    var i: nat :| i < n && i < |a| && v == MemberOf(a, i) && ParseRetry(a[i]) < c.maxRetries;
    assert v == MemberOf(b, i);
  }

  lemma MemberFaithful(c: Config, events: map<string, Event>, stream: seq<Values>, i: nat)
    requires ValidConfig(c) && i < |stream| && Faithful(c, events, stream[i]) && ParseRetry(stream[i]) < c.maxRetries
    ensures Faithful(c, events, MemberOf(stream, i)) && ParseRetry(MemberOf(stream, i)) == ParseRetry(stream[i]) + 1
  {
    var v := stream[i];
    RetryFaithful(c, events, v, i);
    assert MemberOf(stream, i) == WithRetry(v, i, ParseRetry(v) + 1);
  }

  lemma DerivedFaithful(c: Config, events: map<string, Event>, stream: seq<Values>, n: nat, m: Values)
    requires ValidConfig(c) && Derived(c, stream, n, m) && StreamOk(c, events, stream)
    ensures Faithful(c, events, m)
  {
    var i: nat :| i < n && i < |stream| && m == MemberOf(stream, i) && ParseRetry(stream[i]) < c.maxRetries;
    assert EntryOk(c, events, stream, i);
    MemberFaithful(c, events, stream, i);
  }

  // ---- Growth keeps each part -------------------------------------------------------

  lemma StreamOkAppend(c: Config, events: map<string, Event>, stream: seq<Values>, v: Values)
    requires StreamOk(c, events, stream) && Faithful(c, events, v)
    requires OriginalStreamId in v ==> Derived(c, stream, |stream|, v)
    ensures StreamOk(c, events, stream + [v])
  {
    var longer := stream + [v];
    forall i | 0 <= i < |longer| ensures EntryOk(c, events, longer, i) {
      if i < |stream| {
        assert EntryOk(c, events, stream, i);
      }
      if OriginalStreamId in longer[i] {
        DerivedGrows(c, stream, longer, i, i, longer[i]);
      }
    }
  }

  lemma StreamOkEvents(c: Config, events: map<string, Event>, events': map<string, Event>, stream: seq<Values>)
    requires StreamOk(c, events, stream) && EventsGrow(events, events')
    ensures StreamOk(c, events', stream)
  {
    forall i | 0 <= i < |stream| ensures EntryOk(c, events', stream, i) {
      assert EntryOk(c, events, stream, i);
    }
  }

  lemma QueueGrows(c: Config, stream: seq<Values>, stream': seq<Values>, zset: set<Values>, pumps: map<nat, Pump>)
    requires QueueOk(c, stream, zset) && PumpsOk(c, stream, pumps) && stream <= stream'
    ensures QueueOk(c, stream', zset) && PumpsOk(c, stream', pumps)
  {
    forall m | m in zset ensures Derived(c, stream', |stream'|, m) {
      DerivedGrows(c, stream, stream', |stream|, |stream'|, m);
    }
    forall k | k in pumps ensures PumpOk(c, stream', pumps[k]) {
      assert PumpOk(c, stream, pumps[k]);
      forall j | 0 <= j < |pumps[k].todo| ensures Derived(c, stream', |stream'|, pumps[k].todo[j]) {
        DerivedGrows(c, stream, stream', |stream|, |stream'|, pumps[k].todo[j]);
      }
    }
  }

  /** Redis changed without losing a queued or republished retry. */
  ghost predicate KeepsRetries(stream: seq<Values>, zset: set<Values>, stream': seq<Values>, zset': set<Values>) {
    stream <= stream' && forall m :: m in zset ==> m in zset' || m in stream'
  }

  lemma ContinuedKept(stream: seq<Values>, zset: set<Values>, stream': seq<Values>, zset': set<Values>, i: nat)
    requires KeepsRetries(stream, zset, stream', zset') && Continued(stream, zset, i)
    ensures Continued(stream', zset', i)
  {
    assert MemberOf(stream', i) == MemberOf(stream, i);
    if MemberOf(stream, i) in stream {
      var j :| 0 <= j < |stream| && stream[j] == MemberOf(stream, i);
      assert stream'[j] == stream[j];
    }
  }

  lemma RowsGrow(db: Db, db': Db, rs: Redis, rs': Redis)
    requires RowsOk(db, rs.stream, rs.zset)
    requires EventsGrow(db.events, db'.events) && db.serial <= db'.serial && db.dlq.Keys <= db'.dlq.Keys
    requires db.history <= db'.history
    requires KeepsRetries(rs.stream, rs.zset, rs'.stream, rs'.zset)
    ensures forall k :: 0 <= k < |db.history| ==> RowOk(db', rs'.stream, rs'.zset, db'.history[k])
  {
    forall k | 0 <= k < |db.history| ensures RowOk(db', rs'.stream, rs'.zset, db'.history[k]) {
      var row := db.history[k];
      assert RowOk(db, rs.stream, rs.zset, row);
      if row.status.Retrying? {
        ContinuedKept(rs.stream, rs.zset, rs'.stream, rs'.zset, row.entry.value);
      }
    }
  }

  lemma DisposedGrows(history: seq<Row>, history': seq<Row>, i: nat)
    requires history <= history' && Disposed(history, i)
    ensures Disposed(history', i)
  {
    var k :| 0 <= k < |history| && history[k].entry == Some(i) && IsOutcome(history[k].status);
    assert history'[k] == history[k];
  }

  lemma JobGrows(rs: Redis, rs': Redis, history: seq<Row>, history': seq<Row>, job: Job)
    requires JobOk(rs.stream, rs.zset, history, job)
    requires KeepsRetries(rs.stream, rs.zset, rs'.stream, rs'.zset) && history <= history'
    ensures JobOk(rs'.stream, rs'.zset, history', job)
  {
    if job.Job? {
      if job.phase.Scheduled? {
        ContinuedKept(rs.stream, rs.zset, rs'.stream, rs'.zset, job.entry);
      }
      if job.phase.Settled? {
        DisposedGrows(history, history', job.entry);
      }
    }
  }

  lemma WorkersGrow(rs: Redis, rs': Redis, history: seq<Row>, history': seq<Row>, workers: map<nat, Worker>)
    requires WorkersOk(rs, history, workers)
    requires KeepsRetries(rs.stream, rs.zset, rs'.stream, rs'.zset) && history <= history' && rs.handed <= rs'.handed
    ensures WorkersOk(rs', history', workers)
  {
    forall w | w in workers ensures JobOk(rs'.stream, rs'.zset, history', workers[w].job) {
      JobGrows(rs, rs', history, history', workers[w].job);
    }
  }

  lemma SettlementGrows(rs: Redis, rs': Redis, history: seq<Row>, history': seq<Row>)
    requires Settlement(rs, history) && history <= history'
    requires forall i: nat :: i < rs'.handed ==>
               i in rs'.pel || (i < rs.handed && (i in rs.pel ==> Disposed(history', i)))
    ensures Settlement(rs', history')
  {
    forall i: nat | i < rs'.handed ensures i in rs'.pel || Disposed(history', i) {
      if i !in rs'.pel && Disposed(history, i) {
        DisposedGrows(history, history', i);
      }
    }
  }

  lemma OutboxGrows(outbox: map<string, OutboxRow>, stream: seq<Values>, stream': seq<Values>,
                    publishers: map<nat, Publisher>)
    requires OutboxOk(outbox, stream, publishers) && stream <= stream'
    ensures OutboxOk(outbox, stream', publishers)
  {
    forall e | e in outbox && outbox[e].published ensures HasEntry(stream', e) {
      var j :| 0 <= j < |stream| && EventOf(stream[j]) == e;
      assert EventOf(stream'[j]) == e;
    }
    forall p | p in publishers ensures PublisherOk(outbox, stream', publishers[p]) {
      assert PublisherOk(outbox, stream, publishers[p]);
    }
  }

  lemma RedrivenAboveGrows(db: Db, db': Db, stream: seq<Values>, stream': seq<Values>, e: string)
    requires RedrivenAbove(db, stream, e) && stream <= stream' && EventsGrow(db.events, db'.events)
    requires forall j :: AboveDead(db.history, e, j) ==> AboveDead(db'.history, e, j)
    ensures RedrivenAbove(db', stream', e)
  {
    var j: nat :| IsRedriveOf(db.events, stream, j, e) && AboveDead(db.history, e, j);
    assert IsRedriveOf(db'.events, stream', j, e) && AboveDead(db'.history, e, j);
  }

  /** New rows other than dead letters leave every DLQ record's promise alone. */
  lemma DlqGrows(db: Db, db': Db, stream: seq<Values>, stream': seq<Values>, redrives: map<string, Redrive>)
    requires DlqOk(db, stream, redrives) && stream <= stream' && EventsGrow(db.events, db'.events)
    requires db'.dlq == db.dlq && db.history <= db'.history
    requires forall k :: |db.history| <= k < |db'.history| ==> !db'.history[k].status.DeadLettered?
    ensures DlqOk(db', stream', redrives)
  {
    forall e, j | AboveDead(db.history, e, j) ensures AboveDead(db'.history, e, j) {
    }
    forall e | e in db'.dlq && db'.dlq[e].status.RedrivenDlq? ensures RedrivenAbove(db', stream', e) {
      RedrivenAboveGrows(db, db', stream, stream', e);
    }
    forall e | e in redrives ensures RedriveOk(db', stream', e, redrives[e]) {
      assert RedriveOk(db, stream, e, redrives[e]);
    }
  }

  // ---- Appending to the stream ------------------------------------------------------

  /** A new stream entry, whoever appends it, keeps everything that does not speak of the
      appending process itself. */
  lemma AppendKeeps(c: Config, s: State, v: Values)
    requires ValidConfig(c) && Inv(c, s) && Faithful(c, s.db.events, v)
    requires OriginalStreamId in v ==> Derived(c, s.rs.stream, |s.rs.stream|, v)
    ensures Inv(c, s.(rs := WithEntry(s.rs, v)))
  {
    var rs' := WithEntry(s.rs, v);
    StreamOkAppend(c, s.db.events, s.rs.stream, v);
    QueueGrows(c, s.rs.stream, rs'.stream, s.rs.zset, s.ps.pumps);
    WorkersGrow(s.rs, rs', s.db.history, s.db.history, s.ps.workers);
    SettlementGrows(s.rs, rs', s.db.history, s.db.history);
    RowsGrow(s.db, s.db, s.rs, rs');
    OutboxGrows(s.db.outbox, s.rs.stream, rs'.stream, s.ps.publishers);
    DlqGrows(s.db, s.db, s.rs.stream, rs'.stream, s.ps.redrives);
  }

  // ---- Committing a status row ------------------------------------------------------

  /** A committed row that is neither a dead letter nor about an unknown entry keeps the
      invariant; the tables besides the history may gain an event or an attempt. */
  lemma RowKeeps(c: Config, s: State, db: Db, row: Row)
    requires ValidConfig(c) && Inv(c, s)
    requires db.history == s.db.history && db.dlq == s.db.dlq && db.serial == s.db.serial
    requires EventsGrow(s.db.events, db.events) && IdsOk(db)
    requires OutboxOk(db.outbox, s.rs.stream, s.ps.publishers)
    requires RowOk(WithRow(db, row), s.rs.stream, s.rs.zset, row) && !row.status.DeadLettered?
    ensures Inv(c, s.(db := WithRow(db, row)))
  {
    var db' := WithRow(db, row);
    StreamOkEvents(c, s.db.events, db'.events, s.rs.stream);
    WorkersGrow(s.rs, s.rs, s.db.history, db'.history, s.ps.workers);
    SettlementGrows(s.rs, s.rs, s.db.history, db'.history);
    RowsGrow(s.db, db', s.rs, s.rs);
    DlqGrows(s.db, db', s.rs.stream, s.rs.stream, s.ps.redrives);
  }

  // ---- Changing one process ---------------------------------------------------------

  lemma PublishersChange(c: Config, s: State, pubs: map<nat, Publisher>)
    requires Inv(c, s) && OutboxOk(s.db.outbox, s.rs.stream, pubs)
    ensures Inv(c, s.(ps := s.ps.(publishers := pubs)))
  {
  }

  lemma WorkerChange(c: Config, s: State, w: nat, worker: Worker)
    requires Inv(c, s) && InGroup(s.rs.handed, worker) && JobOk(s.rs.stream, s.rs.zset, s.db.history, worker.job)
    ensures Inv(c, s.(ps := s.ps.(workers := s.ps.workers[w := worker])))
  {
  }

  lemma PublisherLeaves(c: Config, s: State, p: nat)
    requires Inv(c, s)
    ensures Inv(c, s.(ps := s.ps.(publishers := s.ps.publishers - {p})))
  {
    PublishersChange(c, s, s.ps.publishers - {p});
  }

  // ---- Every step keeps the invariant -----------------------------------------------

  lemma IngestTables(s: State, e: string, ev: Event, row: OutboxRow)
    requires IdsOk(s.db) && OutboxOk(s.db.outbox, s.rs.stream, s.ps.publishers)
    requires e !in s.db.events && e != "" && TrimSpace(e) == e && !row.published
    ensures var db := s.db.(events := s.db.events[e := ev], outbox := s.db.outbox[e := row]);
            IdsOk(db) && EventsGrow(s.db.events, db.events) && OutboxOk(db.outbox, s.rs.stream, s.ps.publishers)
  {
    var outbox := s.db.outbox[e := row];
    forall p | p in s.ps.publishers ensures PublisherOk(outbox, s.rs.stream, s.ps.publishers[p]) {
      assert PublisherOk(s.db.outbox, s.rs.stream, s.ps.publishers[p]);
    }
  }

  lemma IngestKeeps(c: Config, s: State, e: string, ev: Event, outboxId: string, id: nat, id2: nat)
    requires ValidConfig(c) && Inv(c, s) && WorldEnabled(s, Ingest(e, ev, outboxId, id, id2))
    ensures Inv(c, s.(db := IngestDb(s.db, e, ev, outboxId, id, id2)))
  {
    var outboxRow := OutboxRow(outboxId, false, 0, ev.createdAt, ev.createdAt);
    var db1 := s.db.(events := s.db.events[e := ev], outbox := s.db.outbox[e := outboxRow]);
    IngestTables(s, e, ev, outboxRow);
    var row := Row(id, e, Stored, ev.createdAt, None, 0);
    RowKeeps(c, s, db1, row);
    var s1 := s.(db := WithRow(db1, row));
    RowKeeps(c, s1, s1.db, Row(id2, e, PendingPublication, ev.createdAt, None, 0));
  }

  lemma WorldKeeps(c: Config, s: State, a: WorldAction)
    requires ValidConfig(c) && Inv(c, s) && WorldEnabled(s, a)
    ensures Inv(c, WorldStep(s, a))
  {
    match a {
      case Tick(_) =>
        ClockKeeps(c, s, a.t);
      case Ingest(e, ev, outboxId, id, id2) =>
        IngestKeeps(c, s, e, ev, outboxId, id, id2);
      case Replay(e) =>
        NewCarrier(c, s.db.events, e, ReplayMark, "1");
        AppendKeeps(c, s, ReplayValues(e, s.db.events[e]));
      case SetCursor(n) =>
        var rs' := s.rs.(cursor := n);
        WorkersGrow(s.rs, rs', s.db.history, s.db.history, s.ps.workers);
      case ControlReceiver(_, _) =>
      case OtherRequest(_, _) =>
    }
  }

  lemma ClockKeeps(c: Config, s: State, t: nat)
    requires Inv(c, s) && t >= s.db.clock
    ensures Inv(c, s.(db := s.db.(clock := t)))
  {
    var db' := s.db.(clock := t);
    RowsGrow(s.db, db', s.rs, s.rs);
    DlqGrows(s.db, db', s.rs.stream, s.rs.stream, s.ps.redrives);
  }

  /** The outbox row of a finished publisher may change; nobody else holds it. */
  lemma OutboxRowChange(s: State, p: nat, row: OutboxRow)
    requires OutboxOk(s.db.outbox, s.rs.stream, s.ps.publishers) && p in s.ps.publishers
    requires row.published ==> HasEntry(s.rs.stream, s.ps.publishers[p].event)
    ensures OutboxOk(s.db.outbox[s.ps.publishers[p].event := row], s.rs.stream, s.ps.publishers - {p})
  {
    var outbox := s.db.outbox[s.ps.publishers[p].event := row];
    var rest := s.ps.publishers - {p};
    forall q | q in rest ensures PublisherOk(outbox, s.rs.stream, rest[q]) {
      assert PublisherOk(s.db.outbox, s.rs.stream, s.ps.publishers[q]);
    }
  }

  lemma PublishedRowOk(s: State, p: nat, id: nat)
    requires OutboxOk(s.db.outbox, s.rs.stream, s.ps.publishers) && PublisherEnabled(s, p, CommitPublished(id, Ok))
    ensures var pub := s.ps.publishers[p];
            var row := Row(id, pub.event, Published, pub.at, Some(pub.entry), 0);
            var outboxRow := s.db.outbox[pub.event].(published := true);
            var db := s.db.(outbox := s.db.outbox[pub.event := outboxRow]);
            && RowOk(WithRow(db, row), s.rs.stream, s.rs.zset, row)
            && OutboxOk(db.outbox, s.rs.stream, s.ps.publishers - {p})
  {
    var pub := s.ps.publishers[p];
    assert PublisherOk(s.db.outbox, s.rs.stream, pub);
    assert HasEntry(s.rs.stream, pub.event);
    OutboxRowChange(s, p, s.db.outbox[pub.event].(published := true));
  }

  lemma CommitPublishedKeeps(c: Config, s: State, p: nat, id: nat, f: Fault)
    requires ValidConfig(c) && Inv(c, s) && PublisherEnabled(s, p, CommitPublished(id, f))
    ensures Inv(c, PublisherStep(c, s, p, CommitPublished(id, f)))
  {
    var pub := s.ps.publishers[p];
    var s0 := s.(ps := s.ps.(publishers := s.ps.publishers - {p}));
    PublisherLeaves(c, s, p);
    if !f.Lost? {
      PublishedRowOk(s, p, id);
      var row := s.db.outbox[pub.event].(published := true);
      var db := s.db.(outbox := s.db.outbox[pub.event := row]);
      RowKeeps(c, s0, db, Row(id, pub.event, Published, pub.at, Some(pub.entry), 0));
    }
  }

  lemma RescheduleKeeps(c: Config, s: State, p: nat, f: Fault)
    requires ValidConfig(c) && Inv(c, s) && PublisherEnabled(s, p, CommitReschedule(f))
    ensures Inv(c, PublisherStep(c, s, p, CommitReschedule(f)))
  {
    var pub := s.ps.publishers[p];
    if f.Lost? {
      PublisherLeaves(c, s, p);
    } else {
      var row := Rescheduled(c, s.db.outbox[pub.event], pub.at);
      var db := s.db.(outbox := s.db.outbox[pub.event := row]);
      OutboxRowChange(s, p, row);
      RowsGrow(s.db, db, s.rs, s.rs);
      DlqGrows(s.db, db, s.rs.stream, s.rs.stream, s.ps.redrives);
    }
  }

  lemma PublisherAdvances(c: Config, s: State, p: nat, pub: Publisher)
    requires Inv(c, s) && p in s.ps.publishers && pub.event == s.ps.publishers[p].event
    requires PublisherOk(s.db.outbox, s.rs.stream, pub)
    ensures Inv(c, s.(ps := s.ps.(publishers := s.ps.publishers[p := pub])))
  {
    PublishersChange(c, s, s.ps.publishers[p := pub]);
  }

  lemma AppendRootKeeps(c: Config, s: State, p: nat, f: Fault)
    requires ValidConfig(c) && Inv(c, s) && PublisherEnabled(s, p, AppendRoot(f))
    ensures Inv(c, PublisherStep(c, s, p, AppendRoot(f)))
  {
    var pub := s.ps.publishers[p];
    assert PublisherOk(s.db.outbox, s.rs.stream, pub);
    var v := RootValues(pub.event, s.db.events[pub.event], s.db.outbox[pub.event].outboxId);
    var s1 := s.(rs := WithEntry(s.rs, v));
    assert Inv(c, s1) && EventOf(v) == pub.event by {
      NewCarrier(c, s.db.events, pub.event, OutboxId, s.db.outbox[pub.event].outboxId);
      AppendKeeps(c, s, v);
    }
    match f {
      case Ok => PublisherAdvances(c, s1, p, Appended(pub.event, pub.at, pub.floor, |s.rs.stream|));
      case Lost => PublisherAdvances(c, s, p, PublishFailed(pub.event, pub.at));
      case Ambiguous => PublisherAdvances(c, s1, p, PublishFailed(pub.event, pub.at));
    }
  }

  lemma PublisherKeeps(c: Config, s: State, p: nat, a: PublisherAction)
    requires ValidConfig(c) && Inv(c, s) && PublisherEnabled(s, p, a)
    ensures Inv(c, PublisherStep(c, s, p, a))
  {
    match a {
      case Claim(_, _) => PublishersChange(c, s, PublisherStep(c, s, p, a).ps.publishers);
      case AppendRoot(f) => AppendRootKeeps(c, s, p, f);
      case CommitPublished(id, f) => CommitPublishedKeeps(c, s, p, id, f);
      case CommitReschedule(f) => RescheduleKeeps(c, s, p, f);
      case CrashPublisher => PublisherLeaves(c, s, p);
    }
  }

  lemma PumpKeeps(c: Config, s: State, k: nat, a: PumpAction)
    requires ValidConfig(c) && Inv(c, s) && PumpEnabled(s, k, a)
    ensures Inv(c, PumpStep(s, k, a))
  {
    match a {
      case FetchDue(members) =>
      case Republish(f) =>
        assert PumpOk(c, s.rs.stream, s.ps.pumps[k]);
        var m := s.ps.pumps[k].todo[0];
        if !f.Lost? {
          DerivedFaithful(c, s.db.events, s.rs.stream, |s.rs.stream|, m);
          AppendKeeps(c, s, m);
          assert WithEntry(s.rs, m).stream[|s.rs.stream|] == m;
          assert PumpOk(c, WithEntry(s.rs, m).stream, s.ps.pumps[k]);
        }
      case RemoveMember(f) =>
        assert PumpOk(c, s.rs.stream, s.ps.pumps[k]);
        if !f.Lost? {
          var rs' := s.rs.(zset := s.rs.zset - {s.ps.pumps[k].removing.value});
          WorkersGrow(s.rs, rs', s.db.history, s.db.history, s.ps.workers);
          RowsGrow(s.db, s.db, s.rs, rs');
        }
      case CrashPump =>
    }
  }

  lemma CommitRedriveDlq(s: State, e: string, id: nat)
    requires DlqOk(s.db, s.rs.stream, s.ps.redrives) && RedriveEnabled(s, e, CommitRedrive(id, Ok))
    ensures DlqOk(RedriveDb(s.db, e, s.ps.redrives[e], id), s.rs.stream, s.ps.redrives - {e})
  {
    var tx := s.ps.redrives[e];
    assert RedriveOk(s.db, s.rs.stream, e, tx);
    var db' := RedriveDb(s.db, e, tx, id);
    var rest := s.ps.redrives - {e};
    forall d, j | AboveDead(s.db.history, d, j) ensures AboveDead(db'.history, d, j) {
    }
    forall d | d in db'.dlq && db'.dlq[d].status.RedrivenDlq? ensures RedrivenAbove(db', s.rs.stream, d) {
      if d == e {
        assert IsRedriveOf(db'.events, s.rs.stream, tx.entry, e) && AboveDead(db'.history, e, tx.entry);
      } else {
        RedrivenAboveGrows(s.db, db', s.rs.stream, s.rs.stream, d);
      }
    }
    forall d | d in rest ensures RedriveOk(db', s.rs.stream, d, rest[d]) {
      assert RedriveOk(s.db, s.rs.stream, d, s.ps.redrives[d]);
    }
  }

  lemma CommitRedriveRows(c: Config, s: State, e: string, id: nat)
    requires ValidConfig(c) && IdsOk(s.db) && RowsOk(s.db, s.rs.stream, s.rs.zset)
    requires DlqOk(s.db, s.rs.stream, s.ps.redrives) && RedriveEnabled(s, e, CommitRedrive(id, Ok))
    ensures RowsOk(RedriveDb(s.db, e, s.ps.redrives[e], id), s.rs.stream, s.rs.zset)
  {
    assert RedriveOk(s.db, s.rs.stream, e, s.ps.redrives[e]);
    NewCarrier(c, s.db.events, e, RedriveMark, "1");
    RowsGrow(s.db, RedriveDb(s.db, e, s.ps.redrives[e], id), s.rs, s.rs);
  }

  lemma CommitRedriveKeeps(c: Config, s: State, e: string, id: nat)
    requires ValidConfig(c) && Inv(c, s) && RedriveEnabled(s, e, CommitRedrive(id, Ok))
    ensures Inv(c, s.(db := RedriveDb(s.db, e, s.ps.redrives[e], id),
                      ps := s.ps.(redrives := s.ps.redrives - {e})))
  {
    var db' := RedriveDb(s.db, e, s.ps.redrives[e], id);
    WorkersGrow(s.rs, s.rs, s.db.history, db'.history, s.ps.workers);
    SettlementGrows(s.rs, s.rs, s.db.history, db'.history);
    CommitRedriveDlq(s, e, id);
    CommitRedriveRows(c, s, e, id);
  }

  lemma AppendRedriveKeeps(c: Config, s: State, e: string, f: Fault)
    requires ValidConfig(c) && Inv(c, s) && RedriveEnabled(s, e, AppendRedrive(f))
    ensures Inv(c, RedriveStep(s, e, AppendRedrive(f)))
  {
    assert RedriveOk(s.db, s.rs.stream, e, s.ps.redrives[e]);
    if !f.Lost? {
      var v := RedriveValues(e, s.db.events[e]);
      NewCarrier(c, s.db.events, e, RedriveMark, "1");
      AppendKeeps(c, s, v);
      AboveDeadAtEnd(s, e);
      assert IsRedriveOf(s.db.events, WithEntry(s.rs, v).stream, |s.rs.stream|, e);
    }
  }

  lemma RedriveKeeps(c: Config, s: State, e: string, a: RedriveAction)
    requires ValidConfig(c) && Inv(c, s) && RedriveEnabled(s, e, a)
    ensures Inv(c, RedriveStep(s, e, a))
  {
    match a {
      case LockDlq(_) =>
      case AppendRedrive(f) => AppendRedriveKeeps(c, s, e, f);
      case CommitRedrive(id, f) =>
        if !f.Lost? {
          CommitRedriveKeeps(c, s, e, id);
        }
      case AbortRedrive =>
    }
  }

  /** The next stream position is above everything recorded so far. */
  lemma AboveDeadAtEnd(s: State, e: string)
    requires RowsOk(s.db, s.rs.stream, s.rs.zset)
    ensures AboveDead(s.db.history, e, |s.rs.stream|)
  {
    forall k | 0 <= k < |s.db.history| && s.db.history[k].status.DeadLettered? && s.db.history[k].event == e
      ensures s.db.history[k].entry.Some? && s.db.history[k].entry.value < |s.rs.stream| {
      assert RowOk(s.db, s.rs.stream, s.rs.zset, s.db.history[k]);
    }
  }

  // ---- Worker steps -----------------------------------------------------------------

  /** XREADGROUP hands out entries that become pending. */
  lemma ReadKeeps(c: Config, s: State, n: nat)
    requires Inv(c, s) && s.rs.cursor + n <= |s.rs.stream|
    ensures Inv(c, s.(rs := WorkerRedis(s.rs, NoJob, ReadGroup(n, Ok))))
  {
    var rs' := WorkerRedis(s.rs, NoJob, ReadGroup(n, Ok));
    forall i: nat | s.rs.cursor <= i < s.rs.cursor + n ensures i in rs'.pel {
      assert Range(s.rs.cursor, n)[i - s.rs.cursor] == i;
    }
    WorkersGrow(s.rs, rs', s.db.history, s.db.history, s.ps.workers);
    SettlementGrows(s.rs, rs', s.db.history, s.db.history);
  }

  /** Acknowledging an entry that has an outcome loses nothing. */
  lemma AckKeeps(c: Config, s: State, i: nat)
    requires Inv(c, s) && Disposed(s.db.history, i)
    ensures Inv(c, s.(rs := s.rs.(pel := s.rs.pel - {i})))
  {
    var rs' := s.rs.(pel := s.rs.pel - {i});
    WorkersGrow(s.rs, rs', s.db.history, s.db.history, s.ps.workers);
    SettlementGrows(s.rs, rs', s.db.history, s.db.history);
  }

  /** Queueing the retry of an entry, again or for the first time. */
  lemma QueueKeeps(c: Config, s: State, i: nat)
    requires Inv(c, s) && i < |s.rs.stream| && ParseRetry(s.rs.stream[i]) < c.maxRetries
    ensures Inv(c, s.(rs := s.rs.(zset := s.rs.zset + {MemberOf(s.rs.stream, i)})))
  {
    var rs' := s.rs.(zset := s.rs.zset + {MemberOf(s.rs.stream, i)});
    assert Derived(c, s.rs.stream, |s.rs.stream|, MemberOf(s.rs.stream, i));
    WorkersGrow(s.rs, rs', s.db.history, s.db.history, s.ps.workers);
    RowsGrow(s.db, s.db, s.rs, rs');
  }

  /** A dead letter reopens the record of an event that nobody is redriving. */
  lemma DeadLetterDlq(s: State, db': Db, e: string, row: Row)
    requires DlqOk(s.db, s.rs.stream, s.ps.redrives) && e !in s.ps.redrives && e in s.db.events
    requires db'.history == s.db.history + [row] && row.event == e && db'.events == s.db.events
    requires db'.dlq.Keys == s.db.dlq.Keys + {e} && db'.dlq[e].status.Open?
    requires forall d :: d in s.db.dlq && d != e ==> db'.dlq[d] == s.db.dlq[d]
    ensures DlqOk(db', s.rs.stream, s.ps.redrives)
  {
    forall d, j | d != e && AboveDead(s.db.history, d, j) ensures AboveDead(db'.history, d, j) {
    }
    forall d | d in db'.dlq && db'.dlq[d].status.RedrivenDlq? ensures RedrivenAbove(db', s.rs.stream, d) {
      RedrivenAboveGrows(s.db, db', s.rs.stream, s.rs.stream, d);
    }
    forall d | d in s.ps.redrives ensures RedriveOk(db', s.rs.stream, d, s.ps.redrives[d]) {
      assert RedriveOk(s.db, s.rs.stream, d, s.ps.redrives[d]);
    }
  }

  lemma OutcomeDlq(s: State, job: Job, id: nat, at: nat)
    requires DlqOk(s.db, s.rs.stream, s.ps.redrives)
    requires job.Job? && OutcomeStatus(job.phase).Some? && EventOf(job.msg) in s.db.events
    requires job.phase.DlqWritten? ==> EventOf(job.msg) !in s.ps.redrives
    ensures DlqOk(OutcomeDb(s.db, job, id, at), s.rs.stream, s.ps.redrives)
  {
    var db' := OutcomeDb(s.db, job, id, at);
    if job.phase.DlqWritten? {
      DeadLetterDlq(s, db', EventOf(job.msg), JobRow(job, id, DeadLettered, at));
    } else {
      DlqGrows(s.db, db', s.rs.stream, s.rs.stream, s.ps.redrives);
    }
  }

  lemma JobEvent(c: Config, s: State, job: Job)
    requires Inv(c, s) && job.Job? && JobOk(s.rs.stream, s.rs.zset, s.db.history, job)
    ensures EventOf(job.msg) in s.db.events && 0 <= job.retry <= c.maxRetries
  {
    assert EntryOk(c, s.db.events, s.rs.stream, job.entry);
  }

  lemma OutcomeKeeps(c: Config, s: State, job: Job, id: nat, at: nat)
    requires ValidConfig(c) && Inv(c, s) && job.Job? && OutcomeStatus(job.phase).Some?
    requires JobOk(s.rs.stream, s.rs.zset, s.db.history, job)
    requires job.phase.DlqWritten? ==> EventOf(job.msg) !in s.ps.redrives
    ensures Inv(c, s.(db := OutcomeDb(s.db, job, id, at)))
    ensures Disposed(OutcomeDb(s.db, job, id, at).history, job.entry)
  {
    var db' := OutcomeDb(s.db, job, id, at);
    var last := |s.db.history|;
    assert db'.history[last].entry == Some(job.entry);
    JobEvent(c, s, job);
    WorkersGrow(s.rs, s.rs, s.db.history, db'.history, s.ps.workers);
    SettlementGrows(s.rs, s.rs, s.db.history, db'.history);
    RowsGrow(s.db, db', s.rs, s.rs);
    assert RowOk(db', s.rs.stream, s.rs.zset, db'.history[last]);
    OutcomeDlq(s, job, id, at);
  }

  lemma ProcessingKeeps(c: Config, s: State, job: Job, id: nat, at: nat)
    requires ValidConfig(c) && Inv(c, s) && job.Job?
    requires JobOk(s.rs.stream, s.rs.zset, s.db.history, job)
    ensures Inv(c, s.(db := WithRow(s.db, JobRow(job, id, Processing, at))))
  {
    JobEvent(c, s, job);
    RowKeeps(c, s, s.db, JobRow(job, id, Processing, at));
  }

  lemma WorkerFacts(c: Config, s: State, w: nat)
    requires Inv(c, s)
    ensures InGroup(s.rs.handed, WorkerOf(s.ps, w))
    ensures JobOk(s.rs.stream, s.rs.zset, s.db.history, JobOf(s.ps, w))
  {
  }

  lemma WorkerDbKeeps(c: Config, s: State, w: nat, a: WorkerAction)
    requires ValidConfig(c) && Inv(c, s) && WorkerEnabled(c, s, w, a) && (a.RecordProcessing? || a.RecordOutcome?)
    ensures Inv(c, s.(db := WorkerDb(s.db, JobOf(s.ps, w), a)))
  {
    var job := JobOf(s.ps, w);
    WorkerFacts(c, s, w);
    if a.RecordProcessing? {
      ProcessingKeeps(c, s, job, a.id, a.at);
    } else {
      OutcomeKeeps(c, s, job, a.id, a.at);
    }
  }

  /** Nothing speaks of the dead-letter stream. */
  lemma DlqStreamKeeps(c: Config, s: State, dlqStream: seq<Values>)
    requires Inv(c, s)
    ensures Inv(c, s.(rs := s.rs.(dlqStream := dlqStream)))
  {
    WorkersGrow(s.rs, s.rs.(dlqStream := dlqStream), s.db.history, s.db.history, s.ps.workers);
  }

  lemma ScheduleKeeps(c: Config, s: State, w: nat, f: Fault)
    requires Inv(c, s) && WorkerEnabled(c, s, w, ScheduleRetry(f))
    ensures Inv(c, s.(rs := WorkerRedis(s.rs, JobOf(s.ps, w), ScheduleRetry(f))))
  {
    WorkerFacts(c, s, w);
    QueueKeeps(c, s, JobOf(s.ps, w).entry);
  }

  lemma WorkerAckKeeps(c: Config, s: State, w: nat, f: Fault)
    requires Inv(c, s) && WorkerEnabled(c, s, w, Ack(f))
    ensures Inv(c, s.(rs := WorkerRedis(s.rs, JobOf(s.ps, w), Ack(f))))
  {
    WorkerFacts(c, s, w);
    AckKeeps(c, s, JobOf(s.ps, w).entry);
  }

  lemma WorkerReadKeeps(c: Config, s: State, w: nat, n: nat, f: Fault)
    requires Inv(c, s) && WorkerEnabled(c, s, w, ReadGroup(n, f))
    ensures Inv(c, s.(rs := WorkerRedis(s.rs, JobOf(s.ps, w), ReadGroup(n, f))))
  {
    ReadKeeps(c, s, n);
  }

  lemma WorkerRedisKeeps(c: Config, s: State, w: nat, a: WorkerAction)
    requires Inv(c, s) && WorkerEnabled(c, s, w, a)
    requires a.ReadGroup? || a.ScheduleRetry? || a.WriteDlq? || a.Ack?
    ensures Inv(c, s.(rs := WorkerRedis(s.rs, JobOf(s.ps, w), a)))
  {
    match a {
      case ReadGroup(n, f) => WorkerReadKeeps(c, s, w, n, f);
      case ScheduleRetry(f) => ScheduleKeeps(c, s, w, f);
      case WriteDlq(_, _, _) => DlqStreamKeeps(c, s, WorkerRedis(s.rs, JobOf(s.ps, w), a).dlqStream);
      case Ack(f) => WorkerAckKeeps(c, s, w, f);
    }
  }

  /** Both stores after the worker's effect keep the invariant with the worker unchanged. */
  lemma WorkerStoresKeep(c: Config, s: State, w: nat, a: WorkerAction)
    requires ValidConfig(c) && Inv(c, s) && WorkerEnabled(c, s, w, a)
    ensures var job := JobOf(s.ps, w);
            Inv(c, State(WorkerDb(s.db, job, a), WorkerRedis(s.rs, job, a), s.ps, s.receiver))
  {
    if a.RecordProcessing? || a.RecordOutcome? {
      WorkerDbKeeps(c, s, w, a);
    } else if a.ReadGroup? || a.ScheduleRetry? || a.WriteDlq? || a.Ack? {
      WorkerRedisKeeps(c, s, w, a);
    }
  }

  lemma WorkerFetches(c: Config, s: State, w: nat, a: WorkerAction)
    requires GroupOk(s.rs) && InGroup(s.rs.handed, WorkerOf(s.ps, w))
    requires WorkerEnabled(c, s, w, a) && !JobOf(s.ps, w).Job?
    ensures var rs' := WorkerRedis(s.rs, JobOf(s.ps, w), a);
            var worker := WorkerLocal(c, s, w, a);
            && InGroup(rs'.handed, worker)
            && JobOk(rs'.stream, rs'.zset, WorkerDb(s.db, JobOf(s.ps, w), a).history, worker.job)
  {
  }

  lemma JobSchedules(c: Config, s: State, w: nat, a: WorkerAction)
    requires InGroup(s.rs.handed, WorkerOf(s.ps, w)) && JobOk(s.rs.stream, s.rs.zset, s.db.history, JobOf(s.ps, w))
    requires WorkerEnabled(c, s, w, a) && JobOf(s.ps, w).Job? && a.ScheduleRetry?
    ensures var rs' := WorkerRedis(s.rs, JobOf(s.ps, w), a);
            var worker := WorkerLocal(c, s, w, a);
            && InGroup(rs'.handed, worker)
            && JobOk(rs'.stream, rs'.zset, WorkerDb(s.db, JobOf(s.ps, w), a).history, worker.job)
  {
    var job := JobOf(s.ps, w);
    assert WithRetry(job.msg, job.entry, job.retry + 1) == MemberOf(s.rs.stream, job.entry);
  }

  lemma JobRecords(c: Config, s: State, w: nat, a: WorkerAction)
    requires InGroup(s.rs.handed, WorkerOf(s.ps, w)) && JobOk(s.rs.stream, s.rs.zset, s.db.history, JobOf(s.ps, w))
    requires WorkerEnabled(c, s, w, a) && JobOf(s.ps, w).Job? && a.RecordOutcome?
    ensures var rs' := WorkerRedis(s.rs, JobOf(s.ps, w), a);
            var worker := WorkerLocal(c, s, w, a);
            && InGroup(rs'.handed, worker)
            && JobOk(rs'.stream, rs'.zset, WorkerDb(s.db, JobOf(s.ps, w), a).history, worker.job)
  {
    var job := JobOf(s.ps, w);
    if a.f.Ok? {
      assert OutcomeDb(s.db, job, a.id, a.at).history[|s.db.history|].entry == Some(job.entry);
    }
  }

  lemma JobMoves(c: Config, s: State, w: nat, a: WorkerAction)
    requires InGroup(s.rs.handed, WorkerOf(s.ps, w)) && JobOk(s.rs.stream, s.rs.zset, s.db.history, JobOf(s.ps, w))
    requires WorkerEnabled(c, s, w, a) && JobOf(s.ps, w).Job? && !a.ScheduleRetry? && !a.RecordOutcome?
    ensures var rs' := WorkerRedis(s.rs, JobOf(s.ps, w), a);
            var worker := WorkerLocal(c, s, w, a);
            && InGroup(rs'.handed, worker)
            && JobOk(rs'.stream, rs'.zset, WorkerDb(s.db, JobOf(s.ps, w), a).history, worker.job)
  {
  }

  lemma JobAdvances(c: Config, s: State, w: nat, a: WorkerAction)
    requires InGroup(s.rs.handed, WorkerOf(s.ps, w)) && JobOk(s.rs.stream, s.rs.zset, s.db.history, JobOf(s.ps, w))
    requires WorkerEnabled(c, s, w, a) && JobOf(s.ps, w).Job?
    ensures var rs' := WorkerRedis(s.rs, JobOf(s.ps, w), a);
            var worker := WorkerLocal(c, s, w, a);
            && InGroup(rs'.handed, worker)
            && JobOk(rs'.stream, rs'.zset, WorkerDb(s.db, JobOf(s.ps, w), a).history, worker.job)
  {
    if a.ScheduleRetry? {
      JobSchedules(c, s, w, a);
    } else if a.RecordOutcome? {
      JobRecords(c, s, w, a);
    } else {
      JobMoves(c, s, w, a);
    }
  }

  lemma WorkerLocalOk(c: Config, s: State, w: nat, a: WorkerAction)
    requires ValidConfig(c) && Inv(c, s) && WorkerEnabled(c, s, w, a)
    ensures var job := JobOf(s.ps, w);
            var db' := WorkerDb(s.db, job, a);
            var rs' := WorkerRedis(s.rs, job, a);
            var worker := WorkerLocal(c, s, w, a);
            InGroup(rs'.handed, worker) && JobOk(rs'.stream, rs'.zset, db'.history, worker.job)
  {
    WorkerFacts(c, s, w);
    if JobOf(s.ps, w).Job? {
      JobAdvances(c, s, w, a);
    } else {
      WorkerFetches(c, s, w, a);
    }
  }

  lemma WorkerKeeps(c: Config, s: State, w: nat, a: WorkerAction)
    requires ValidConfig(c) && Inv(c, s) && WorkerEnabled(c, s, w, a)
    ensures Inv(c, WorkerStep(c, s, w, a))
  {
    var job := JobOf(s.ps, w);
    var s1 := State(WorkerDb(s.db, job, a), WorkerRedis(s.rs, job, a), s.ps, s.receiver);
    WorkerStoresKeep(c, s, w, a);
    WorkerLocalOk(c, s, w, a);
    WorkerChange(c, s1, w, WorkerLocal(c, s, w, a));
  }

  // ---- Runs -------------------------------------------------------------------------

  lemma StepKeeps(c: Config, s: State, a: Action)
    requires ValidConfig(c) && Inv(c, s) && Enabled(c, s, a)
    ensures Inv(c, Apply(c, s, a))
  {
    match a {
      case World(world) => WorldKeeps(c, s, world);
      case Publish(p, publish) => PublisherKeeps(c, s, p, publish);
      case Work(w, work) => WorkerKeeps(c, s, w, work);
      case Pumping(k, pumping) => PumpKeeps(c, s, k, pumping);
      case Operate(e, operate) => RedriveKeeps(c, s, e, operate);
    }
  }

  lemma {:induction false} RunKeeps(c: Config, s: State, acts: seq<Action>, s': State)
    requires ValidConfig(c) && Inv(c, s) && Runs(c, s, acts, s')
    ensures Inv(c, s') && Grows(s, s')
    decreases |acts|
  {
    if acts != [] {
      var s1 := Apply(c, s, acts[0]);
      StepKeeps(c, s, acts[0]);
      StepGrows(c, s, acts[0]);
      RunKeeps(c, s1, acts[1..], s');
      GrowsTransitive(s, s1, s');
    }
  }

  lemma ReachableInv(c: Config, s: State)
    requires ValidConfig(c) && Reachable(c, s)
    ensures Inv(c, s)
  {
    var t: nat, acts :| Runs(c, Init(t), acts, s);
    InitInv(c, t);
    RunKeeps(c, Init(t), acts, s);
  }

  lemma {:induction false} RunsSnoc(c: Config, s: State, acts: seq<Action>, s': State, a: Action)
    requires Runs(c, s, acts, s') && Enabled(c, s', a)
    ensures Runs(c, s, acts + [a], Apply(c, s', a))
    decreases |acts|
  {
    if acts == [] {
      assert (acts + [a])[1..] == [];
    } else {
      assert (acts + [a])[1..] == acts[1..] + [a];
      RunsSnoc(c, Apply(c, s, acts[0]), acts[1..], s', a);
    }
  }

  lemma ReachableStep(c: Config, s: State, a: Action)
    requires Reachable(c, s) && Enabled(c, s, a)
    ensures Reachable(c, Apply(c, s, a))
  {
    var t: nat, acts :| Runs(c, Init(t), acts, s);
    RunsSnoc(c, Init(t), acts, s, a);
  }

  /** The next value of the row ID sequence is unused. */
  lemma ReachableFresh(c: Config, s: State)
    requires ValidConfig(c) && Reachable(c, s)
    ensures FreshRowId(s.db, s.db.serial)
  {
    ReachableInv(c, s);
    forall k | 0 <= k < |s.db.history| ensures s.db.history[k].id != s.db.serial {
      assert RowOk(s.db, s.rs.stream, s.rs.zset, s.db.history[k]);
    }
  }
}
