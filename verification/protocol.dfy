/** The delivery protocol as a state machine: two stores without a common transaction,
    and actors that perform one external effect per step. Every choice the environment
    makes (faults, replies, schedules, clock readings) is part of the action label, so a
    step is a function of the state and the label. */
module Protocol {
  import opened Text
  import opened Effects
  import opened Delivery
  import Backoff
  import R = Receipts

  // ---- Message fields ---------------------------------------------------------------

  /** Keys of a stream message's value map. */
  datatype Field =
    | OutboxId | EventId | EventType | Source | Payload | RetryCount | CreatedAt
    | OriginalStreamId | ReplayMark | RedriveMark | DlqAt | ErrorText

  type Values = map<Field, string>

  datatype Event = Event(eventType: string, source: string, payload: string, createdAt: nat)

  /** What JSON decoding makes of a webhook payload. */
  datatype Plan = Malformed | NoUrl | BadRequest | Post(target: Target)

  /** `Receiver` is the receiver modelled in Receipts; `valid` says it accepts the body. */
  datatype Target = Elsewhere | Receiver(valid: bool)

  datatype Config = Config(
    maxRetries: nat, baseBackoff: nat, maxBackoff: nat,
    plan: string -> Plan,
    strictClock: bool)

  ghost predicate ValidConfig(c: Config) {
    && 1 <= c.maxRetries < INT64_LIMIT - 1
    && 0 < c.baseBackoff <= c.maxBackoff
  }

  // ---- Postgres rows ----------------------------------------------------------------

  datatype OutboxRow = OutboxRow(
    outboxId: string, published: bool, attemptCount: nat, nextAttemptAt: nat, createdAt: nat)

  datatype Status =
    | Stored | PendingPublication | Published | Processing
    | Retrying | Delivered | DeadLettered | Redriven

  /** A status history row. `entry` is the stream_id detail; for PUBLISHED, whose details are
      empty in the database, it names the entry that the publishing transaction appended. */
  datatype Row = Row(id: nat, event: string, status: Status, at: nat, entry: Option<nat>, retry: int)

  /** A delivery_attempts row; `startedAt` is when the call began. */
  datatype AttemptRow = AttemptRow(
    event: string, entry: nat, number: int, success: bool, code: Option<nat>, startedAt: nat)

  datatype DlqStatus = Open | RedrivenDlq

  datatype DlqRecord = DlqRecord(
    status: DlqStatus, originalStreamId: string, attemptCount: int, redrivenAt: Option<nat>)

  // ---- Actors -----------------------------------------------------------------------

  /** A publisher inside its transaction, which began at `at` and holds the row lock;
      `floor` is the status row sequence when the row was claimed. */
  datatype Publisher =
    | Claimed(event: string, at: nat, floor: nat)
    | Appended(event: string, at: nat, floor: nat, entry: nat)
    | PublishFailed(event: string, at: nat)

  datatype Phase =
    | Took
    | Recorded
    | Succeeded(code: Option<nat>)
    | Broke(failure: Failure)
    | Scheduled(failure: Failure)
    | DlqWritten(failure: Failure)
    | Settled

  /** One call of processStreamMessage: `msg` is the in-memory value map that scheduleRetry
      and moveToDLQ write through, `since` the database clock when the call began. */
  datatype Job = NoJob | Job(entry: nat, msg: Values, retry: int, phase: Phase, since: nat)

  datatype Worker = Worker(todo: seq<nat>, job: Job)

  datatype Pump = Pump(todo: seq<Values>, removing: Option<Values>)

  /** A redrive transaction holding the row lock of its event's DLQ record. */
  datatype Redrive = Locked(at: nat) | RedriveAppended(at: nat, entry: nat)

  /** Postgres. */
  datatype Db = Db(
    events: map<string, Event>,
    outbox: map<string, OutboxRow>,
    history: seq<Row>,
    attempts: seq<AttemptRow>,
    dlq: map<string, DlqRecord>,
    serial: nat,
    clock: nat)

  /** Redis. A stream ID is the position of the entry; `cursor` is the consumer group's
      last-delivered position and `handed` the furthest it has been. */
  datatype Redis = Redis(
    stream: seq<Values>,
    cursor: nat,
    handed: nat,
    pel: set<nat>,
    zset: set<Values>,
    dlqStream: seq<Values>)

  /** What the processes hold in memory, with their open transactions. */
  datatype Procs = Procs(
    publishers: map<nat, Publisher>,
    workers: map<nat, Worker>,
    pumps: map<nat, Pump>,
    redrives: map<string, Redrive>)

  datatype State = State(db: Db, rs: Redis, ps: Procs, receiver: R.Server)

  /** Empty stores at database time `t`. */
  function Init(t: nat): State {
    State(Db(map[], map[], [], [], map[], 0, t), Redis([], 0, 0, {}, {}, []),
          Procs(map[], map[], map[], map[]), R.FRESH)
  }

  // ---- Message construction ---------------------------------------------------------

  function SecondsText(micros: nat): string {
    Itoa(micros / 1_000_000)
  }

  function Carrier(id: string, ev: Event): Values {
    map[EventId := id, EventType := ev.eventType, Source := ev.source, Payload := ev.payload,
        RetryCount := "0", CreatedAt := SecondsText(ev.createdAt)]
  }

  /** Publisher.Publish */
  function RootValues(id: string, ev: Event, outboxId: string): Values {
    Carrier(id, ev)[OutboxId := outboxId]
  }

  function ReplayValues(id: string, ev: Event): Values {
    Carrier(id, ev)[ReplayMark := "1"]
  }

  function RedriveValues(id: string, ev: Event): Values {
    Carrier(id, ev)[RedriveMark := "1"]
  }

  /** parseRetry: a missing or unreadable counter counts as zero. */
  function ParseRetry(v: Values): int {
    if RetryCount !in v then 0
    else match Atoi(v[RetryCount])
      case Some(n) => n
      case None => 0
  }

  /** eventIDFromMessage */
  function EventOf(v: Values): string {
    if EventId in v then TrimSpace(v[EventId]) else ""
  }

  /** originalStreamIDFromMessage */
  function OriginalOf(v: Values, entry: nat): string {
    var text := if OriginalStreamId in v then TrimSpace(v[OriginalStreamId]) else "";
    if text == "" then Itoa(entry) else text
  }

  /** The writes of scheduleRetry; the result is also the retry set's member. */
  function WithRetry(v: Values, entry: nat, nextRetry: int): Values {
    v[RetryCount := Itoa(nextRetry)][OriginalStreamId := Itoa(entry)]
  }

  /** The member that any processing of stream entry `i` would schedule. */
  function MemberOf(stream: seq<Values>, i: nat): Values
    requires i < |stream|
  {
    WithRetry(stream[i], i, ParseRetry(stream[i]) + 1)
  }

  /** The writes of moveToDLQ. */
  function WithDlq(v: Values, entry: nat, now: string, cause: string): Values {
    v[DlqAt := now][ErrorText := cause][OriginalStreamId := Itoa(entry)]
  }

  // ---- Delivery ---------------------------------------------------------------------

  datatype HttpReply = NoReply(reached: bool) | Response(code: nat)

  const NO_HTTP := NoReply(false)

  function TypeOf(v: Values): string {
    if EventType in v then v[EventType] else ""
  }

  /** The request a message leads to, if it leads to one. */
  function PlanOf(c: Config, v: Values): Option<Plan> {
    if TypeOf(v) != "webhook" then None
    else if Payload !in v then Some(Malformed)
    else Some(c.plan(v[Payload]))
  }

  function HeaderOf(v: Values): string {
    if EventId in v then v[EventId] else ""
  }

  predicate ReplyPossible(c: Config, receiver: R.Server, v: Values, reply: HttpReply) {
    match PlanOf(c, v)
    case Some(Post(Elsewhere)) => reply.Response? ==> reply.code < 1000
    case Some(Post(Receiver(valid))) =>
      reply.Response? ==> reply.code == R.HandleReply(receiver, HeaderOf(v), valid).code
    case _ => reply == NO_HTTP
  }

  /** processMessageWithResult */
  function AttemptOf(c: Config, v: Values, reply: HttpReply): Attempt {
    if TypeOf(v) == "force.fail" then Failed(Failure(Retryable, None))
    else match PlanOf(c, v)
      case None => Success(None)
      case Some(Post(_)) =>
        (match reply
         case NoReply(_) => Failed(Failure(Retryable, None))
         case Response(code) => AttemptOfResponse(code))
      case Some(_) => Failed(Failure(Permanent, None))
  }

  function ReceiverAfter(c: Config, receiver: R.Server, v: Values, reply: HttpReply): R.Server {
    match PlanOf(c, v)
    case Some(Post(Receiver(valid))) =>
      if reply == NO_HTTP then receiver else R.Handle(receiver, HeaderOf(v), valid)
    case _ => receiver
  }

  // ---- Actions ----------------------------------------------------------------------

  datatype WorldAction =
    | Tick(t: nat)
    | Ingest(event: string, ev: Event, outboxId: string, id: nat, id2: nat)
    | Replay(event: string)
    | SetCursor(n: nat)
    | ControlReceiver(mode: R.Mode, failNext: nat)
    | OtherRequest(header: string, valid: bool)

  datatype PublisherAction =
    | Claim(event: string, at: nat)
    | AppendRoot(f: Fault)
    | CommitPublished(id: nat, f: Fault)
    | CommitReschedule(f: Fault)
    | CrashPublisher

  datatype WorkerAction =
    | ReadGroup(n: nat, f: Fault)
    | AutoClaim(entries: seq<nat>)
    | Take
    | RecordProcessing(id: nat, at: nat, f: Fault)
    | Deliver(reply: HttpReply)
    | ScheduleRetry(f: Fault)
    | WriteDlq(now: string, cause: string, f: Fault)
    | RecordOutcome(id: nat, at: nat, f: Fault)
    | Ack(f: Fault)
    | CrashWorker

  /** CrashPump also ends a finished tick. */
  datatype PumpAction =
    | FetchDue(members: seq<Values>)
    | Republish(f: Fault)
    | RemoveMember(f: Fault)
    | CrashPump

  datatype RedriveAction =
    | LockDlq(at: nat)
    | AppendRedrive(f: Fault)
    | CommitRedrive(id: nat, f: Fault)
    | AbortRedrive

  datatype Action =
    | World(world: WorldAction)
    | Publish(p: nat, publish: PublisherAction)
    | Work(w: nat, work: WorkerAction)
    | Pumping(k: nat, pumping: PumpAction)
    | Operate(event: string, operate: RedriveAction)

  function WorkerOf(ps: Procs, w: nat): Worker {
    if w in ps.workers then ps.workers[w] else Worker([], NoJob)
  }

  function JobOf(ps: Procs, w: nat): Job {
    WorkerOf(ps, w).job
  }

  predicate FreshRowId(db: Db, id: nat) {
    forall k :: 0 <= k < |db.history| ==> db.history[k].id != id
  }

  /** A transaction of a call begun at `since` may have started at `at`: not before the call,
      not in the future, and strictly later when no two clock readings are equal. */
  predicate TxTime(c: Config, db: Db, since: nat, at: nat) {
    since <= at <= db.clock && (c.strictClock ==> since < at)
  }

  predicate RowHeld(publishers: map<nat, Publisher>, event: string) {
    exists p :: p in publishers && publishers[p].event == event
  }

  predicate Distinct<T(==)>(xs: seq<T>) {
    forall i, j :: 0 <= i < j < |xs| ==> xs[i] != xs[j]
  }

  function Max(a: nat, b: nat): nat {
    if a >= b then a else b
  }

  function WithRow(db: Db, row: Row): Db {
    db.(history := db.history + [row], serial := Max(db.serial, row.id + 1))
  }

  function WithEntry(rs: Redis, v: Values): Redis {
    rs.(stream := rs.stream + [v])
  }

  // ---- Environment steps ------------------------------------------------------------

  predicate WorldEnabled(s: State, a: WorldAction) {
    match a
    case Tick(t) => t > s.db.clock
    case Ingest(e, ev, _, id, id2) =>
      && e !in s.db.events && e != "" && TrimSpace(e) == e
      && ev.createdAt <= s.db.clock
      && id < id2 && FreshRowId(s.db, id) && FreshRowId(s.db, id2)
    case Replay(e) => e in s.db.events
    case SetCursor(n) => n <= s.rs.handed
    case ControlReceiver(_, _) => true
    case OtherRequest(_, _) => true
  }

  function IngestDb(db: Db, e: string, ev: Event, outboxId: string, id: nat, id2: nat): Db {
    var db1 := db.(events := db.events[e := ev],
                   outbox := db.outbox[e := OutboxRow(outboxId, false, 0, ev.createdAt, ev.createdAt)]);
    WithRow(WithRow(db1, Row(id, e, Stored, ev.createdAt, None, 0)),
            Row(id2, e, PendingPublication, ev.createdAt, None, 0))
  }

  function WorldStep(s: State, a: WorldAction): State
    requires WorldEnabled(s, a)
  {
    match a
    case Tick(t) => s.(db := s.db.(clock := t))
    case Ingest(e, ev, outboxId, id, id2) => s.(db := IngestDb(s.db, e, ev, outboxId, id, id2))
    case Replay(e) => s.(rs := WithEntry(s.rs, ReplayValues(e, s.db.events[e])))
    case SetCursor(n) => s.(rs := s.rs.(cursor := n))
    case ControlReceiver(mode, failNext) => s.(receiver := s.receiver.(mode := mode, failNext := failNext))
    case OtherRequest(header, valid) => s.(receiver := R.Handle(s.receiver, header, valid))
  }

  // ---- Outbox publisher steps -------------------------------------------------------

  predicate Publishing(s: State, p: nat) {
    p in s.ps.publishers && s.ps.publishers[p].event in s.db.outbox && s.ps.publishers[p].event in s.db.events
  }

  predicate PublisherEnabled(s: State, p: nat, a: PublisherAction) {
    match a
    case Claim(e, at) =>
      && p !in s.ps.publishers && e in s.db.outbox && e in s.db.events && !s.db.outbox[e].published
      && s.db.outbox[e].nextAttemptAt <= at <= s.db.clock
      && !RowHeld(s.ps.publishers, e)
    case AppendRoot(_) => Publishing(s, p) && s.ps.publishers[p].Claimed?
    case CommitPublished(id, _) =>
      && Publishing(s, p) && s.ps.publishers[p].Appended?
      && s.ps.publishers[p].floor <= id && FreshRowId(s.db, id)
    case CommitReschedule(_) => Publishing(s, p) && s.ps.publishers[p].PublishFailed?
    case CrashPublisher => p in s.ps.publishers
  }

  function OutboxDelayMicros(c: Config, attempt: nat): nat
    requires attempt >= 1
  {
    Backoff.Capped(c.baseBackoff, c.maxBackoff, attempt) / 1000
  }

  /** rescheduleOutboxAfterFailureSQL, in a transaction begun at `at`. */
  function Rescheduled(c: Config, row: OutboxRow, at: nat): OutboxRow {
    row.(published := false, attemptCount := row.attemptCount + 1,
         nextAttemptAt := at + OutboxDelayMicros(c, row.attemptCount + 1))
  }

  function PublisherDb(c: Config, db: Db, pub: Publisher, a: PublisherAction): Db
    requires pub.event in db.outbox
  {
    match a
    case CommitPublished(id, f) =>
      if f.Lost? || !pub.Appended? then db
      else WithRow(db.(outbox := db.outbox[pub.event := db.outbox[pub.event].(published := true)]),
                   Row(id, pub.event, Published, pub.at, Some(pub.entry), 0))
    case CommitReschedule(f) =>
      if f.Lost? then db
      else db.(outbox := db.outbox[pub.event := Rescheduled(c, db.outbox[pub.event], pub.at)])
    case _ => db
  }

  function PublisherStep(c: Config, s: State, p: nat, a: PublisherAction): State
    requires PublisherEnabled(s, p, a)
  {
    var pubs := s.ps.publishers;
    match a
    case Claim(e, at) => s.(ps := s.ps.(publishers := pubs[p := Claimed(e, at, s.db.serial)]))
    case AppendRoot(f) =>
      var pub := pubs[p];
      var entry := RootValues(pub.event, s.db.events[pub.event], s.db.outbox[pub.event].outboxId);
      s.(rs := if f.Lost? then s.rs else WithEntry(s.rs, entry),
         ps := s.ps.(publishers := pubs[p :=
           if f.Ok? then Appended(pub.event, pub.at, pub.floor, |s.rs.stream|)
           else PublishFailed(pub.event, pub.at)]))
    case CommitPublished(_, _) =>
      s.(db := PublisherDb(c, s.db, pubs[p], a), ps := s.ps.(publishers := pubs - {p}))
    case CommitReschedule(_) =>
      s.(db := PublisherDb(c, s.db, pubs[p], a), ps := s.ps.(publishers := pubs - {p}))
    case CrashPublisher => s.(ps := s.ps.(publishers := pubs - {p}))
  }

  // ---- Stream worker steps ----------------------------------------------------------

  /** The rows a job commits, and the code its attempt recorded. */
  function OutcomeStatus(phase: Phase): Option<Status> {
    match phase
    case Succeeded(_) => Some(Delivered)
    case Scheduled(_) => Some(Retrying)
    case DlqWritten(_) => Some(DeadLettered)
    case _ => None
  }

  function OutcomeCode(phase: Phase): Option<nat> {
    match phase
    case Succeeded(code) => code
    case Scheduled(failure) => failure.status
    case DlqWritten(failure) => failure.status
    case _ => None
  }

  predicate WorkerEnabled(c: Config, s: State, w: nat, a: WorkerAction) {
    var worker := WorkerOf(s.ps, w);
    var job := worker.job;
    match a
    case ReadGroup(n, f) =>
      worker == Worker([], NoJob) && 1 <= n <= 10 && s.rs.cursor + n <= |s.rs.stream| && f != Lost
    case AutoClaim(entries) =>
      && worker == Worker([], NoJob) && |entries| <= 10 && Distinct(entries)
      && forall k :: 0 <= k < |entries| ==> entries[k] in s.rs.pel
    case Take => job.NoJob? && worker.todo != [] && worker.todo[0] < |s.rs.stream|
    case RecordProcessing(id, at, _) =>
      job.Job? && job.phase.Took? && FreshRowId(s.db, id) && TxTime(c, s.db, job.since, at)
    case Deliver(reply) => job.Job? && job.phase.Recorded? && ReplyPossible(c, s.receiver, job.msg, reply)
    case ScheduleRetry(_) =>
      job.Job? && job.phase.Broke? && DecideFailureAction(job.phase.failure, job.retry, c.maxRetries) == Retry
    case WriteDlq(_, _, _) =>
      job.Job? && job.phase.Broke? && DecideFailureAction(job.phase.failure, job.retry, c.maxRetries) == DeadLetter
    case RecordOutcome(id, at, _) =>
      && job.Job? && OutcomeStatus(job.phase).Some? && FreshRowId(s.db, id) && TxTime(c, s.db, job.since, at)
      && (job.phase.DlqWritten? ==> EventOf(job.msg) !in s.ps.redrives)
    case Ack(_) => job.Job? && job.phase.Settled?
    case CrashWorker => true
  }

  function JobRow(job: Job, id: nat, status: Status, at: nat): Row
    requires job.Job?
  {
    Row(id, EventOf(job.msg), status, at, Some(job.entry), job.retry)
  }

  /** The committed transaction of RecordDelivered, RecordRetrying or RecordDeadLettered. */
  function OutcomeDb(db: Db, job: Job, id: nat, at: nat): Db
    requires job.Job? && OutcomeStatus(job.phase).Some?
  {
    var attempt := AttemptRow(EventOf(job.msg), job.entry, job.retry + 1,
                              job.phase.Succeeded?, OutcomeCode(job.phase), job.since);
    var db1 := db.(attempts := db.attempts + [attempt],
                   dlq := if job.phase.DlqWritten?
                          then db.dlq[EventOf(job.msg) :=
                            DlqRecord(Open, OriginalOf(job.msg, job.entry), job.retry + 1, None)]
                          else db.dlq);
    WithRow(db1, JobRow(job, id, OutcomeStatus(job.phase).value, at))
  }

  function WorkerDb(db: Db, job: Job, a: WorkerAction): Db {
    match a
    case RecordProcessing(id, at, f) =>
      if f.Lost? || job.NoJob? then db else WithRow(db, JobRow(job, id, Processing, at))
    case RecordOutcome(id, at, f) =>
      if f.Lost? || job.NoJob? || OutcomeStatus(job.phase).None? then db else OutcomeDb(db, job, id, at)
    case _ => db
  }

  function Range(from: nat, n: nat): seq<nat> {
    seq(n, k requires 0 <= k => from + k)
  }

  function WorkerRedis(rs: Redis, job: Job, a: WorkerAction): Redis {
    match a
    case ReadGroup(n, _) =>
      rs.(pel := rs.pel + (set k | k in Range(rs.cursor, n)),
          cursor := rs.cursor + n, handed := Max(rs.handed, rs.cursor + n))
    case ScheduleRetry(f) =>
      if f.Lost? || job.NoJob? then rs
      else rs.(zset := rs.zset + {WithRetry(job.msg, job.entry, job.retry + 1)})
    case WriteDlq(now, cause, f) =>
      if f.Lost? || job.NoJob? then rs
      else rs.(dlqStream := rs.dlqStream + [WithDlq(job.msg, job.entry, now, cause)])
    case Ack(f) =>
      if f.Lost? || job.NoJob? then rs else rs.(pel := rs.pel - {job.entry})
    case _ => rs
  }

  /** The job after an effect: on any reported error the call returns. */
  function AfterEffect(job: Job, f: Fault, phase: Phase, msg: Values): Job
    requires job.Job?
  {
    if f.Ok? then job.(phase := phase, msg := msg) else NoJob
  }

  function WorkerLocal(c: Config, s: State, w: nat, a: WorkerAction): Worker
    requires WorkerEnabled(c, s, w, a)
  {
    var worker := WorkerOf(s.ps, w);
    var job := worker.job;
    match a
    case ReadGroup(n, f) => Worker(if f.Ok? then Range(s.rs.cursor, n) else [], NoJob)
    case AutoClaim(entries) => Worker(entries, NoJob)
    case Take =>
      var i := worker.todo[0];
      Worker(worker.todo[1..], Job(i, s.rs.stream[i], ParseRetry(s.rs.stream[i]), Took, s.db.clock))
    case RecordProcessing(_, _, f) => worker.(job := AfterEffect(job, f, Recorded, job.msg))
    case Deliver(reply) =>
      worker.(job := job.(phase := match AttemptOf(c, job.msg, reply)
                                   case Success(code) => Succeeded(code)
                                   case Failed(failure) => Broke(failure)))
    case ScheduleRetry(f) =>
      worker.(job := AfterEffect(job, f, Scheduled(job.phase.failure), WithRetry(job.msg, job.entry, job.retry + 1)))
    case WriteDlq(now, cause, f) =>
      worker.(job := AfterEffect(job, f, DlqWritten(job.phase.failure), WithDlq(job.msg, job.entry, now, cause)))
    case RecordOutcome(_, _, f) => worker.(job := AfterEffect(job, f, Settled, job.msg))
    case Ack(_) => worker.(job := NoJob)
    case CrashWorker => Worker([], NoJob)
  }

  function WorkerStep(c: Config, s: State, w: nat, a: WorkerAction): State
    requires WorkerEnabled(c, s, w, a)
  {
    var job := JobOf(s.ps, w);
    State(WorkerDb(s.db, job, a), WorkerRedis(s.rs, job, a),
          s.ps.(workers := s.ps.workers[w := WorkerLocal(c, s, w, a)]),
          if a.Deliver? then ReceiverAfter(c, s.receiver, job.msg, a.reply) else s.receiver)
  }

  // ---- Retry pump steps -------------------------------------------------------------

  predicate PumpEnabled(s: State, k: nat, a: PumpAction) {
    match a
    case FetchDue(members) =>
      && k !in s.ps.pumps && |members| <= 50 && Distinct(members)
      && forall i :: 0 <= i < |members| ==> members[i] in s.rs.zset
    case Republish(_) => k in s.ps.pumps && s.ps.pumps[k].removing.None? && s.ps.pumps[k].todo != []
    case RemoveMember(_) => k in s.ps.pumps && s.ps.pumps[k].removing.Some?
    case CrashPump => k in s.ps.pumps
  }

  function PumpStep(s: State, k: nat, a: PumpAction): State
    requires PumpEnabled(s, k, a)
  {
    var pumps := s.ps.pumps;
    match a
    case FetchDue(members) => s.(ps := s.ps.(pumps := pumps[k := Pump(members, None)]))
    case Republish(f) =>
      var m := pumps[k].todo[0];
      s.(rs := if f.Lost? then s.rs else WithEntry(s.rs, m),
         ps := s.ps.(pumps := pumps[k := Pump(pumps[k].todo[1..], if f.Ok? then Some(m) else None)]))
    case RemoveMember(f) =>
      s.(rs := if f.Lost? then s.rs else s.rs.(zset := s.rs.zset - {pumps[k].removing.value}),
         ps := s.ps.(pumps := pumps[k := pumps[k].(removing := None)]))
    case CrashPump => s.(ps := s.ps.(pumps := pumps - {k}))
  }

  // ---- Operator redrive steps -------------------------------------------------------

  predicate RedriveEnabled(s: State, e: string, a: RedriveAction) {
    match a
    case LockDlq(at) => e in s.db.dlq && s.db.dlq[e].status.Open? && e !in s.ps.redrives && at <= s.db.clock
    case AppendRedrive(_) => e in s.ps.redrives && s.ps.redrives[e].Locked? && e in s.db.events
    case CommitRedrive(id, _) =>
      e in s.ps.redrives && s.ps.redrives[e].RedriveAppended? && e in s.db.dlq && FreshRowId(s.db, id)
    case AbortRedrive => e in s.ps.redrives
  }

  function RedriveDb(db: Db, e: string, tx: Redrive, id: nat): Db
    requires e in db.dlq && tx.RedriveAppended?
  {
    WithRow(db.(dlq := db.dlq[e := db.dlq[e].(status := RedrivenDlq, redrivenAt := Some(tx.at))]),
            Row(id, e, Redriven, tx.at, Some(tx.entry), 0))
  }

  function RedriveStep(s: State, e: string, a: RedriveAction): State
    requires RedriveEnabled(s, e, a)
  {
    var txs := s.ps.redrives;
    match a
    case LockDlq(at) => s.(ps := s.ps.(redrives := txs[e := Locked(at)]))
    case AppendRedrive(f) =>
      s.(rs := if f.Lost? then s.rs else WithEntry(s.rs, RedriveValues(e, s.db.events[e])),
         ps := s.ps.(redrives := if f.Ok? then txs[e := RedriveAppended(txs[e].at, |s.rs.stream|)]
                                 else txs - {e}))
    case CommitRedrive(id, f) =>
      s.(db := if f.Lost? then s.db else RedriveDb(s.db, e, txs[e], id),
         ps := s.ps.(redrives := txs - {e}))
    case AbortRedrive => s.(ps := s.ps.(redrives := txs - {e}))
  }

  // ---- Steps ------------------------------------------------------------------------

  predicate Enabled(c: Config, s: State, a: Action) {
    match a
    case World(world) => WorldEnabled(s, world)
    case Publish(p, publish) => PublisherEnabled(s, p, publish)
    case Work(w, work) => WorkerEnabled(c, s, w, work)
    case Pumping(k, pumping) => PumpEnabled(s, k, pumping)
    case Operate(e, operate) => RedriveEnabled(s, e, operate)
  }

  function Apply(c: Config, s: State, a: Action): State
    requires Enabled(c, s, a)
  {
    match a
    case World(world) => WorldStep(s, world)
    case Publish(p, publish) => PublisherStep(c, s, p, publish)
    case Work(w, work) => WorkerStep(c, s, w, work)
    case Pumping(k, pumping) => PumpStep(s, k, pumping)
    case Operate(e, operate) => RedriveStep(s, e, operate)
  }

  // ---- Runs -------------------------------------------------------------------------

  /** `acts` is a legal schedule from `s`, ending in `s'`. */
  ghost predicate Runs(c: Config, s: State, acts: seq<Action>, s': State)
    decreases |acts|
  {
    if acts == [] then s' == s
    else Enabled(c, s, acts[0]) && Runs(c, Apply(c, s, acts[0]), acts[1..], s')
  }

  ghost predicate Reachable(c: Config, s: State) {
    exists t: nat, acts :: Runs(c, Init(t), acts, s)
  }
}
