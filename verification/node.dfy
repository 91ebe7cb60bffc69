/** The actors' own code, effect by effect, under interference: between any two effects every
    other actor may take any number of steps. Each effect is proved to be an enabled step of the
    protocol, so the code refines the step relation. */
module Node {
  import opened Text
  import opened Delivery
  import opened Effects
  import opened Protocol
  import opened Safety
  import opened OutboxRunner
  import Backoff
  import Outcomes

  datatype Actor = AsWorker(w: nat) | AsPublisher(p: nat) | AsPump(k: nat) | AsOperator(e: string)

  /** What an actor keeps in memory, and the locks of its open transaction. */
  datatype Local = Local(worker: Worker, publisher: Option<Publisher>, pump: Option<Pump>, redrive: Option<Redrive>)

  function Get<K(==), V>(m: map<K, V>, k: K): Option<V> {
    if k in m then Some(m[k]) else None
  }

  function LocalOf(ps: Procs, actor: Actor): Local {
    match actor
    case AsWorker(w) => Local(WorkerOf(ps, w), None, None, None)
    case AsPublisher(p) => Local(Worker([], NoJob), Get(ps.publishers, p), None, None)
    case AsPump(k) => Local(Worker([], NoJob), None, Get(ps.pumps, k), None)
    case AsOperator(e) => Local(Worker([], NoJob), None, None, Get(ps.redrives, e))
  }

  predicate TakenBy(a: Action, actor: Actor) {
    match a
    case World(_) => false
    case Publish(p, _) => actor == AsPublisher(p)
    case Work(w, _) => actor == AsWorker(w)
    case Pumping(k, _) => actor == AsPump(k)
    case Operate(e, _) => actor == AsOperator(e)
  }

  /** The row that an open transaction of the actor has locked. */
  ghost predicate LockedRowKept(s: State, s': State, actor: Actor) {
    match actor
    case AsPublisher(p) =>
      p in s.ps.publishers ==>
        var e := s.ps.publishers[p].event;
        e in s.db.outbox ==> e in s'.db.outbox && s'.db.outbox[e] == s.db.outbox[e]
    case AsOperator(e) =>
      e in s.ps.redrives && e in s.db.dlq ==> e in s'.db.dlq && s'.db.dlq[e] == s.db.dlq[e]
    case _ => true
  }

  /** What an actor may rely on while others run. */
  ghost predicate Rely(s: State, s': State, actor: Actor) {
    Grows(s, s') && LocalOf(s'.ps, actor) == LocalOf(s.ps, actor) && LockedRowKept(s, s', actor)
  }

  lemma OthersStep(c: Config, s: State, a: Action, actor: Actor)
    requires Enabled(c, s, a) && !TakenBy(a, actor)
    ensures LocalOf(Apply(c, s, a).ps, actor) == LocalOf(s.ps, actor)
  {
  }

  lemma PublisherLeavesLocked(c: Config, s: State, q: nat, a: PublisherAction, actor: Actor)
    requires OutboxOk(s.db.outbox, s.rs.stream, s.ps.publishers) && PublisherEnabled(s, q, a) && actor != AsPublisher(q)
    ensures LockedRowKept(s, PublisherStep(c, s, q, a), actor)
  {
  }

  lemma WorkerLeavesLocked(c: Config, s: State, w: nat, a: WorkerAction, actor: Actor)
    requires WorkerEnabled(c, s, w, a)
    ensures LockedRowKept(s, WorkerStep(c, s, w, a), actor)
  {
  }

  lemma RedriveLeavesLocked(s: State, d: string, a: RedriveAction, actor: Actor)
    requires RedriveEnabled(s, d, a) && actor != AsOperator(d)
    ensures LockedRowKept(s, RedriveStep(s, d, a), actor)
  {
  }

  lemma WorldLeavesLocked(s: State, a: WorldAction, actor: Actor)
    requires IdsOk(s.db) && WorldEnabled(s, a)
    ensures LockedRowKept(s, WorldStep(s, a), actor)
  {
  }

  lemma PumpLeavesLocked(s: State, k: nat, a: PumpAction, actor: Actor)
    requires PumpEnabled(s, k, a)
    ensures LockedRowKept(s, PumpStep(s, k, a), actor)
  {
  }

  /** Nobody changes a row that another transaction has locked. */
  lemma LockedStep(c: Config, s: State, a: Action, actor: Actor)
    requires Inv(c, s) && Enabled(c, s, a) && !TakenBy(a, actor)
    ensures LockedRowKept(s, Apply(c, s, a), actor)
  {
    match a {
      case World(world) => WorldLeavesLocked(s, world, actor);
      case Publish(q, publish) => PublisherLeavesLocked(c, s, q, publish, actor);
      case Work(w, work) => WorkerLeavesLocked(c, s, w, work, actor);
      case Pumping(k, pumping) => PumpLeavesLocked(s, k, pumping, actor);
      case Operate(d, operate) => RedriveLeavesLocked(s, d, operate, actor);
    }
  }

  lemma OneOther(c: Config, s: State, a: Action, actor: Actor)
    requires ValidConfig(c) && Reachable(c, s) && Enabled(c, s, a) && !TakenBy(a, actor)
    ensures Reachable(c, Apply(c, s, a)) && Rely(s, Apply(c, s, a), actor)
  {
    ReachableInv(c, s);
    OthersStep(c, s, a, actor);
    LockedStep(c, s, a, actor);
    ReachableStep(c, s, a);
    StepGrows(c, s, a);
  }

  lemma RelyTransitive(s: State, s1: State, s': State, actor: Actor)
    requires Rely(s, s1, actor) && Rely(s1, s', actor)
    ensures Rely(s, s', actor)
  {
    GrowsTransitive(s, s1, s');
  }

  /** Any number of steps of other actors satisfies the rely condition. */
  lemma {:induction false} OthersRely(c: Config, s: State, acts: seq<Action>, s': State, actor: Actor)
    requires ValidConfig(c) && Reachable(c, s) && Runs(c, s, acts, s')
    requires forall k :: 0 <= k < |acts| ==> !TakenBy(acts[k], actor)
    ensures Reachable(c, s') && Rely(s, s', actor)
    decreases |acts|
  {
    if acts != [] {
      OneOther(c, s, acts[0], actor);
      assert forall k :: 0 <= k < |acts[1..]| ==> acts[1..][k] == acts[k + 1];
      OthersRely(c, Apply(c, s, acts[0]), acts[1..], s', actor);
      RelyTransitive(s, Apply(c, s, acts[0]), s', actor);
    }
  }

  /** A row about `entry` with the given status was committed at or after position `from`. */
  ghost predicate Logged(history: seq<Row>, from: nat, entry: nat, status: Status) {
    exists k :: from <= k < |history| && history[k].entry == Some(entry) && history[k].status == status
  }

  lemma LoggedGrows(a: seq<Row>, b: seq<Row>, from: nat, entry: nat, status: Status)
    requires a <= b && Logged(a, from, entry, status)
    ensures Logged(b, from, entry, status)
  {
    var k :| from <= k < |a| && a[k].entry == Some(entry) && a[k].status == status;
    assert b[k] == a[k];
  }

  lemma LoggedEarlier(history: seq<Row>, from: nat, from': nat, entry: nat, status: Status)
    requires from' <= from && Logged(history, from, entry, status)
    ensures Logged(history, from', entry, status)
  {
  }

  ghost predicate LoggedOutcome(history: seq<Row>, from: nat, entry: nat) {
    exists k :: from <= k < |history| && history[k].entry == Some(entry) && IsOutcome(history[k].status)
  }

  lemma LoggedOutcomeGrows(a: seq<Row>, b: seq<Row>, from: nat, from': nat, entry: nat)
    requires a <= b && from' <= from && LoggedOutcome(a, from, entry)
    ensures LoggedOutcome(b, from', entry)
  {
    var k :| from <= k < |a| && a[k].entry == Some(entry) && IsOutcome(a[k].status);
    assert b[k] == a[k];
  }

  lemma OutcomeLogged(history: seq<Row>, from: nat, later: nat, entry: nat, status: Status)
    requires Logged(history, later, entry, status) && from <= later && IsOutcome(status)
    ensures LoggedOutcome(history, from, entry)
  {
    var k :| later <= k < |history| && history[k].entry == Some(entry) && history[k].status == status;
    assert history[k].entry == Some(entry);
  }

  /** An attempt at `entry` with this number, result and response code was committed at or after `from`. */
  ghost predicate Attempted(attempts: seq<AttemptRow>, from: nat, entry: nat, number: int, success: bool,
                            code: Option<nat>)
  {
    exists k :: from <= k < |attempts| && attempts[k].entry == entry && attempts[k].number == number
                && attempts[k].success == success && attempts[k].code == code
  }

  lemma AttemptedGrows(a: seq<AttemptRow>, b: seq<AttemptRow>, from: nat, from': nat, entry: nat, number: int,
                       success: bool, code: Option<nat>)
    requires a <= b && from' <= from && Attempted(a, from, entry, number, success, code)
    ensures Attempted(b, from', entry, number, success, code)
  {
    var k :| from <= k < |a| && a[k].entry == entry && a[k].number == number
             && a[k].success == success && a[k].code == code;
    assert b[k] == a[k];
  }

  // ---- What may go wrong, and what a delivery ends in ------------------------------------

  /** How the effects of one call end. */
  datatype CallLuck = CallLuck(
    processing: Fault, reply: HttpReply, effect: Fault, now: string, cause: string, outcome: Fault, ack: Fault)

  datatype PublishLuck = PublishLuck(database: bool, publish: Fault, commit: Fault)

  datatype RedriveLuck = RedriveLuck(database: bool, publish: Fault, commit: Fault)

  datatype PumpLuck = PumpLuck(add: Fault, remove: Fault)

  predicate AllWell(luck: CallLuck) {
    luck.processing.Ok? && luck.effect.Ok? && luck.outcome.Ok? && luck.ack.Ok?
  }

  /** Of the first `n` messages of a batch, `acked` holds those whose effects were all confirmed, and all of
      them in order if nothing went wrong. */
  ghost predicate Covers(todo: seq<nat>, lucks: seq<CallLuck>, n: nat, acked: seq<nat>)
    requires n <= |todo| == |lucks|
  {
    && ((forall k :: 0 <= k < n ==> AllWell(lucks[k])) ==> acked == todo[..n])
    && (forall k :: 0 <= k < n && AllWell(lucks[k]) ==> todo[k] in acked)
    && (forall k :: 0 <= k < |acked| ==> acked[k] in todo)
  }

  lemma CoversNext(todo: seq<nat>, lucks: seq<CallLuck>, n: nat, acked: seq<nat>, acked': seq<nat>)
    requires n < |todo| == |lucks| && Covers(todo, lucks, n, acked)
    requires acked' == acked || acked' == acked + [todo[n]]
    requires AllWell(lucks[n]) ==> acked' == acked + [todo[n]]
    ensures Covers(todo, lucks, n + 1, acked')
  {
  }

  ghost predicate AllLogged(history: seq<Row>, from: nat, acked: seq<nat>) {
    forall k :: 0 <= k < |acked| ==> LoggedOutcome(history, from, acked[k])
  }

  lemma AllLoggedGrows(a: seq<Row>, b: seq<Row>, from: nat, acked: seq<nat>)
    requires a <= b && AllLogged(a, from, acked)
    ensures AllLogged(b, from, acked)
  {
    forall k | 0 <= k < |acked| ensures LoggedOutcome(b, from, acked[k]) {
      LoggedOutcomeGrows(a, b, from, from, acked[k]);
    }
  }

  /** What the delivery of a message ends in, by its type, its payload and the answer. */
  predicate EndsAs(c: Config, v: Values, reply: HttpReply, phase: Phase) {
    if TypeOf(v) == "force.fail" then phase == Broke(Failure(Retryable, None))
    else if TypeOf(v) != "webhook" then phase == Succeeded(None)
    else if Payload !in v || !c.plan(v[Payload]).Post? then phase == Broke(Failure(Permanent, None))
    else match reply
      case NoReply(_) => phase == Broke(Failure(Retryable, None))
      case Response(code) =>
        if Outcomes.Temporary(code) then phase == Broke(Failure(Retryable, Some(code)))
        else if 400 <= code <= 499 then phase == Broke(Failure(Permanent, Some(code)))
        else phase == Succeeded(Some(code))
  }

  predicate Breaks(c: Config, v: Values, reply: HttpReply) {
    || TypeOf(v) == "force.fail"
    || (TypeOf(v) == "webhook"
        && (Payload !in v || !c.plan(v[Payload]).Post? || reply.NoReply? || 400 <= reply.code <= 599))
  }

  /** The response code that an answer leaves in its attempt. */
  function CodeIn(reply: HttpReply): Option<nat> {
    match reply
    case NoReply(_) => None
    case Response(code) => Some(code)
  }

  /** The status that a delivery is recorded under: only a refused connection, a forced failure or a
      temporary code is tried again, and only below the limit. */
  function RecordedAs(c: Config, v: Values, retry: int, reply: HttpReply): Status {
    if !Breaks(c, v, reply) then Delivered
    else if retry >= c.maxRetries then DeadLettered
    else if TypeOf(v) == "force.fail" then Retrying
    else if Payload !in v || !c.plan(v[Payload]).Post? then DeadLettered
    else if reply.NoReply? || Outcomes.Temporary(reply.code) then Retrying
    else DeadLettered
  }

  /** Since `before`, the outcome row that the answer calls for and an attempt with its code were committed. */
  ghost predicate Told(c: Config, db: Db, before: Db, job: Job, reply: HttpReply)
    requires job.Job?
  {
    var status := RecordedAs(c, job.msg, job.retry, reply);
    && Logged(db.history, |before.history|, job.entry, status)
    && Attempted(db.attempts, |before.attempts|, job.entry, job.retry + 1, status.Delivered?, CodeIn(reply))
  }

  lemma ToldEarlier(c: Config, db: Db, later: Db, before: Db, job: Job, reply: HttpReply)
    requires job.Job? && Told(c, db, later, job, reply)
    requires |before.history| <= |later.history| && |before.attempts| <= |later.attempts|
    ensures Told(c, db, before, job, reply)
  {
    var status := RecordedAs(c, job.msg, job.retry, reply);
    LoggedEarlier(db.history, |later.history|, |before.history|, job.entry, status);
    AttemptedGrows(db.attempts, db.attempts, |later.attempts|, |before.attempts|, job.entry, job.retry + 1,
                   status.Delivered?, CodeIn(reply));
  }

  lemma EndsRecorded(c: Config, s: State, v: Values, retry: int, reply: HttpReply, phase: Phase)
    requires ReplyPossible(c, s.receiver, v, reply) && EndsAs(c, v, reply, phase)
    ensures phase.Succeeded? ==> RecordedAs(c, v, retry, reply) == Delivered && phase.code == CodeIn(reply)
    ensures phase.Broke? ==>
              phase.failure.status == CodeIn(reply)
              && RecordedAs(c, v, retry, reply)
                 == if TriesAgain(phase.failure, retry, c.maxRetries) then Retrying else DeadLettered
  {
  }

  lemma BreaksIff(c: Config, v: Values, reply: HttpReply, phase: Phase)
    requires EndsAs(c, v, reply, phase)
    ensures phase.Broke? <==> Breaks(c, v, reply)
    ensures phase.Broke? || phase.Succeeded?
  {
  }

  /** Whether a failed delivery is tried again. */
  predicate TriesAgain(failure: Failure, retry: int, maxRetries: int) {
    failure.kind == Retryable && retry < maxRetries
  }

  datatype ClaimAnswer = ClaimFailed | NoRow | Row(event: string)

  datatype PublishOutcome =
    | DatabaseError
    | NothingDue
    | PublishDone(event: string)
    | PublishError(event: string)
    | NotCommitted(event: string)

  /** The outbox row is published, with a PUBLISHED row stamped `at`, committed at or after `from`. */
  ghost predicate HasPublished(db: Db, from: nat, e: string, at: nat) {
    && e in db.outbox && db.outbox[e].published
    && exists k :: from <= k < |db.history| && db.history[k].event == e && db.history[k].status.Published?
                   && db.history[k].at == at
  }

  lemma HasPublishedEarlier(db: Db, from: nat, later: nat, e: string, at: nat)
    requires from <= later && HasPublished(db, later, e, at)
    ensures HasPublished(db, from, e, at)
  {
  }

  /** The row after a failed publication: one attempt more, and due again after the capped backoff, in
      whole microseconds. */
  ghost predicate Delayed(c: Config, row: OutboxRow, at: nat, row': OutboxRow) {
    && !row'.published && row'.outboxId == row.outboxId && row'.createdAt == row.createdAt
    && row'.attemptCount == row.attemptCount + 1
    && row'.nextAttemptAt
       == at + Backoff.Min(c.maxBackoff, c.baseBackoff * Backoff.Pow2(row.attemptCount)) / 1000
  }

  /** How a publication ends, by what went wrong. */
  predicate EndsPublishing(luck: PublishLuck, r: PublishOutcome) {
    && (r.PublishDone? <==> luck.publish.Ok? && luck.commit.Ok?)
    && (r.PublishError? <==> !luck.publish.Ok? && luck.commit.Ok?)
    && (r.NotCommitted? <==> !luck.commit.Ok?)
  }

  /** What became of the claimed row. */
  ghost predicate RowAfter(c: Config, luck: PublishLuck, row: OutboxRow, at: nat, db: Db, from: nat, e: string) {
    && e in db.outbox
    && (luck.commit.Lost? ==> db.outbox[e] == row)
    && (!luck.commit.Lost? && luck.publish.Ok? ==> HasPublished(db, from, e, at))
    && (!luck.commit.Lost? && !luck.publish.Ok? ==> Delayed(c, row, at, db.outbox[e]))
  }

  lemma RowAfterEarlier(c: Config, luck: PublishLuck, row: OutboxRow, at: nat, db: Db, from: nat, later: nat, e: string)
    requires from <= later && RowAfter(c, luck, row, at, db, later, e)
    ensures RowAfter(c, luck, row, at, db, from, e)
  {
    if !luck.commit.Lost? && luck.publish.Ok? {
      HasPublishedEarlier(db, from, later, e, at);
    }
  }

  /** A root entry of `e` stands in the stream at or behind `from`. */
  ghost predicate HasRoot(stream: seq<Values>, from: nat, e: string) {
    exists i :: from <= i < |stream| && EventOf(stream[i]) == e && OutboxId in stream[i]
  }

  lemma HasRootGrows(a: seq<Values>, b: seq<Values>, from: nat, e: string)
    requires a <= b && HasRoot(a, from, e)
    ensures HasRoot(b, from, e)
  {
    var i :| from <= i < |a| && EventOf(a[i]) == e && OutboxId in a[i];
    assert b[i] == a[i];
  }

  /** The members whose XADD is confirmed. */
  function SentOf(due: seq<Values>, lucks: seq<PumpLuck>): seq<Values>
    requires |due| == |lucks|
  {
    if due == [] then []
    else
      SentOf(due[..|due| - 1], lucks[..|due| - 1]) + if lucks[|due| - 1].add.Ok? then [due[|due| - 1]] else []
  }

  lemma {:induction false} SentInDue(due: seq<Values>, lucks: seq<PumpLuck>)
    requires |due| == |lucks|
    ensures forall m :: m in SentOf(due, lucks) ==> m in due
  {
    if due != [] {
      SentInDue(due[..|due| - 1], lucks[..|due| - 1]);
    }
  }

  lemma SentOfSnoc(due: seq<Values>, lucks: seq<PumpLuck>, n: nat)
    requires |due| == |lucks| && n < |due|
    ensures SentOf(due[..n + 1], lucks[..n + 1])
            == SentOf(due[..n], lucks[..n]) + if lucks[n].add.Ok? then [due[n]] else []
  {
    assert due[..n + 1][..n] == due[..n] && lucks[..n + 1][..n] == lucks[..n];
  }

  /** The rows that the claim query of a transaction begun now may return. */
  function Claimable(s: State): set<string> {
    set e | e in s.db.outbox && e in s.db.events && !s.db.outbox[e].published
            && s.db.outbox[e].nextAttemptAt <= s.db.clock && !RowHeld(s.ps.publishers, e)
  }

  /** Those are the rows that the protocol lets a publisher claim at this instant. */
  lemma ClaimableIff(s: State, p: nat, e: string)
    requires p !in s.ps.publishers
    ensures e in Claimable(s) <==> PublisherEnabled(s, p, Claim(e, s.db.clock))
  {
  }

  datatype RedriveOutcome = NotFound | NotOpen | QueryFailed | RedriveFailed | CommitError | RedriveDone(entry: nat)

  lemma FetchedInStream(c: Config, s: State, w: nat)
    requires ValidConfig(c) && Reachable(c, s) && WorkerOf(s.ps, w).todo != []
    ensures WorkerOf(s.ps, w).todo[0] < |s.rs.stream|
  {
    ReachableInv(c, s);
    WorkerFacts(c, s, w);
  }

  lemma PublisherRow(c: Config, s: State, p: nat)
    requires ValidConfig(c) && Reachable(c, s) && p in s.ps.publishers
    ensures Publishing(s, p)
  {
    ReachableInv(c, s);
    assert PublisherOk(s.db.outbox, s.rs.stream, s.ps.publishers[p]);
  }

  lemma RedriveRow(c: Config, s: State, e: string)
    requires ValidConfig(c) && Reachable(c, s) && e in s.ps.redrives
    ensures e in s.db.dlq && s.db.dlq[e].status.Open? && e in s.db.events
    ensures s.ps.redrives[e].RedriveAppended? ==>
              s.ps.redrives[e].entry < |s.rs.stream|
              && s.rs.stream[s.ps.redrives[e].entry] == RedriveValues(e, s.db.events[e])
  {
    ReachableInv(c, s);
    assert RedriveOk(s.db, s.rs.stream, e, s.ps.redrives[e]);
  }

  /** The root entry that a publisher appends speaks of its event. */
  lemma RootSpeaks(c: Config, s: State, p: nat)
    requires ValidConfig(c) && Reachable(c, s) && Publishing(s, p)
    ensures var e := s.ps.publishers[p].event;
            EventOf(RootValues(e, s.db.events[e], s.db.outbox[e].outboxId)) == e
  {
    ReachableInv(c, s);
    NewCarrier(c, s.db.events, s.ps.publishers[p].event, OutboxId, s.db.outbox[s.ps.publishers[p].event].outboxId);
  }

  /** An entry that starts the delivery of `e` anew: no retries yet, no ancestor, marked as a redrive. */
  ghost predicate IsFreshRedrive(s: State, i: nat, e: string) {
    && e in s.db.events && i < |s.rs.stream|
    && EventOf(s.rs.stream[i]) == e && ParseRetry(s.rs.stream[i]) == 0
    && OriginalStreamId !in s.rs.stream[i] && RedriveMark in s.rs.stream[i]
  }

  lemma RedriveSpeaks(c: Config, s: State, e: string)
    requires ValidConfig(c) && Reachable(c, s) && e in s.ps.redrives && s.ps.redrives[e].RedriveAppended?
    ensures IsFreshRedrive(s, s.ps.redrives[e].entry, e)
  {
    ReachableInv(c, s);
    RedriveRow(c, s, e);
    NewCarrier(c, s.db.events, e, RedriveMark, "1");
  }

  class Cluster {
    const c: Config
    var s: State

    ghost predicate Valid()
      reads this
    {
      ValidConfig(c) && Reachable(c, s)
    }

    /** One external effect. */
    method Effect(a: Action)
      requires Valid() && Enabled(c, s, a)
      modifies this
      ensures Valid() && s == Apply(c, old(s), a) && Grows(old(s), s)
    {
      ReachableStep(c, s, a);
      StepGrows(c, s, a);
      s := Apply(c, s, a);
    }

    /** Everyone else runs; the contract allows any outcome that OthersRely describes. */
    method Others(actor: Actor)
      requires Valid()
      modifies this
      ensures Valid() && Rely(old(s), s, actor)
    {
    }

    /** Time passes until the database clock is past `t`. */
    method AwaitClock(actor: Actor, t: nat)
      requires Valid()
      modifies this
      ensures Valid() && Rely(old(s), s, actor) && s.db.clock > t
    {
      var now := Max(s.db.clock, t) + 1;
      Effect(World(Tick(now)));
    }

    /** The upsert of a DLQ record waits for a redrive that holds its row lock, however long that
        takes and however it ends. */
    method AwaitUnlocked(w: nat, e: string)
      requires Valid()
      modifies this
      ensures Valid() && Rely(old(s), s, AsWorker(w)) && e !in s.ps.redrives
    {
      AwaitClock(AsWorker(w), s.db.clock);
      if e in s.ps.redrives {
        var commits: bool := *;
        if commits && s.ps.redrives[e].RedriveAppended? {
          RedriveRow(c, s, e);
          ReachableFresh(c, s);
          Effect(Operate(e, RedriveAction.CommitRedrive(s.db.serial, Ok)));
        } else {
          Effect(Operate(e, AbortRedrive));
        }
      }
    }

    /** The RecordProcessing transaction. */
    method RecordProcessing(w: nat, f: Fault) returns (ok: bool)
      requires Valid() && JobOf(s.ps, w).Job? && JobOf(s.ps, w).phase.Took?
      modifies this
      ensures Valid() && Grows(old(s), s) && (ok <==> f.Ok?)
      ensures WorkerOf(s.ps, w).todo == old(WorkerOf(s.ps, w).todo)
      ensures JobOf(s.ps, w) == if ok then old(JobOf(s.ps, w)).(phase := Recorded) else NoJob
      ensures !f.Lost? ==> Logged(s.db.history, |old(s.db.history)|, old(JobOf(s.ps, w).entry), Processing)
    {
      AwaitClock(AsWorker(w), JobOf(s.ps, w).since);
      ReachableFresh(c, s);
      ghost var before := |s.db.history|;
      Effect(Work(w, WorkerAction.RecordProcessing(s.db.serial, s.db.clock, f)));
      ok := f == Ok;
      if !f.Lost? {
        assert s.db.history[before].status == Processing;
      }
    }

    /** processMessageWithResult: `reply` is what the destination answers, if it can. */
    method DeliverMessage(w: nat, expected: HttpReply) returns (reply: HttpReply)
      requires Valid() && JobOf(s.ps, w).Job? && JobOf(s.ps, w).phase.Recorded?
      modifies this
      ensures Valid() && Grows(old(s), s)
      ensures ReplyPossible(c, old(s.receiver), old(JobOf(s.ps, w).msg), reply)
      ensures ReplyPossible(c, old(s.receiver), old(JobOf(s.ps, w).msg), expected) ==> reply == expected
      ensures WorkerOf(s.ps, w).todo == old(WorkerOf(s.ps, w).todo) && JobOf(s.ps, w).Job?
      ensures JobOf(s.ps, w) == old(JobOf(s.ps, w)).(phase := JobOf(s.ps, w).phase)
      ensures EndsAs(c, JobOf(s.ps, w).msg, reply, JobOf(s.ps, w).phase)
    {
      reply := expected;
      if !ReplyPossible(c, s.receiver, JobOf(s.ps, w).msg, expected) {
        reply := NO_HTTP;
      }
      Effect(Work(w, Deliver(reply)));
    }

    /** processStreamMessage, from the message in hand to its return: the message is acknowledged
        exactly when every effect on its way was confirmed, and then its PROCESSING row, the outcome
        row that the answer calls for and an attempt with the answer's code are committed. */
    method ProcessStreamMessage(w: nat, luck: CallLuck) returns (acked: bool, reply: HttpReply)
      requires Valid() && JobOf(s.ps, w).Job? && JobOf(s.ps, w).phase.Took?
      modifies this
      ensures Valid() && Grows(old(s), s)
      ensures WorkerOf(s.ps, w) == old(WorkerOf(s.ps, w)).(job := NoJob)
      ensures acked <==>
              && luck.processing.Ok? && luck.outcome.Ok? && luck.ack.Ok?
              && (Breaks(c, old(JobOf(s.ps, w).msg), reply) ==> luck.effect.Ok?)
      ensures acked ==>
                && Logged(s.db.history, |old(s.db.history)|, old(JobOf(s.ps, w).entry), Processing)
                && Told(c, s.db, old(s.db), old(JobOf(s.ps, w)), reply)
    {
      ghost var job, before := JobOf(s.ps, w), s.db;
      reply := NO_HTTP;
      var ok := RecordProcessing(w, luck.processing);
      if !ok {
        return false, reply;
      }
      ghost var recorded := s.db.history;
      Others(AsWorker(w));
      ghost var later := s.db;
      acked, reply := DeliverAndSettle(w, luck);
      LoggedGrows(recorded, s.db.history, |before.history|, job.entry, Processing);
      if acked {
        ToldEarlier(c, s.db, later, before, job, reply);
      }
    }

    /** processMessageWithResult and what follows it. */
    method DeliverAndSettle(w: nat, luck: CallLuck) returns (acked: bool, reply: HttpReply)
      requires Valid() && JobOf(s.ps, w).Job? && JobOf(s.ps, w).phase.Recorded?
      modifies this
      ensures Valid() && Grows(old(s), s)
      ensures WorkerOf(s.ps, w) == old(WorkerOf(s.ps, w)).(job := NoJob)
      ensures acked <==>
              && luck.outcome.Ok? && luck.ack.Ok?
              && (Breaks(c, old(JobOf(s.ps, w).msg), reply) ==> luck.effect.Ok?)
      ensures acked ==> Told(c, s.db, old(s.db), old(JobOf(s.ps, w)), reply)
    {
      ghost var job, before := JobOf(s.ps, w), s;
      reply := DeliverMessage(w, luck.reply);
      BreaksIff(c, job.msg, reply, JobOf(s.ps, w).phase);
      EndsRecorded(c, before, job.msg, job.retry, reply, JobOf(s.ps, w).phase);
      Others(AsWorker(w));
      ghost var later := s.db;
      acked := SettleMessage(w, luck);
      if acked {
        ToldEarlier(c, s.db, later, before.db, job, reply);
      }
    }

    /** What follows the delivery, by its result. */
    method SettleMessage(w: nat, luck: CallLuck) returns (acked: bool)
      requires Valid() && JobOf(s.ps, w).Job? && (JobOf(s.ps, w).phase.Broke? || JobOf(s.ps, w).phase.Succeeded?)
      modifies this
      ensures Valid() && Grows(old(s), s)
      ensures WorkerOf(s.ps, w) == old(WorkerOf(s.ps, w)).(job := NoJob)
      ensures acked <==>
              luck.outcome.Ok? && luck.ack.Ok? && (old(JobOf(s.ps, w).phase.Broke?) ==> luck.effect.Ok?)
      ensures acked ==>
                var job := old(JobOf(s.ps, w));
                && Logged(s.db.history, |old(s.db.history)|, job.entry,
                          if job.phase.Succeeded? then Delivered
                          else if TriesAgain(job.phase.failure, job.retry, c.maxRetries) then Retrying
                          else DeadLettered)
                && Attempted(s.db.attempts, |old(s.db.attempts)|, job.entry, job.retry + 1, job.phase.Succeeded?,
                             if job.phase.Succeeded? then job.phase.code else job.phase.failure.status)
    {
      if JobOf(s.ps, w).phase.Broke? {
        acked := HandleDeliveryFailure(w, luck);
      } else {
        acked := RecordAndAck(w, luck.outcome, luck.ack);
      }
    }

    /** handleDeliveryFailure: RETRYING for a temporary failure below the limit, DEAD_LETTERED for
        every other one. */
    method HandleDeliveryFailure(w: nat, luck: CallLuck) returns (acked: bool)
      requires Valid() && JobOf(s.ps, w).Job? && JobOf(s.ps, w).phase.Broke?
      modifies this
      ensures Valid() && Grows(old(s), s)
      ensures WorkerOf(s.ps, w) == old(WorkerOf(s.ps, w)).(job := NoJob)
      ensures acked <==> luck.effect.Ok? && luck.outcome.Ok? && luck.ack.Ok?
      ensures acked ==>
                var job := old(JobOf(s.ps, w));
                && Logged(s.db.history, |old(s.db.history)|, job.entry,
                          if TriesAgain(job.phase.failure, job.retry, c.maxRetries) then Retrying else DeadLettered)
                && Attempted(s.db.attempts, |old(s.db.attempts)|, job.entry, job.retry + 1, false,
                             job.phase.failure.status)
    {
      var job := JobOf(s.ps, w);
      if DecideFailureAction(job.phase.failure, job.retry, c.maxRetries) == Retry {
        Effect(Work(w, ScheduleRetry(luck.effect)));
      } else {
        Effect(Work(w, WriteDlq(luck.now, luck.cause, luck.effect)));
      }
      if luck.effect != Ok {
        return false;
      }
      acked := RecordAndAck(w, luck.outcome, luck.ack);
    }

    /** The recording transaction that ends a call, then XACK. */
    method RecordAndAck(w: nat, outcome: Fault, ack: Fault) returns (acked: bool)
      requires Valid() && JobOf(s.ps, w).Job? && OutcomeStatus(JobOf(s.ps, w).phase).Some?
      modifies this
      ensures Valid() && Grows(old(s), s)
      ensures WorkerOf(s.ps, w) == old(WorkerOf(s.ps, w)).(job := NoJob)
      ensures acked <==> outcome.Ok? && ack.Ok?
      ensures outcome.Ok? && !ack.Lost? ==> old(JobOf(s.ps, w).entry) !in s.rs.pel
      ensures !outcome.Lost? ==>
                var job := old(JobOf(s.ps, w));
                && Logged(s.db.history, |old(s.db.history)|, job.entry, OutcomeStatus(job.phase).value)
                && Attempted(s.db.attempts, |old(s.db.attempts)|, job.entry, job.retry + 1, job.phase.Succeeded?,
                             OutcomeCode(job.phase))
    {
      ghost var job, from, since := JobOf(s.ps, w), |s.db.history|, |s.db.attempts|;
      var ok := RecordOutcome(w, outcome);
      ghost var recorded := s.db;
      if !ok {
        return false;
      }
      Others(AsWorker(w));
      Effect(Work(w, Ack(ack)));
      acked := ack == Ok;
      LoggedGrows(recorded.history, s.db.history, from, job.entry, OutcomeStatus(job.phase).value);
      AttemptedGrows(recorded.attempts, s.db.attempts, since, since, job.entry, job.retry + 1, job.phase.Succeeded?,
                     OutcomeCode(job.phase));
    }

    /** RecordDelivered, RecordRetrying or RecordDeadLettered, by the job's phase; the rows carry the
        start of the transaction, which may then have to wait. */
    method RecordOutcome(w: nat, f: Fault) returns (ok: bool)
      requires Valid() && JobOf(s.ps, w).Job? && OutcomeStatus(JobOf(s.ps, w).phase).Some?
      modifies this
      ensures Valid() && Grows(old(s), s) && (ok <==> f.Ok?)
      ensures WorkerOf(s.ps, w) ==
              old(WorkerOf(s.ps, w)).(job := if ok then old(JobOf(s.ps, w)).(phase := Settled) else NoJob)
      ensures !f.Lost? ==>
                var job := old(JobOf(s.ps, w));
                && Logged(s.db.history, |old(s.db.history)|, job.entry, OutcomeStatus(job.phase).value)
                && Attempted(s.db.attempts, |old(s.db.attempts)|, job.entry, job.retry + 1, job.phase.Succeeded?,
                             OutcomeCode(job.phase))
    {
      var job := JobOf(s.ps, w);
      AwaitClock(AsWorker(w), job.since);
      var at := s.db.clock;
      AwaitUnlocked(w, EventOf(job.msg));
      ReachableFresh(c, s);
      ghost var before := s.db;
      Effect(Work(w, WorkerAction.RecordOutcome(s.db.serial, at, f)));
      ok := f == Ok;
      if !f.Lost? {
        assert s.db.history[|before.history|].entry == Some(job.entry);
        assert s.db.attempts[|before.attempts|].entry == job.entry;
      }
    }

    /** The message loop of runStreamWorker over one fetched batch; `acked` lists the entries that
        were acknowledged, which are all of them if nothing goes wrong. */
    method ProcessBatch(w: nat, lucks: seq<CallLuck>) returns (acked: seq<nat>)
      requires Valid() && JobOf(s.ps, w).NoJob? && |lucks| == |WorkerOf(s.ps, w).todo|
      modifies this
      ensures Valid() && Grows(old(s), s)
      ensures WorkerOf(s.ps, w) == Worker([], NoJob)
      ensures Covers(old(WorkerOf(s.ps, w).todo), lucks, |lucks|, acked)
      ensures AllLogged(s.db.history, |old(s.db.history)|, acked)
    {
      acked := [];
      var todo, n := WorkerOf(s.ps, w).todo, 0;
      while n < |todo|
        invariant Valid() && Grows(old(s), s) && 0 <= n <= |todo|
        invariant WorkerOf(s.ps, w) == Worker(todo[n..], NoJob)
        invariant Covers(todo, lucks, n, acked) && AllLogged(s.db.history, |old(s.db.history)|, acked)
      {
        ghost var before := s.db.history;
        Others(AsWorker(w));
        AllLoggedGrows(before, s.db.history, |old(s.db.history)|, acked);
        var acked' := ProcessNext(w, |old(s.db.history)|, acked, lucks[n]);
        CoversNext(todo, lucks, n, acked, acked');
        acked, n := acked', n + 1;
      }
    }

    /** Take the next message of the batch and process it. */
    method ProcessNext(w: nat, ghost from: nat, acked: seq<nat>, luck: CallLuck) returns (acked': seq<nat>)
      requires Valid() && JobOf(s.ps, w).NoJob? && WorkerOf(s.ps, w).todo != [] && from <= |s.db.history|
      requires AllLogged(s.db.history, from, acked)
      modifies this
      ensures Valid() && Grows(old(s), s)
      ensures WorkerOf(s.ps, w) == Worker(old(WorkerOf(s.ps, w).todo)[1..], NoJob)
      ensures acked' == acked || acked' == acked + [old(WorkerOf(s.ps, w).todo)[0]]
      ensures AllWell(luck) ==> acked' == acked + [old(WorkerOf(s.ps, w).todo)[0]]
      ensures !luck.processing.Ok? || !luck.outcome.Ok? || !luck.ack.Ok? ==> acked' == acked
      ensures AllLogged(s.db.history, from, acked')
    {
      FetchedInStream(c, s, w);
      var i := WorkerOf(s.ps, w).todo[0];
      ghost var before := s.db.history;
      Effect(Work(w, Take));
      ghost var job := JobOf(s.ps, w);
      var ok, reply := ProcessStreamMessage(w, luck);
      acked' := if ok then acked + [i] else acked;
      AllLoggedGrows(before, s.db.history, from, acked);
      if ok {
        OutcomeLogged(s.db.history, from, |before|, i, RecordedAs(c, job.msg, job.retry, reply));
      }
    }

    /** PublishNextOutboxEvent: the claim query skips locked rows and takes the row due first; an
        empty answer changes nothing, nor does a transaction that cannot begin or claim. */
    method PublishNextOutboxEvent(p: nat, luck: PublishLuck) returns (r: PublishOutcome)
      requires Valid() && p !in s.ps.publishers
      modifies this
      ensures Valid() && Grows(old(s), s) && p !in s.ps.publishers
      ensures r.DatabaseError? <==> luck.database
      ensures r.NothingDue? <==> !luck.database && Claimable(old(s)) == {}
      ensures r.DatabaseError? || r.NothingDue? ==> s == old(s)
      ensures !r.DatabaseError? && !r.NothingDue? ==>
                && r.event in Claimable(old(s)) && FirstOf(old(s.db.outbox), Claimable(old(s)), r.event)
                && EndsPublishing(luck, r)
                && RowAfter(c, luck, old(s.db.outbox)[r.event], old(s.db.clock), s.db, |old(s.db.history)|, r.event)
                && (!luck.publish.Lost? ==> HasRoot(s.rs.stream, |old(s.rs.stream)|, r.event))
    {
      var answer := ClaimNext(p, luck.database);
      if answer.ClaimFailed? {
        return DatabaseError;
      }
      if answer.NoRow? {
        return NothingDue;
      }
      ghost var before := s;
      Others(AsPublisher(p));
      ghost var later := s;
      r := PublishClaimed(p, luck);
      RowAfterEarlier(c, luck, before.db.outbox[r.event], before.db.clock, s.db, |before.db.history|,
                      |later.db.history|, r.event);
    }

    /** BeginTx, the claim query and its row lock: the row that has been due longest, and of those the
        oldest. */
    method ClaimNext(p: nat, broken: bool) returns (answer: ClaimAnswer)
      requires Valid() && p !in s.ps.publishers
      modifies this
      ensures Valid() && Grows(old(s), s) && s.db == old(s.db) && s.rs == old(s.rs)
      ensures answer.ClaimFailed? <==> broken
      ensures answer.NoRow? <==> !broken && Claimable(old(s)) == {}
      ensures answer.ClaimFailed? || answer.NoRow? ==> s == old(s)
      ensures answer.Row? ==>
                && answer.event in Claimable(old(s)) && FirstOf(s.db.outbox, Claimable(old(s)), answer.event)
                && p in s.ps.publishers && s.ps.publishers[p] == Claimed(answer.event, s.db.clock, s.db.serial)
      ensures answer.Row? ==>
                forall x :: x in Claimable(old(s)) ==>
                  || s.db.outbox[answer.event].nextAttemptAt < s.db.outbox[x].nextAttemptAt
                  || (s.db.outbox[answer.event].nextAttemptAt == s.db.outbox[x].nextAttemptAt
                      && s.db.outbox[answer.event].createdAt <= s.db.outbox[x].createdAt)
    {
      if broken {
        return ClaimFailed;
      }
      var free := Claimable(s);
      if free == {} {
        return NoRow;
      }
      ghost var _ := FirstExists(s.db.outbox, free);
      var row :| row in free && FirstOf(s.db.outbox, free, row);
      Effect(Publish(p, Claim(row, s.db.clock)));
      answer := ClaimAnswer.Row(row);
    }

    /** The publish and the commit for a claimed row. */
    method PublishClaimed(p: nat, luck: PublishLuck) returns (r: PublishOutcome)
      requires Valid() && p in s.ps.publishers && s.ps.publishers[p].Claimed?
      requires s.ps.publishers[p].floor <= s.db.serial && s.ps.publishers[p].event in s.db.outbox
      modifies this
      ensures Valid() && Grows(old(s), s) && p !in s.ps.publishers
      ensures !r.DatabaseError? && !r.NothingDue? && r.event == old(s.ps.publishers[p].event)
      ensures EndsPublishing(luck, r)
      ensures RowAfter(c, luck, old(s.db.outbox)[r.event], old(s.ps.publishers[p].at), s.db,
                       |old(s.db.history)|, r.event)
      ensures !luck.publish.Lost? ==> HasRoot(s.rs.stream, |old(s.rs.stream)|, r.event)
    {
      var e := s.ps.publishers[p].event;
      ghost var row, at, from, length := s.db.outbox[e], s.ps.publishers[p].at, |s.db.history|, |s.rs.stream|;
      AppendRootEntry(p, luck.publish);
      ghost var stream := s.rs.stream;
      Others(AsPublisher(p));
      ghost var later := |s.db.history|;
      if luck.publish != Ok {
        RescheduleOutbox(p, luck.commit);
        r := if luck.commit == Ok then PublishError(e) else NotCommitted(e);
      } else {
        var ok := MarkPublished(p, luck.commit);
        r := if ok then PublishDone(e) else NotCommitted(e);
      }
      RowAfterEarlier(c, luck, row, at, s.db, from, later, e);
      if !luck.publish.Lost? {
        HasRootGrows(stream, s.rs.stream, length, e);
      }
    }

    /** Publisher.Publish */
    method AppendRootEntry(p: nat, f: Fault)
      requires Valid() && p in s.ps.publishers && s.ps.publishers[p].Claimed?
      modifies this
      ensures Valid() && Grows(old(s), s) && s.db == old(s.db) && p in s.ps.publishers
      ensures s.ps.publishers[p].event == old(s.ps.publishers[p].event)
      ensures s.ps.publishers[p].at == old(s.ps.publishers[p].at)
      ensures f.Ok? ==> s.ps.publishers[p].Appended? && s.ps.publishers[p].floor == old(s.ps.publishers[p].floor)
      ensures !f.Ok? ==> s.ps.publishers[p].PublishFailed?
      ensures !f.Lost? ==> HasRoot(s.rs.stream, |old(s.rs.stream)|, s.ps.publishers[p].event)
    {
      PublisherRow(c, s, p);
      RootSpeaks(c, s, p);
      ghost var length := |s.rs.stream|;
      Effect(Publish(p, AppendRoot(f)));
      if !f.Lost? {
        assert OutboxId in s.rs.stream[length];
      }
    }

    /** rescheduleOutboxAfterFailure and its commit. */
    method RescheduleOutbox(p: nat, f: Fault)
      requires Valid() && p in s.ps.publishers && s.ps.publishers[p].PublishFailed?
      requires s.ps.publishers[p].event in s.db.outbox
      modifies this
      ensures Valid() && Grows(old(s), s) && p !in s.ps.publishers
      ensures var e := old(s.ps.publishers[p].event);
              && e in s.db.outbox
              && (f.Lost? ==> s.db.outbox[e] == old(s.db.outbox)[e])
              && (!f.Lost? ==> Delayed(c, old(s.db.outbox)[e], old(s.ps.publishers[p].at), s.db.outbox[e]))
    {
      PublisherRow(c, s, p);
      Effect(Publish(p, CommitReschedule(f)));
    }

    /** Mark the row, record PUBLISHED and commit. */
    method MarkPublished(p: nat, f: Fault) returns (ok: bool)
      requires Valid() && p in s.ps.publishers && s.ps.publishers[p].Appended?
      requires s.ps.publishers[p].floor <= s.db.serial && s.ps.publishers[p].event in s.db.outbox
      modifies this
      ensures Valid() && Grows(old(s), s) && p !in s.ps.publishers && (ok <==> f.Ok?)
      ensures var pub := old(s.ps.publishers[p]);
              && pub.event in s.db.outbox
              && (f.Lost? ==> s.db.outbox[pub.event] == old(s.db.outbox)[pub.event])
              && (!f.Lost? ==> HasPublished(s.db, |old(s.db.history)|, pub.event, pub.at))
    {
      PublisherRow(c, s, p);
      ReachableFresh(c, s);
      ghost var k, pub := |s.db.history|, s.ps.publishers[p];
      Effect(Publish(p, CommitPublished(s.db.serial, f)));
      ok := f == Ok;
      if !f.Lost? {
        assert s.db.history[k].status.Published? && s.db.history[k].event == pub.event;
      }
    }

    /** One tick of retryPump over the due members it fetched: exactly those whose XADD is confirmed
        count as sent. */
    method RetryPumpTick(k: nat, due: seq<Values>, lucks: seq<PumpLuck>) returns (sent: seq<Values>)
      requires Valid() && Enabled(c, s, Pumping(k, FetchDue(due))) && |lucks| == |due|
      modifies this
      ensures Valid() && Grows(old(s), s) && k !in s.ps.pumps
      ensures sent == SentOf(due, lucks)
      ensures forall i :: 0 <= i < |sent| ==> sent[i] in due && sent[i] in s.rs.stream
    {
      SentInDue(due, lucks);
      Effect(Pumping(k, FetchDue(due)));
      sent := [];
      var n := 0;
      while n < |due|
        invariant Valid() && Grows(old(s), s) && 0 <= n <= |due|
        invariant k in s.ps.pumps && s.ps.pumps[k] == Pump(due[n..], None)
        invariant sent == SentOf(due[..n], lucks[..n])
        invariant forall i :: 0 <= i < |sent| ==> sent[i] in s.rs.stream
      {
        Others(AsPump(k));
        SentOfSnoc(due, lucks, n);
        sent := RepublishRetryMember(k, sent, lucks[n]);
        n := n + 1;
      }
      assert due[..n] == due && lucks[..n] == lucks;
      Effect(Pumping(k, CrashPump));
    }

    /** republishRetryMember: XADD first, ZREM only after it was confirmed. Whatever others do, the
        member is in the stream when it counts as sent. */
    method RepublishRetryMember(k: nat, sent: seq<Values>, luck: PumpLuck) returns (sent': seq<Values>)
      requires Valid() && k in s.ps.pumps && s.ps.pumps[k].removing.None? && s.ps.pumps[k].todo != []
      requires forall i :: 0 <= i < |sent| ==> sent[i] in s.rs.stream
      modifies this
      ensures Valid() && Grows(old(s), s)
      ensures k in s.ps.pumps && s.ps.pumps[k] == Pump(old(s.ps.pumps[k].todo)[1..], None)
      ensures sent' == if luck.add.Ok? then sent + [old(s.ps.pumps[k].todo)[0]] else sent
      ensures luck.add.Ok? ==> |s.rs.stream| > |old(s.rs.stream)|
      ensures luck.add.Ok? && !luck.remove.Lost? ==> old(s.ps.pumps[k].todo)[0] !in s.rs.zset
      ensures !luck.add.Ok? ==> s.rs.zset == old(s.rs.zset)
      ensures forall i :: 0 <= i < |sent'| ==> sent'[i] in s.rs.stream
    {
      var m := s.ps.pumps[k].todo[0];
      Effect(Pumping(k, Republish(luck.add)));
      sent' := sent;
      if luck.add == Ok {
        assert s.rs.stream[|s.rs.stream| - 1] == m;
        sent' := sent + [m];
        Others(AsPump(k));
        Effect(Pumping(k, RemoveMember(luck.remove)));
      }
    }

    /** SELECT ... FOR UPDATE waits while another redrive holds the record's row. */
    method AwaitRedrive(e: string)
      requires Valid()
      modifies this
      ensures Valid() && Grows(old(s), s) && e !in s.ps.redrives
      ensures old(e !in s.ps.redrives) ==> s == old(s)
    {
      if e in s.ps.redrives {
        var commits: bool := *;
        if s.ps.redrives[e].RedriveAppended? && commits {
          var _ := CommitRedrive(e, Ok);
        } else {
          Effect(Operate(e, AbortRedrive));
        }
      }
    }

    /** RedriveDLQ: the row lock is taken, after waiting for it if need be, before the publish and
        kept until the commit. `at` is the state in which the record was read. */
    method RedriveDLQ(e: string, luck: RedriveLuck) returns (r: RedriveOutcome, ghost at: State)
      requires Valid()
      modifies this
      ensures Valid() && Grows(old(s), at) && Grows(at, s) && e !in s.ps.redrives
      ensures old(e !in s.ps.redrives) ==> at == old(s)
      ensures r.QueryFailed? <==> luck.database
      ensures r.NotFound? <==> !luck.database && e !in at.db.dlq
      ensures r.NotOpen? <==> !luck.database && e in at.db.dlq && !at.db.dlq[e].status.Open?
      ensures r.QueryFailed? || r.NotFound? || r.NotOpen? ==> s == at
      ensures !luck.database && e in at.db.dlq && at.db.dlq[e].status.Open? ==>
                && (r.RedriveFailed? <==> !luck.publish.Ok?)
                && (r.CommitError? <==> luck.publish.Ok? && !luck.commit.Ok?)
                && (r.RedriveDone? <==> luck.publish.Ok? && luck.commit.Ok?)
                && e in s.db.dlq
                && s.db.dlq[e] == (if !luck.publish.Ok? || luck.commit.Lost? then at.db.dlq[e]
                                   else at.db.dlq[e].(status := RedrivenDlq, redrivenAt := Some(at.db.clock)))
      ensures r.RedriveDone? ==>
                && |at.rs.stream| <= r.entry && IsFreshRedrive(s, r.entry, e)
                && Logged(s.db.history, |at.db.history|, r.entry, Redriven)
    {
      AwaitRedrive(e);
      at := s;
      if luck.database {
        return QueryFailed, at;
      }
      if e !in s.db.dlq {
        return NotFound, at;
      }
      if !s.db.dlq[e].status.Open? {
        return NotOpen, at;
      }
      var ok := PublishRedrive(e, luck.publish);
      if !ok {
        return RedriveFailed, at;
      }
      Others(AsOperator(e));
      r := CommitRedrive(e, luck.commit);
    }

    /** Lock the open record, then append its redrive entry. */
    method PublishRedrive(e: string, f: Fault) returns (ok: bool)
      requires Valid() && e !in s.ps.redrives && e in s.db.dlq && s.db.dlq[e].status.Open?
      modifies this
      ensures Valid() && Grows(old(s), s) && e in s.db.dlq && s.db.dlq[e] == old(s.db.dlq)[e]
      ensures ok <==> f.Ok?
      ensures ok <==> e in s.ps.redrives
      ensures ok ==> s.ps.redrives[e].RedriveAppended? && |old(s.rs.stream)| <= s.ps.redrives[e].entry
      ensures ok ==> s.ps.redrives[e].at == old(s.db.clock)
    {
      Effect(Operate(e, LockDlq(s.db.clock)));
      Others(AsOperator(e));
      RedriveRow(c, s, e);
      Effect(Operate(e, AppendRedrive(f)));
      ok := f == Ok;
    }

    /** The update, the REDRIVEN row and the commit, still under the row lock. */
    method CommitRedrive(e: string, f: Fault) returns (r: RedriveOutcome)
      requires Valid() && e in s.ps.redrives && s.ps.redrives[e].RedriveAppended?
      modifies this
      ensures Valid() && Grows(old(s), s) && e !in s.ps.redrives
      ensures r == if f.Ok? then RedriveDone(old(s.ps.redrives[e].entry)) else CommitError
      ensures e in old(s.db.dlq) && e in s.db.dlq
      ensures s.db.dlq[e] == (if f.Lost? then old(s.db.dlq)[e]
                              else old(s.db.dlq)[e].(status := RedrivenDlq,
                                                     redrivenAt := Some(old(s.ps.redrives[e].at))))
      ensures r.RedriveDone? ==>
                IsFreshRedrive(s, r.entry, e) && Logged(s.db.history, |old(s.db.history)|, r.entry, Redriven)
    {
      RedriveRow(c, s, e);
      RedriveSpeaks(c, s, e);
      ReachableFresh(c, s);
      var entry := s.ps.redrives[e].entry;
      ghost var k := |s.db.history|;
      Effect(Operate(e, RedriveAction.CommitRedrive(s.db.serial, f)));
      if f != Ok {
        return CommitError;
      }
      assert s.db.history[k].status == Redriven;
      r := RedriveDone(entry);
    }
  }
}
