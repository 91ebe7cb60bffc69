/** Without new input and without faults the system drains, however workers and pumps overlap:
    every step strictly lowers a sum of weights, and a state in which none can move holds nothing.
    A pending entry may be claimed by each worker that does not hold it, and a queued member may be
    fetched by each pump that does not hold it, so a retry multiplies by the size of the crew. */
module Drain {
  import opened Text
  import opened Delivery
  import opened Effects
  import opened Protocol
  import opened Safety
  import opened Sums
  import opened NoLoss

  /** The processes that take steps. */
  datatype Crew = Crew(workers: set<nat>, pumps: set<nat>)

  // ---- Weights ----------------------------------------------------------------------

  /** Retries a message has left. */
  function Left(c: Config, v: Values): nat {
    if 0 <= ParseRetry(v) <= c.maxRetries then c.maxRetries - ParseRetry(v) else 0
  }

  function LeftAt(c: Config, stream: seq<Values>, i: nat): nat {
    if i < |stream| then Left(c, stream[i]) else 0
  }

  /** A stream entry that nobody has read: every worker may come to hold it. */
  function Arrival(crew: Crew, left: nat): nat
    decreases left, 2
  {
    1 + |crew.workers| * Share(crew, left)
  }

  /** One worker's claim on a pending entry. */
  function Share(crew: Crew, left: nat): nat
    decreases left, 1
  {
    7 + Spawn(crew, left)
  }

  /** The retry that one call may schedule: every pump may republish it. */
  function Spawn(crew: Crew, left: nat): nat
    decreases left, 0
  {
    if left == 0 then 0 else |crew.pumps| * (Arrival(crew, left - 1) + 3)
  }

  function UnreadWeight(c: Config, crew: Crew, v: Values): nat {
    Arrival(crew, Left(c, v))
  }

  function ClaimWeight(c: Config, crew: Crew, stream: seq<Values>, i: nat): nat {
    Share(crew, LeftAt(c, stream, i))
  }

  function FetchedWeight(c: Config, crew: Crew, stream: seq<Values>, i: nat): nat {
    6 + Spawn(crew, LeftAt(c, stream, i))
  }

  function QueuedWeight(c: Config, crew: Crew, m: Values): nat {
    UnreadWeight(c, crew, m) + 3
  }

  function DueWeight(c: Config, crew: Crew, m: Values): nat {
    UnreadWeight(c, crew, m) + 2
  }

  function RowWeight(c: Config, crew: Crew): nat {
    Arrival(crew, c.maxRetries) + 3
  }

  function JobWeight(c: Config, crew: Crew, stream: seq<Values>, job: Job): nat {
    if job.NoJob? then 0
    else match job.phase
      case Took => 5 + Spawn(crew, LeftAt(c, stream, job.entry))
      case Recorded => 4 + Spawn(crew, LeftAt(c, stream, job.entry))
      case Broke(_) => 3 + Spawn(crew, LeftAt(c, stream, job.entry))
      case Succeeded(_) => 2
      case Scheduled(_) => 2
      case DlqWritten(_) => 2
      case Settled => 1
  }

  ghost function WorkerWeight(c: Config, crew: Crew, stream: seq<Values>, worker: Worker): nat {
    SumSeq(worker.todo, i => FetchedWeight(c, crew, stream, i)) + JobWeight(c, crew, stream, worker.job)
  }

  ghost function PumpWeight(c: Config, crew: Crew, pump: Pump): nat {
    SumSeq(pump.todo, m => DueWeight(c, crew, m)) + (if pump.removing.Some? then 1 else 0)
  }

  function PublisherWeight(c: Config, crew: Crew, pub: Publisher): nat {
    match pub
    case Claimed(_, _, _) => RowWeight(c, crew) - 1
    case Appended(_, _, _, _) => 1
    case PublishFailed(_, _) => RowWeight(c, crew) + 1
  }

  // ---- Holders ----------------------------------------------------------------------

  function HeldBy(worker: Worker): set<nat> {
    (set i | i in worker.todo) + (if worker.job.Job? then {worker.job.entry} else {})
  }

  function MembersOf(pump: Pump): set<Values> {
    (set m | m in pump.todo) + (if pump.removing.Some? then {pump.removing.value} else {})
  }

  function PumpOf(ps: Procs, k: nat): Pump {
    if k in ps.pumps then ps.pumps[k] else Pump([], None)
  }

  ghost function Unclaimed(outbox: map<string, OutboxRow>, publishers: map<nat, Publisher>): set<string> {
    set e | e in outbox && !outbox[e].published && !RowHeld(publishers, e)
  }

  // ---- The measure ------------------------------------------------------------------

  ghost function OutboxWork(c: Config, crew: Crew, outbox: map<string, OutboxRow>, pubs: map<nat, Publisher>): nat {
    SumSet(Unclaimed(outbox, pubs), e => RowWeight(c, crew)) + Total(pubs, pub => PublisherWeight(c, crew, pub))
  }

  ghost function UnreadWork(c: Config, crew: Crew, stream: seq<Values>, cursor: nat): nat {
    if cursor <= |stream| then SumSeq(stream[cursor..], v => UnreadWeight(c, crew, v)) else 0
  }

  /** What a worker holds, and what it may still claim. */
  ghost function WorkerTerm(c: Config, crew: Crew, stream: seq<Values>, pel: set<nat>, worker: Worker): nat {
    SumSet(pel - HeldBy(worker), i => ClaimWeight(c, crew, stream, i)) + WorkerWeight(c, crew, stream, worker)
  }

  ghost function WorkersWork(c: Config, crew: Crew, stream: seq<Values>, pel: set<nat>, ps: Procs): nat {
    SumSet(crew.workers, w => WorkerTerm(c, crew, stream, pel, WorkerOf(ps, w)))
  }

  /** What a pump holds, and what it may still fetch. */
  ghost function PumpTerm(c: Config, crew: Crew, zset: set<Values>, pump: Pump): nat {
    SumSet(zset - MembersOf(pump), m => QueuedWeight(c, crew, m)) + PumpWeight(c, crew, pump)
  }

  ghost function PumpsWork(c: Config, crew: Crew, zset: set<Values>, ps: Procs): nat {
    SumSet(crew.pumps, k => PumpTerm(c, crew, zset, PumpOf(ps, k)))
  }

  ghost function Remaining(c: Config, crew: Crew, s: State): nat {
    OutboxWork(c, crew, s.db.outbox, s.ps.publishers) + UnreadWork(c, crew, s.rs.stream, s.rs.cursor)
    + WorkersWork(c, crew, s.rs.stream, s.rs.pel, s.ps) + PumpsWork(c, crew, s.rs.zset, s.ps)
  }

  /** A step of the crew or of any publisher in which every effect is confirmed. What a worker
      reclaims or a pump fetches may be in the hands of others. */
  ghost predicate Healthy(crew: Crew, s: State, a: Action) {
    match a
    case World(world) => world.Tick?
    case Operate(_, _) => false
    case Publish(_, act) =>
      (match act
       case Claim(_, _) => true
       case AppendRoot(f) => f.Ok?
       case CommitPublished(_, f) => f.Ok?
       case CommitReschedule(f) => f.Ok?
       case CrashPublisher => false)
    case Work(w, act) =>
      w in crew.workers &&
      (match act
       case ReadGroup(_, f) => f.Ok?
       case AutoClaim(_) => true
       case Take => true
       case RecordProcessing(_, _, f) => f.Ok?
       case Deliver(_) => true
       case ScheduleRetry(f) => f.Ok?
       case WriteDlq(_, _, f) => f.Ok?
       case RecordOutcome(_, _, f) => f.Ok?
       case Ack(f) => f.Ok?
       case CrashWorker => false)
    case Pumping(k, act) =>
      k in crew.pumps &&
      (match act
       case FetchDue(_) => true
       case Republish(f) => f.Ok?
       case RemoveMember(f) => f.Ok?
       case CrashPump => k in s.ps.pumps && s.ps.pumps[k] == Pump([], None))
  }

  /** Time passes, a poll finds nothing, or a finished tick of a pump ends. */
  predicate Idle(a: Action) {
    || a.World?
    || (a.Work? && a.work.AutoClaim? && a.work.entries == [])
    || (a.Pumping? && (a.pumping.CrashPump? || (a.pumping.FetchDue? && a.pumping.members == [])))
  }

  /** The part of the invariant that the weights rest on. */
  ghost predicate Bounded(rs: Redis, workers: map<nat, Worker>) {
    && rs.cursor <= |rs.stream|
    && (forall i :: i in rs.pel ==> i < |rs.stream|)
    && (forall w :: w in workers ==> InGroup(|rs.stream|, workers[w]))
  }

  lemma InvBounded(c: Config, s: State)
    requires Inv(c, s)
    ensures Bounded(s.rs, s.ps.workers)
  {
    forall w | w in s.ps.workers ensures InGroup(|s.rs.stream|, s.ps.workers[w]) {
      assert InGroup(s.rs.handed, s.ps.workers[w]);
    }
  }

  // ---- Stream growth ----------------------------------------------------------------

  lemma UnreadAppend(c: Config, crew: Crew, rs: Redis, v: Values)
    requires rs.cursor <= |rs.stream|
    ensures UnreadWork(c, crew, rs.stream + [v], rs.cursor)
            == UnreadWork(c, crew, rs.stream, rs.cursor) + UnreadWeight(c, crew, v)
  {
    var f := u => UnreadWeight(c, crew, u);
    assert (rs.stream + [v])[rs.cursor..] == rs.stream[rs.cursor..] + [v];
    SumSeqConcat(rs.stream[rs.cursor..], [v], f);
    assert SumSeq([v], f) == f(v);
  }

  lemma WeightAppend(c: Config, crew: Crew, stream: seq<Values>, v: Values, worker: Worker)
    requires InGroup(|stream|, worker)
    ensures WorkerWeight(c, crew, stream + [v], worker) == WorkerWeight(c, crew, stream, worker)
  {
    SumSeqSame(worker.todo, i => FetchedWeight(c, crew, stream, i), i => FetchedWeight(c, crew, stream + [v], i));
  }

  lemma TermAppend(c: Config, crew: Crew, stream: seq<Values>, v: Values, pel: set<nat>, worker: Worker)
    requires InGroup(|stream|, worker) && forall i :: i in pel ==> i < |stream|
    ensures WorkerTerm(c, crew, stream + [v], pel, worker) == WorkerTerm(c, crew, stream, pel, worker)
  {
    WeightAppend(c, crew, stream, v, worker);
    SumSetSame(pel - HeldBy(worker), i => ClaimWeight(c, crew, stream, i), i => ClaimWeight(c, crew, stream + [v], i));
  }

  lemma WorkersAppend(c: Config, crew: Crew, s: State, v: Values)
    requires Bounded(s.rs, s.ps.workers)
    ensures WorkersWork(c, crew, s.rs.stream + [v], s.rs.pel, s.ps) == WorkersWork(c, crew, s.rs.stream, s.rs.pel, s.ps)
  {
    var stream := s.rs.stream;
    forall w | w in crew.workers
      ensures WorkerTerm(c, crew, stream + [v], s.rs.pel, WorkerOf(s.ps, w))
              == WorkerTerm(c, crew, stream, s.rs.pel, WorkerOf(s.ps, w)) {
      TermAppend(c, crew, stream, v, s.rs.pel, WorkerOf(s.ps, w));
    }
    SumSetSame(crew.workers, w => WorkerTerm(c, crew, stream, s.rs.pel, WorkerOf(s.ps, w)),
               w => WorkerTerm(c, crew, stream + [v], s.rs.pel, WorkerOf(s.ps, w)));
  }

  // ---- Publisher steps --------------------------------------------------------------

  lemma ClaimDrains(c: Config, crew: Crew, s: State, p: nat, e: string, at: nat)
    requires PublisherEnabled(s, p, Claim(e, at))
    ensures OutboxWork(c, crew, s.db.outbox, PublisherStep(c, s, p, Claim(e, at)).ps.publishers)
            < OutboxWork(c, crew, s.db.outbox, s.ps.publishers)
  {
    var s' := PublisherStep(c, s, p, Claim(e, at));
    var before := Unclaimed(s.db.outbox, s.ps.publishers);
    SumSetTake(before, e, d => RowWeight(c, crew));
    forall d ensures RowHeld(s'.ps.publishers, d) <==> d == e || RowHeld(s.ps.publishers, d) {
      if d == e {
        assert s'.ps.publishers[p].event == d;
      } else if q :| q in s.ps.publishers && s.ps.publishers[q].event == d {
        assert s'.ps.publishers[q].event == d;
      }
    }
    assert Unclaimed(s'.db.outbox, s'.ps.publishers) == before - {e};
    TotalPut(s.ps.publishers, p, Claimed(e, at, s.db.serial), pub => PublisherWeight(c, crew, pub));
    assert s.ps.publishers - {p} == s.ps.publishers;
  }

  lemma PublisherSwap(c: Config, crew: Crew, outbox: map<string, OutboxRow>, pubs: map<nat, Publisher>,
                      p: nat, pub: Publisher)
    requires p in pubs && pub.event == pubs[p].event
    ensures OutboxWork(c, crew, outbox, pubs[p := pub]) + PublisherWeight(c, crew, pubs[p])
            == OutboxWork(c, crew, outbox, pubs) + PublisherWeight(c, crew, pub)
  {
    var pubs' := pubs[p := pub];
    var W := x => PublisherWeight(c, crew, x);
    TotalTake(pubs, p, W);
    TotalPut(pubs, p, pub, W);
    forall d ensures RowHeld(pubs', d) <==> RowHeld(pubs, d) {
      if q :| q in pubs && pubs[q].event == d {
        assert pubs'[q].event == d;
      }
      if q :| q in pubs' && pubs'[q].event == d {
        assert pubs[q].event == d;
      }
    }
    assert Unclaimed(outbox, pubs') == Unclaimed(outbox, pubs);
  }

  lemma AppendRootDrains(c: Config, crew: Crew, s: State, p: nat)
    requires Bounded(s.rs, s.ps.workers) && PublisherEnabled(s, p, AppendRoot(Ok))
    ensures Remaining(c, crew, PublisherStep(c, s, p, AppendRoot(Ok))) < Remaining(c, crew, s)
  {
    var pub := s.ps.publishers[p];
    var v := RootValues(pub.event, s.db.events[pub.event], s.db.outbox[pub.event].outboxId);
    ZeroRetry(v);
    UnreadAppend(c, crew, s.rs, v);
    var ps' := PublisherStep(c, s, p, AppendRoot(Ok)).ps;
    WorkersAppend(c, crew, s, v);
    ProcsSame(c, crew, s.rs.stream + [v], s.rs.pel, s.rs.zset, s.ps, ps');
    PublisherSwap(c, crew, s.db.outbox, s.ps.publishers, p, Appended(pub.event, pub.at, pub.floor, |s.rs.stream|));
  }

  /** Only the workers and the pumps count in their sums. */
  lemma ProcsSame(c: Config, crew: Crew, stream: seq<Values>, pel: set<nat>, zset: set<Values>, ps: Procs, ps': Procs)
    ensures ps'.workers == ps.workers ==>
              WorkersWork(c, crew, stream, pel, ps') == WorkersWork(c, crew, stream, pel, ps)
    ensures ps'.pumps == ps.pumps ==> PumpsWork(c, crew, zset, ps') == PumpsWork(c, crew, zset, ps)
  {
    if ps'.workers == ps.workers {
      SumSetSame(crew.workers, w => WorkerTerm(c, crew, stream, pel, WorkerOf(ps', w)),
                 w => WorkerTerm(c, crew, stream, pel, WorkerOf(ps, w)));
    }
    if ps'.pumps == ps.pumps {
      SumSetSame(crew.pumps, k => PumpTerm(c, crew, zset, PumpOf(ps', k)), k => PumpTerm(c, crew, zset, PumpOf(ps, k)));
    }
  }

  lemma UnclaimedAfter(s: State, p: nat, row: OutboxRow)
    requires OutboxOk(s.db.outbox, s.rs.stream, s.ps.publishers) && p in s.ps.publishers
    ensures var e := s.ps.publishers[p].event;
            var before := Unclaimed(s.db.outbox, s.ps.publishers);
            Unclaimed(s.db.outbox[e := row], s.ps.publishers - {p}) == (if row.published then before else before + {e})
  {
    var e := s.ps.publishers[p].event;
    var rest := s.ps.publishers - {p};
    assert PublisherOk(s.db.outbox, s.rs.stream, s.ps.publishers[p]);
    forall d ensures RowHeld(rest, d) <==> d != e && RowHeld(s.ps.publishers, d) {
      if d != e {
        if q :| q in s.ps.publishers && s.ps.publishers[q].event == d {
          assert rest[q].event == d;
        }
      }
    }
  }

  /** A publisher that leaves with its row published, or with its row free again. */
  lemma LeaveDrains(c: Config, crew: Crew, s: State, p: nat, row: OutboxRow)
    requires OutboxOk(s.db.outbox, s.rs.stream, s.ps.publishers) && p in s.ps.publishers
    requires !row.published ==> s.ps.publishers[p].PublishFailed?
    ensures var e := s.ps.publishers[p].event;
            OutboxWork(c, crew, s.db.outbox[e := row], s.ps.publishers - {p})
            < OutboxWork(c, crew, s.db.outbox, s.ps.publishers)
  {
    TotalTake(s.ps.publishers, p, pub => PublisherWeight(c, crew, pub));
    UnclaimedAfter(s, p, row);
    SumSetPut(Unclaimed(s.db.outbox, s.ps.publishers), s.ps.publishers[p].event, d => RowWeight(c, crew));
  }

  lemma PublisherDrains(c: Config, crew: Crew, s: State, p: nat, act: PublisherAction)
    requires Bounded(s.rs, s.ps.workers) && OutboxOk(s.db.outbox, s.rs.stream, s.ps.publishers)
    requires PublisherEnabled(s, p, act) && Healthy(crew, s, Publish(p, act))
    ensures Remaining(c, crew, PublisherStep(c, s, p, act)) < Remaining(c, crew, s)
  {
    if act.AppendRoot? {
      AppendRootDrains(c, crew, s, p);
    } else {
      ProcsSame(c, crew, s.rs.stream, s.rs.pel, s.rs.zset, s.ps, PublisherStep(c, s, p, act).ps);
      match act {
        case Claim(e, at) => ClaimDrains(c, crew, s, p, e, at);
        case CommitPublished(_, _) =>
          LeaveDrains(c, crew, s, p, s.db.outbox[s.ps.publishers[p].event].(published := true));
        case CommitReschedule(_) =>
          var pub := s.ps.publishers[p];
          LeaveDrains(c, crew, s, p, Rescheduled(c, s.db.outbox[pub.event], pub.at));
      }
    }
  }

  // ---- Pump steps -------------------------------------------------------------------

  /** One pump changes, and the queue loses members or stays. */
  lemma PumpSwap(c: Config, crew: Crew, zset: set<Values>, zset': set<Values>, ps: Procs, ps': Procs, k: nat)
    requires k in crew.pumps && zset' <= zset && forall j :: j != k ==> PumpOf(ps', j) == PumpOf(ps, j)
    ensures PumpsWork(c, crew, zset', ps') + PumpTerm(c, crew, zset, PumpOf(ps, k))
            <= PumpsWork(c, crew, zset, ps) + PumpTerm(c, crew, zset', PumpOf(ps', k))
  {
    forall j | j in crew.pumps && j != k
      ensures PumpTerm(c, crew, zset', PumpOf(ps', j)) <= PumpTerm(c, crew, zset, PumpOf(ps, j)) {
      var held := MembersOf(PumpOf(ps, j));
      SumSetMonotone(zset' - held, zset - held, m => QueuedWeight(c, crew, m));
    }
    SumSetAt(crew.pumps, k, j => PumpTerm(c, crew, zset, PumpOf(ps, j)), j => PumpTerm(c, crew, zset', PumpOf(ps', j)));
  }

  lemma RepublishTerm(c: Config, crew: Crew, zset: set<Values>, pump: Pump)
    requires pump.todo != [] && pump.removing.None?
    ensures PumpTerm(c, crew, zset, Pump(pump.todo[1..], Some(pump.todo[0]))) + UnreadWeight(c, crew, pump.todo[0]) + 1
            == PumpTerm(c, crew, zset, pump)
  {
    assert pump.todo == [pump.todo[0]] + pump.todo[1..];
    assert MembersOf(Pump(pump.todo[1..], Some(pump.todo[0]))) == MembersOf(pump);
  }

  lemma RepublishDrains(c: Config, crew: Crew, s: State, k: nat)
    requires Bounded(s.rs, s.ps.workers) && PumpEnabled(s, k, Republish(Ok)) && k in crew.pumps
    ensures Remaining(c, crew, PumpStep(s, k, Republish(Ok))) < Remaining(c, crew, s)
  {
    var m := s.ps.pumps[k].todo[0];
    var ps' := PumpStep(s, k, Republish(Ok)).ps;
    UnreadAppend(c, crew, s.rs, m);
    WorkersAppend(c, crew, s, m);
    ProcsSame(c, crew, s.rs.stream + [m], s.rs.pel, s.rs.zset, s.ps, ps');
    RepublishTerm(c, crew, s.rs.zset, s.ps.pumps[k]);
    PumpSwap(c, crew, s.rs.zset, s.rs.zset, s.ps, ps', k);
  }

  lemma RemoveTerm(c: Config, crew: Crew, zset: set<Values>, pump: Pump)
    requires pump.removing.Some?
    ensures PumpTerm(c, crew, zset - {pump.removing.value}, pump.(removing := None)) < PumpTerm(c, crew, zset, pump)
  {
    SumSetMonotone(zset - {pump.removing.value} - MembersOf(pump.(removing := None)), zset - MembersOf(pump),
                   m => QueuedWeight(c, crew, m));
  }

  lemma {:induction false} DueBelowQueued(c: Config, crew: Crew, members: seq<Values>)
    ensures SumSeq(members, m => DueWeight(c, crew, m)) + |members| == SumSeq(members, m => QueuedWeight(c, crew, m))
    decreases |members|
  {
    if members != [] {
      DueBelowQueued(c, crew, members[1..]);
    }
  }

  lemma FetchTerm(c: Config, crew: Crew, zset: set<Values>, members: seq<Values>)
    requires Distinct(members) && forall i :: 0 <= i < |members| ==> members[i] in zset
    ensures PumpTerm(c, crew, zset, Pump(members, None)) + |members| == PumpTerm(c, crew, zset, Pump([], None))
  {
    SumSetTakeAll(zset, members, m => QueuedWeight(c, crew, m));
    DueBelowQueued(c, crew, members);
    assert MembersOf(Pump(members, None)) == set m | m in members;
    assert zset - MembersOf(Pump([], None)) == zset;
  }

  lemma PumpDrains(c: Config, crew: Crew, s: State, k: nat, act: PumpAction)
    requires Bounded(s.rs, s.ps.workers) && PumpEnabled(s, k, act) && Healthy(crew, s, Pumping(k, act))
    ensures Remaining(c, crew, PumpStep(s, k, act)) <= Remaining(c, crew, s)
    ensures !Idle(Pumping(k, act)) ==> Remaining(c, crew, PumpStep(s, k, act)) < Remaining(c, crew, s)
  {
    if act.Republish? {
      RepublishDrains(c, crew, s, k);
    } else {
      var s' := PumpStep(s, k, act);
      ProcsSame(c, crew, s.rs.stream, s.rs.pel, s.rs.zset, s.ps, s'.ps);
      PumpSwap(c, crew, s.rs.zset, s'.rs.zset, s.ps, s'.ps, k);
      match act {
        case FetchDue(members) => FetchTerm(c, crew, s.rs.zset, members);
        case RemoveMember(_) => RemoveTerm(c, crew, s.rs.zset, s.ps.pumps[k]);
        case CrashPump =>
      }
    }
  }

  // ---- Worker steps -----------------------------------------------------------------

  lemma ReadyTerm(c: Config, crew: Crew, stream: seq<Values>, pel: set<nat>, pel': set<nat>, worker: Worker)
    requires pel' <= pel
    ensures WorkerTerm(c, crew, stream, pel', worker) <= WorkerTerm(c, crew, stream, pel, worker)
  {
    SumSetMonotone(pel' - HeldBy(worker), pel - HeldBy(worker), i => ClaimWeight(c, crew, stream, i));
  }

  /** One worker changes, and the pending list loses entries or stays. */
  lemma WorkerSwap(c: Config, crew: Crew, stream: seq<Values>, pel: set<nat>, pel': set<nat>,
                   ps: Procs, ps': Procs, w: nat)
    requires w in crew.workers && pel' <= pel && forall v :: v != w ==> WorkerOf(ps', v) == WorkerOf(ps, v)
    ensures WorkersWork(c, crew, stream, pel', ps') + WorkerTerm(c, crew, stream, pel, WorkerOf(ps, w))
            <= WorkersWork(c, crew, stream, pel, ps) + WorkerTerm(c, crew, stream, pel', WorkerOf(ps', w))
  {
    forall v | v in crew.workers && v != w
      ensures WorkerTerm(c, crew, stream, pel', WorkerOf(ps', v)) <= WorkerTerm(c, crew, stream, pel, WorkerOf(ps, v)) {
      ReadyTerm(c, crew, stream, pel, pel', WorkerOf(ps, v));
    }
    SumSetAt(crew.workers, w, v => WorkerTerm(c, crew, stream, pel, WorkerOf(ps, v)),
             v => WorkerTerm(c, crew, stream, pel', WorkerOf(ps', v)));
  }

  lemma HeadWeight(c: Config, crew: Crew, stream: seq<Values>, todo: seq<nat>)
    requires todo != []
    ensures SumSeq(todo, i => FetchedWeight(c, crew, stream, i))
            == FetchedWeight(c, crew, stream, todo[0]) + SumSeq(todo[1..], i => FetchedWeight(c, crew, stream, i))
    ensures (set i | i in todo) == (set i | i in todo[1..]) + {todo[0]}
  {
    assert todo == [todo[0]] + todo[1..];
  }

  predicate InCall(act: WorkerAction) {
    act.Take? || act.RecordProcessing? || act.Deliver? || act.WriteDlq? || act.RecordOutcome?
  }

  /** Steps inside a call: the weight of the job goes down, and nothing is let go. */
  lemma JobStepLowers(c: Config, crew: Crew, s: State, w: nat, act: WorkerAction)
    requires WorkerEnabled(c, s, w, act) && Healthy(crew, s, Action.Work(w, act)) && InCall(act)
    ensures WorkerWeight(c, crew, s.rs.stream, WorkerLocal(c, s, w, act))
            < WorkerWeight(c, crew, s.rs.stream, WorkerOf(s.ps, w))
    ensures HeldBy(WorkerLocal(c, s, w, act)) == HeldBy(WorkerOf(s.ps, w))
  {
    if act.Take? {
      HeadWeight(c, crew, s.rs.stream, WorkerOf(s.ps, w).todo);
    }
  }

  /** What a worker's step leaves alone. */
  lemma WorkerFrame(c: Config, s: State, w: nat, act: WorkerAction)
    requires WorkerEnabled(c, s, w, act)
    ensures var s' := WorkerStep(c, s, w, act);
            && s'.db.outbox == s.db.outbox && s'.rs.stream == s.rs.stream
            && s'.ps.publishers == s.ps.publishers && s'.ps.pumps == s.ps.pumps
            && WorkerOf(s'.ps, w) == WorkerLocal(c, s, w, act)
            && forall v :: v != w ==> WorkerOf(s'.ps, v) == WorkerOf(s.ps, v)
    ensures !act.ReadGroup? ==> WorkerStep(c, s, w, act).rs.cursor == s.rs.cursor
    ensures !act.ReadGroup? && !act.Ack? ==> WorkerStep(c, s, w, act).rs.pel == s.rs.pel
    ensures !act.ScheduleRetry? ==> WorkerStep(c, s, w, act).rs.zset == s.rs.zset
  {
  }

  lemma CallDrains(c: Config, crew: Crew, s: State, w: nat, act: WorkerAction)
    requires WorkerEnabled(c, s, w, act) && Healthy(crew, s, Action.Work(w, act)) && InCall(act)
    ensures Remaining(c, crew, WorkerStep(c, s, w, act)) < Remaining(c, crew, s)
  {
    var ps' := WorkerStep(c, s, w, act).ps;
    WorkerFrame(c, s, w, act);
    JobStepLowers(c, crew, s, w, act);
    WorkerSwap(c, crew, s.rs.stream, s.rs.pel, s.rs.pel, s.ps, ps', w);
    ProcsSame(c, crew, s.rs.stream, s.rs.pel, s.rs.zset, s.ps, ps');
  }

  lemma AckTerm(c: Config, crew: Crew, stream: seq<Values>, pel: set<nat>, worker: Worker)
    requires worker.job.Job? && worker.job.phase.Settled?
    ensures WorkerTerm(c, crew, stream, pel - {worker.job.entry}, worker.(job := NoJob))
            < WorkerTerm(c, crew, stream, pel, worker)
  {
    SumSetMonotone(pel - {worker.job.entry} - HeldBy(worker.(job := NoJob)), pel - HeldBy(worker),
                   i => ClaimWeight(c, crew, stream, i));
  }

  lemma AckDrains(c: Config, crew: Crew, s: State, w: nat)
    requires WorkerEnabled(c, s, w, Ack(Ok)) && w in crew.workers
    ensures Remaining(c, crew, WorkerStep(c, s, w, Ack(Ok))) < Remaining(c, crew, s)
  {
    var s' := WorkerStep(c, s, w, Ack(Ok));
    WorkerFrame(c, s, w, Ack(Ok));
    AckTerm(c, crew, s.rs.stream, s.rs.pel, WorkerOf(s.ps, w));
    WorkerSwap(c, crew, s.rs.stream, s.rs.pel, s'.rs.pel, s.ps, s'.ps, w);
    ProcsSame(c, crew, s.rs.stream, s.rs.pel, s.rs.zset, s.ps, s'.ps);
  }

  /** A member queued anew may be fetched by every pump. */
  lemma QueuePut(c: Config, crew: Crew, zset: set<Values>, ps: Procs, member: Values)
    ensures PumpsWork(c, crew, zset + {member}, ps)
            <= PumpsWork(c, crew, zset, ps) + |crew.pumps| * QueuedWeight(c, crew, member)
  {
    var f := m => QueuedWeight(c, crew, m);
    forall k | k in crew.pumps
      ensures PumpTerm(c, crew, zset + {member}, PumpOf(ps, k))
              <= PumpTerm(c, crew, zset, PumpOf(ps, k)) + QueuedWeight(c, crew, member) {
      var held := MembersOf(PumpOf(ps, k));
      SumSetMonotone(zset + {member} - held, zset - held + {member}, f);
      SumSetPut(zset - held, member, f);
    }
    SumSetBump(crew.pumps, k => PumpTerm(c, crew, zset, PumpOf(ps, k)),
               k => PumpTerm(c, crew, zset + {member}, PumpOf(ps, k)), QueuedWeight(c, crew, member));
  }

  lemma RetryReadsBack(v: Values, i: nat, retry: int)
    requires -INT64_LIMIT <= retry < INT64_LIMIT
    ensures ParseRetry(WithRetry(v, i, retry)) == retry
  {
    AtoiItoa(retry);
    assert WithRetry(v, i, retry)[RetryCount] == Itoa(retry);
  }

  /** Scheduling spends one of the retries left. */
  lemma MemberLeft(c: Config, stream: seq<Values>, i: nat)
    requires ValidConfig(c) && i < |stream| && 0 <= ParseRetry(stream[i]) < c.maxRetries
    ensures LeftAt(c, stream, i) >= 1 && Left(c, MemberOf(stream, i)) == LeftAt(c, stream, i) - 1
  {
    RetryReadsBack(stream[i], i, ParseRetry(stream[i]) + 1);
  }

  lemma MemberWeight(c: Config, crew: Crew, stream: seq<Values>, i: nat, m: Values)
    requires LeftAt(c, stream, i) >= 1 && Left(c, m) == LeftAt(c, stream, i) - 1
    ensures |crew.pumps| * QueuedWeight(c, crew, m) == Spawn(crew, LeftAt(c, stream, i))
  {
  }

  lemma ScheduledTerm(c: Config, crew: Crew, stream: seq<Values>, pel: set<nat>, worker: Worker, msg: Values)
    requires worker.job.Job? && worker.job.phase.Broke?
    ensures var worker' := worker.(job := worker.job.(phase := Scheduled(worker.job.phase.failure), msg := msg));
            WorkerTerm(c, crew, stream, pel, worker') + 1 + Spawn(crew, LeftAt(c, stream, worker.job.entry))
            == WorkerTerm(c, crew, stream, pel, worker)
  {
    var worker' := worker.(job := worker.job.(phase := Scheduled(worker.job.phase.failure), msg := msg));
    assert HeldBy(worker') == HeldBy(worker);
  }

  lemma ScheduleDrains(c: Config, crew: Crew, s: State, w: nat)
    requires ValidConfig(c) && WorkerEnabled(c, s, w, ScheduleRetry(Ok)) && w in crew.workers
    requires JobOk(s.rs.stream, s.rs.zset, s.db.history, JobOf(s.ps, w)) && 0 <= JobOf(s.ps, w).retry
    ensures Remaining(c, crew, WorkerStep(c, s, w, ScheduleRetry(Ok))) < Remaining(c, crew, s)
  {
    var job := JobOf(s.ps, w);
    var s' := WorkerStep(c, s, w, ScheduleRetry(Ok));
    var member := MemberOf(s.rs.stream, job.entry);
    assert member == WithRetry(job.msg, job.entry, job.retry + 1);
    WorkerFrame(c, s, w, ScheduleRetry(Ok));
    MemberLeft(c, s.rs.stream, job.entry);
    MemberWeight(c, crew, s.rs.stream, job.entry, member);
    ScheduledTerm(c, crew, s.rs.stream, s.rs.pel, WorkerOf(s.ps, w), member);
    WorkerSwap(c, crew, s.rs.stream, s.rs.pel, s.rs.pel, s.ps, s'.ps, w);
    QueuePut(c, crew, s.rs.zset, s.ps, member);
    ProcsSame(c, crew, s.rs.stream, s.rs.pel, s'.rs.zset, s.ps, s'.ps);
  }

  lemma {:induction false} FetchedBelowClaim(c: Config, crew: Crew, stream: seq<Values>, entries: seq<nat>)
    ensures SumSeq(entries, i => FetchedWeight(c, crew, stream, i)) + |entries|
            == SumSeq(entries, i => ClaimWeight(c, crew, stream, i))
    decreases |entries|
  {
    if entries != [] {
      FetchedBelowClaim(c, crew, stream, entries[1..]);
    }
  }

  lemma ClaimTerm(c: Config, crew: Crew, stream: seq<Values>, pel: set<nat>, entries: seq<nat>)
    requires Distinct(entries) && forall k :: 0 <= k < |entries| ==> entries[k] in pel
    ensures WorkerTerm(c, crew, stream, pel, Worker(entries, NoJob)) + |entries|
            == WorkerTerm(c, crew, stream, pel, Worker([], NoJob))
  {
    SumSetWithout(pel, entries, pel - HeldBy(Worker(entries, NoJob)), i => ClaimWeight(c, crew, stream, i));
    FetchedBelowClaim(c, crew, stream, entries);
    assert pel - HeldBy(Worker([], NoJob)) == pel;
  }

  lemma ReclaimDrains(c: Config, crew: Crew, s: State, w: nat, entries: seq<nat>)
    requires WorkerEnabled(c, s, w, AutoClaim(entries)) && w in crew.workers
    ensures Remaining(c, crew, WorkerStep(c, s, w, AutoClaim(entries))) + |entries| <= Remaining(c, crew, s)
  {
    var s' := WorkerStep(c, s, w, AutoClaim(entries));
    WorkerFrame(c, s, w, AutoClaim(entries));
    ClaimTerm(c, crew, s.rs.stream, s.rs.pel, entries);
    WorkerSwap(c, crew, s.rs.stream, s.rs.pel, s.rs.pel, s.ps, s'.ps, w);
    ProcsSame(c, crew, s.rs.stream, s.rs.pel, s.rs.zset, s.ps, s'.ps);
  }

  ghost function ClaimSum(c: Config, crew: Crew, stream: seq<Values>, read: seq<nat>): nat {
    SumSeq(read, i => ClaimWeight(c, crew, stream, i))
  }

  lemma {:induction false} ReadWeights(c: Config, crew: Crew, stream: seq<Values>, from: nat, n: nat)
    requires from + n <= |stream|
    ensures |crew.workers| * ClaimSum(c, crew, stream, Range(from, n)) + n
            == SumSeq(stream[from..from + n], v => UnreadWeight(c, crew, v))
    decreases n
  {
    if n > 0 {
      ReadWeights(c, crew, stream, from + 1, n - 1);
      assert Range(from, n)[1..] == Range(from + 1, n - 1);
      assert stream[from..from + n][1..] == stream[from + 1..from + n];
      Distribute(|crew.workers|, ClaimWeight(c, crew, stream, from), ClaimSum(c, crew, stream, Range(from + 1, n - 1)));
    }
  }

  /** What the entries that a read hands out weighed before. */
  lemma ReadUnread(c: Config, crew: Crew, stream: seq<Values>, from: nat, n: nat) returns (rise: nat)
    requires from + n <= |stream|
    ensures rise == |crew.workers| * ClaimSum(c, crew, stream, Range(from, n))
    ensures UnreadWork(c, crew, stream, from) == UnreadWork(c, crew, stream, from + n) + n + rise
  {
    rise := |crew.workers| * ClaimSum(c, crew, stream, Range(from, n));
    ReadWeights(c, crew, stream, from, n);
    assert stream[from..] == stream[from..from + n] + stream[from + n..];
    SumSeqConcat(stream[from..from + n], stream[from + n..], v => UnreadWeight(c, crew, v));
  }

  /** Entries handed out become claimable for every worker. */
  lemma ReadTerm(c: Config, crew: Crew, stream: seq<Values>, pel: set<nat>, read: seq<nat>, worker: Worker)
    ensures WorkerTerm(c, crew, stream, pel + (set i | i in read), worker)
            <= WorkerTerm(c, crew, stream, pel, worker) + ClaimSum(c, crew, stream, read)
    ensures WorkerTerm(c, crew, stream, pel + (set i | i in read), Worker(read, NoJob))
            <= WorkerTerm(c, crew, stream, pel, Worker([], NoJob)) + ClaimSum(c, crew, stream, read)
  {
    var f := i => ClaimWeight(c, crew, stream, i);
    var handed := set i | i in read;
    var held := HeldBy(worker);
    SumSetPutAll(pel - held, read, f);
    SumSetMonotone(pel + handed - held, pel - held + handed, f);
    assert HeldBy(Worker(read, NoJob)) == handed && HeldBy(Worker([], NoJob)) == {};
    SumSetMonotone(pel + handed - handed, pel - {}, f);
    FetchedBelowClaim(c, crew, stream, read);
  }

  lemma ReadWorkers(c: Config, crew: Crew, stream: seq<Values>, pel: set<nat>, ps: Procs, ps': Procs,
                    w: nat, read: seq<nat>)
    requires WorkerOf(ps, w) == Worker([], NoJob) && WorkerOf(ps', w) == Worker(read, NoJob)
    requires forall v :: v != w ==> WorkerOf(ps', v) == WorkerOf(ps, v)
    ensures WorkersWork(c, crew, stream, pel + (set i | i in read), ps')
            <= WorkersWork(c, crew, stream, pel, ps) + |crew.workers| * ClaimSum(c, crew, stream, read)
  {
    var pel' := pel + set i | i in read;
    forall v | v in crew.workers
      ensures WorkerTerm(c, crew, stream, pel', WorkerOf(ps', v))
              <= WorkerTerm(c, crew, stream, pel, WorkerOf(ps, v)) + ClaimSum(c, crew, stream, read) {
      ReadTerm(c, crew, stream, pel, read, WorkerOf(ps, v));
    }
    SumSetBump(crew.workers, v => WorkerTerm(c, crew, stream, pel, WorkerOf(ps, v)),
               v => WorkerTerm(c, crew, stream, pel', WorkerOf(ps', v)), ClaimSum(c, crew, stream, read));
  }

  lemma ReadStores(c: Config, s: State, w: nat, n: nat)
    requires WorkerEnabled(c, s, w, ReadGroup(n, Ok))
    ensures var s' := WorkerStep(c, s, w, ReadGroup(n, Ok));
            && s'.rs.pel == s.rs.pel + (set i | i in Range(s.rs.cursor, n)) && s'.rs.cursor == s.rs.cursor + n
            && WorkerOf(s.ps, w) == Worker([], NoJob) && WorkerOf(s'.ps, w) == Worker(Range(s.rs.cursor, n), NoJob)
            && s.rs.cursor + n <= |s.rs.stream| && n >= 1
  {
  }

  /** Reading trades the weight of unread entries for less than that in claims. */
  lemma ReadTrade(c: Config, crew: Crew, stream: seq<Values>, pel: set<nat>, ps: Procs, ps': Procs,
                  w: nat, from: nat, n: nat)
    requires from + n <= |stream|
    requires WorkerOf(ps, w) == Worker([], NoJob) && WorkerOf(ps', w) == Worker(Range(from, n), NoJob)
    requires forall v :: v != w ==> WorkerOf(ps', v) == WorkerOf(ps, v)
    ensures UnreadWork(c, crew, stream, from + n)
              + WorkersWork(c, crew, stream, pel + (set i | i in Range(from, n)), ps') + n
            <= UnreadWork(c, crew, stream, from) + WorkersWork(c, crew, stream, pel, ps)
  {
    var rise := ReadUnread(c, crew, stream, from, n);
    ReadWorkers(c, crew, stream, pel, ps, ps', w, Range(from, n));
  }

  lemma ReadDrains(c: Config, crew: Crew, s: State, w: nat, n: nat)
    requires WorkerEnabled(c, s, w, ReadGroup(n, Ok))
    ensures Remaining(c, crew, WorkerStep(c, s, w, ReadGroup(n, Ok))) < Remaining(c, crew, s)
  {
    var s' := WorkerStep(c, s, w, ReadGroup(n, Ok));
    WorkerFrame(c, s, w, ReadGroup(n, Ok));
    ReadStores(c, s, w, n);
    ReadTrade(c, crew, s.rs.stream, s.rs.pel, s.ps, s'.ps, w, s.rs.cursor, n);
    ProcsSame(c, crew, s.rs.stream, s.rs.pel, s.rs.zset, s.ps, s'.ps);
  }

  lemma WorkerDrains(c: Config, crew: Crew, s: State, w: nat, act: WorkerAction)
    requires ValidConfig(c) && WorkerEnabled(c, s, w, act) && Healthy(crew, s, Action.Work(w, act))
    requires JobOk(s.rs.stream, s.rs.zset, s.db.history, JobOf(s.ps, w))
    requires JobOf(s.ps, w).Job? ==> 0 <= JobOf(s.ps, w).retry
    ensures Remaining(c, crew, WorkerStep(c, s, w, act)) <= Remaining(c, crew, s)
    ensures !Idle(Action.Work(w, act)) ==> Remaining(c, crew, WorkerStep(c, s, w, act)) < Remaining(c, crew, s)
  {
    if InCall(act) {
      CallDrains(c, crew, s, w, act);
    } else {
      match act {
        case ReadGroup(n, _) => ReadDrains(c, crew, s, w, n);
        case AutoClaim(entries) => ReclaimDrains(c, crew, s, w, entries);
        case ScheduleRetry(_) => ScheduleDrains(c, crew, s, w);
        case Ack(_) => AckDrains(c, crew, s, w);
      }
    }
  }

  // ---- Results ----------------------------------------------------------------------

  /** No fault-free step raises the measure, and every step but an idle one lowers it, whatever
      other workers and pumps hold at the same time. */
  lemma DrainStepLowers(c: Config, crew: Crew, s: State, a: Action)
    requires ValidConfig(c) && Inv(c, s) && Enabled(c, s, a) && Healthy(crew, s, a)
    ensures Remaining(c, crew, Apply(c, s, a)) <= Remaining(c, crew, s)
    ensures !Idle(a) ==> Remaining(c, crew, Apply(c, s, a)) < Remaining(c, crew, s)
  {
    InvBounded(c, s);
    match a {
      case World(_) =>
      case Publish(p, act) => PublisherDrains(c, crew, s, p, act);
      case Work(w, act) =>
        WorkerFacts(c, s, w);
        if JobOf(s.ps, w).Job? {
          JobEvent(c, s, JobOf(s.ps, w));
        }
        WorkerDrains(c, crew, s, w, act);
      case Pumping(k, act) => PumpDrains(c, crew, s, k, act);
    }
  }

  /** A schedule without faults and without new input. */
  ghost predicate DrainRun(c: Config, crew: Crew, s: State, acts: seq<Action>, s': State)
    decreases |acts|
  {
    if acts == [] then s' == s
    else
      && Enabled(c, s, acts[0]) && Healthy(crew, s, acts[0])
      && DrainRun(c, crew, Apply(c, s, acts[0]), acts[1..], s')
  }

  function StepsIn(acts: seq<Action>): nat {
    if acts == [] then 0 else (if Idle(acts[0]) then 0 else 1) + StepsIn(acts[1..])
  }

  /** Drain terminates: no schedule contains more steps than the measure allows. */
  lemma {:induction false} DrainBounded(c: Config, crew: Crew, s: State, acts: seq<Action>, s': State)
    requires ValidConfig(c) && Inv(c, s) && DrainRun(c, crew, s, acts, s')
    ensures Inv(c, s') && StepsIn(acts) + Remaining(c, crew, s') <= Remaining(c, crew, s)
    decreases |acts|
  {
    if acts != [] {
      StepKeeps(c, s, acts[0]);
      DrainStepLowers(c, crew, s, acts[0]);
      DrainBounded(c, crew, Apply(c, s, acts[0]), acts[1..], s');
    }
  }

  // ---- Someone can always move ------------------------------------------------------

  /** Nothing pending, unread, unacknowledged, queued or in memory. */
  ghost predicate Quiet(s: State) {
    && s.ps.publishers == map[] && s.ps.pumps == map[]
    && (forall w :: w in s.ps.workers ==> s.ps.workers[w] == Worker([], NoJob))
    && (forall e :: e in s.db.outbox ==> s.db.outbox[e].published)
    && s.rs.cursor == |s.rs.stream| && s.rs.pel == {} && s.rs.zset == {}
  }

  /** The crew is not empty, and nobody else holds anything. */
  ghost predicate Manned(crew: Crew, ps: Procs) {
    && crew.workers != {} && crew.pumps != {} && ps.pumps.Keys <= crew.pumps
    && (forall w :: w in ps.workers && w !in crew.workers ==> ps.workers[w] == Worker([], NoJob))
  }

  function At(s: State, t: nat): State {
    s.(db := s.db.(clock := t))
  }

  ghost predicate CanMove(c: Config, crew: Crew, s: State, t: nat, a: Action) {
    && t > s.db.clock && Enabled(c, At(s, t), a) && Healthy(crew, At(s, t), a)
    && (Idle(a) ==> a.Pumping? && a.pumping.CrashPump?)
  }

  lemma FreshSerial(c: Config, s: State, id: nat)
    requires RowsOk(s.db, s.rs.stream, s.rs.zset) && id >= s.db.serial
    ensures FreshRowId(s.db, id)
  {
    forall k | 0 <= k < |s.db.history| ensures s.db.history[k].id != id {
      assert RowOk(s.db, s.rs.stream, s.rs.zset, s.db.history[k]);
    }
  }

  lemma CommitMove(c: Config, crew: Crew, s: State, p: nat) returns (a: Action)
    requires RowsOk(s.db, s.rs.stream, s.rs.zset) && Publishing(s, p) && s.ps.publishers[p].Appended?
    ensures CanMove(c, crew, s, s.db.clock + 1, a)
  {
    var id := Max(s.db.serial, s.ps.publishers[p].floor);
    FreshSerial(c, s, id);
    a := Publish(p, CommitPublished(id, Ok));
  }

  lemma PublisherMove(c: Config, crew: Crew, s: State, p: nat) returns (t: nat, a: Action)
    requires IdsOk(s.db) && RowsOk(s.db, s.rs.stream, s.rs.zset)
    requires OutboxOk(s.db.outbox, s.rs.stream, s.ps.publishers) && p in s.ps.publishers
    ensures CanMove(c, crew, s, t, a)
  {
    t := s.db.clock + 1;
    assert PublisherOk(s.db.outbox, s.rs.stream, s.ps.publishers[p]);
    match s.ps.publishers[p] {
      case Claimed(_, _, _) => a := Publish(p, AppendRoot(Ok));
      case Appended(_, _, _, _) => a := CommitMove(c, crew, s, p);
      case PublishFailed(_, _) => a := Publish(p, CommitReschedule(Ok));
    }
  }

  lemma ClaimMove(c: Config, crew: Crew, s: State, e: string) returns (t: nat, a: Action)
    requires IdsOk(s.db) && s.ps.publishers == map[] && e in s.db.outbox && !s.db.outbox[e].published
    ensures CanMove(c, crew, s, t, a)
  {
    t := Max(s.db.clock, s.db.outbox[e].nextAttemptAt) + 1;
    a := Publish(0, Claim(e, t));
  }

  lemma JobMove(c: Config, crew: Crew, s: State, w: nat) returns (t: nat, a: Action)
    requires RowsOk(s.db, s.rs.stream, s.rs.zset) && JobOf(s.ps, w).Job? && s.ps.redrives == map[] && w in crew.workers
    ensures CanMove(c, crew, s, t, a)
  {
    var job := JobOf(s.ps, w);
    t := Max(s.db.clock, job.since) + 1;
    FreshSerial(c, s, s.db.serial);
    match job.phase {
      case Took => a := Action.Work(w, RecordProcessing(s.db.serial, t, Ok));
      case Recorded => a := Action.Work(w, Deliver(NO_HTTP));
      case Broke(failure) =>
        if DecideFailureAction(failure, job.retry, c.maxRetries) == Retry {
          a := Action.Work(w, ScheduleRetry(Ok));
        } else {
          a := Action.Work(w, WriteDlq("", "", Ok));
        }
      case Settled => a := Action.Work(w, Ack(Ok));
      case _ => a := Action.Work(w, RecordOutcome(s.db.serial, t, Ok));
    }
  }

  lemma TakeMove(c: Config, crew: Crew, s: State, w: nat) returns (t: nat, a: Action)
    requires JobOf(s.ps, w).NoJob? && WorkerOf(s.ps, w).todo != [] && InGroup(|s.rs.stream|, WorkerOf(s.ps, w))
    requires w in crew.workers
    ensures CanMove(c, crew, s, t, a)
  {
    t, a := s.db.clock + 1, Action.Work(w, Take);
  }

  lemma PumpMove(c: Config, crew: Crew, s: State, k: nat) returns (t: nat, a: Action)
    requires k in s.ps.pumps && k in crew.pumps
    ensures CanMove(c, crew, s, t, a)
  {
    t := s.db.clock + 1;
    var pump := s.ps.pumps[k];
    if pump.removing.Some? {
      a := Pumping(k, RemoveMember(Ok));
    } else if pump.todo != [] {
      a := Pumping(k, Republish(Ok));
    } else {
      a := Pumping(k, CrashPump);
    }
  }

  lemma FetchMove(c: Config, crew: Crew, s: State) returns (t: nat, a: Action)
    requires Inv(c, s) && Manned(crew, s.ps) && s.ps.pumps == map[]
    requires forall w :: w in s.ps.workers ==> s.ps.workers[w] == Worker([], NoJob)
    requires s.rs.cursor < |s.rs.stream| || s.rs.pel != {} || s.rs.zset != {}
    ensures CanMove(c, crew, s, t, a)
  {
    t := s.db.clock + 1;
    var w :| w in crew.workers;
    var k :| k in crew.pumps;
    if s.rs.cursor < |s.rs.stream| {
      a := Action.Work(w, ReadGroup(1, Ok));
    } else if s.rs.pel != {} {
      var i :| i in s.rs.pel;
      a := Action.Work(w, AutoClaim([i]));
    } else {
      var m :| m in s.rs.zset;
      a := Pumping(k, FetchDue([m]));
    }
  }

  /** Deadlock freedom: while anything is left, and no redrive holds a lock, some step is possible
      once the clock has moved far enough. */
  lemma NextMove(c: Config, crew: Crew, s: State) returns (t: nat, a: Action)
    requires Inv(c, s) && Manned(crew, s.ps) && s.ps.redrives == map[] && !Quiet(s)
    ensures CanMove(c, crew, s, t, a)
  {
    if p :| p in s.ps.publishers {
      t, a := PublisherMove(c, crew, s, p);
    } else if e :| e in s.db.outbox && !s.db.outbox[e].published {
      t, a := ClaimMove(c, crew, s, e);
    } else if w :| w in s.ps.workers && s.ps.workers[w] != Worker([], NoJob) {
      if JobOf(s.ps, w).Job? {
        t, a := JobMove(c, crew, s, w);
      } else {
        InvBounded(c, s);
        t, a := TakeMove(c, crew, s, w);
      }
    } else if k :| k in s.ps.pumps {
      t, a := PumpMove(c, crew, s, k);
    } else {
      t, a := FetchMove(c, crew, s);
    }
  }

  lemma HealthyKeeps(c: Config, crew: Crew, s: State, a: Action)
    requires Enabled(c, s, a) && Healthy(crew, s, a)
    ensures Apply(c, s, a).ps.redrives == s.ps.redrives
    ensures Manned(crew, s.ps) ==> Manned(crew, Apply(c, s, a).ps)
  {
  }

  lemma EndOfTick(c: Config, s: State, k: nat)
    requires k in s.ps.pumps
    ensures |PumpStep(s, k, CrashPump).ps.pumps| < |s.ps.pumps|
  {
    assert (s.ps.pumps - {k}).Keys == s.ps.pumps.Keys - {k};
    assert |s.ps.pumps.Keys| == |s.ps.pumps| && |(s.ps.pumps - {k}).Keys| == |s.ps.pumps - {k}|;
  }

  /** The clock moves on and somebody takes a step that brings the end nearer. */
  lemma DrainOnce(c: Config, crew: Crew, s: State) returns (t: nat, a: Action)
    requires ValidConfig(c) && Inv(c, s) && Manned(crew, s.ps) && s.ps.redrives == map[] && !Quiet(s)
    ensures CanMove(c, crew, s, t, a)
    ensures var s' := Apply(c, At(s, t), a);
            && Inv(c, s') && Manned(crew, s'.ps) && s'.ps.redrives == map[]
            && (Remaining(c, crew, s') < Remaining(c, crew, s)
                || (Remaining(c, crew, s') <= Remaining(c, crew, s) && |s'.ps.pumps| < |s.ps.pumps|))
  {
    t, a := NextMove(c, crew, s);
    StepKeeps(c, s, World(Tick(t)));
    DrainStepLowers(c, crew, s, World(Tick(t)));
    DrainStepLowers(c, crew, At(s, t), a);
    StepKeeps(c, At(s, t), a);
    HealthyKeeps(c, crew, At(s, t), a);
    if Idle(a) {
      EndOfTick(c, At(s, t), a.k);
    }
  }

  lemma DrainTwoMore(c: Config, crew: Crew, s: State, t: nat, a: Action, rest: seq<Action>, s': State)
    requires CanMove(c, crew, s, t, a) && DrainRun(c, crew, Apply(c, At(s, t), a), rest, s')
    ensures DrainRun(c, crew, s, [World(Tick(t))] + ([a] + rest), s')
  {
    var tail := [a] + rest;
    var acts := [World(Tick(t))] + tail;
    assert tail[1..] == rest && acts[1..] == tail;
    assert DrainRun(c, crew, At(s, t), tail, s');
  }

  /** From every such state a fault-free schedule leads to a quiet one. */
  lemma {:induction false} DrainCompletes(c: Config, crew: Crew, s: State) returns (acts: seq<Action>, s': State)
    requires ValidConfig(c) && Inv(c, s) && Manned(crew, s.ps) && s.ps.redrives == map[]
    ensures DrainRun(c, crew, s, acts, s') && Quiet(s') && Inv(c, s')
    decreases Remaining(c, crew, s), |s.ps.pumps|
  {
    if Quiet(s) {
      acts, s' := [], s;
    } else {
      var t, a := DrainOnce(c, crew, s);
      var rest;
      rest, s' := DrainCompletes(c, crew, Apply(c, At(s, t), a));
      DrainTwoMore(c, crew, s, t, a, rest, s');
      acts := [World(Tick(t))] + ([a] + rest);
    }
  }

  ghost predicate Settled(s: State, e: string) {
    || (exists k :: 0 <= k < |s.db.history| && s.db.history[k].event == e && s.db.history[k].status.Delivered?)
    || (e in s.db.dlq && s.db.dlq[e].status.Open?)
  }

  /** When nothing is left every event is delivered or has an open DLQ record. */
  lemma QuietMeansSettled(c: Config, s: State, e: string)
    requires ValidConfig(c) && Inv(c, s) && Quiet(s) && e in s.db.events
    ensures Settled(s, e)
  {
    InvAccounts(c, s, e);
  }

  /** Drain as one statement about reachable states: the steps of a fault-free schedule are bounded,
      and if it leaves nothing to do, every event is delivered or has an open DLQ record. */
  lemma DrainSettles(c: Config, crew: Crew, s: State, acts: seq<Action>, s': State)
    requires ValidConfig(c) && Reachable(c, s) && DrainRun(c, crew, s, acts, s')
    ensures StepsIn(acts) <= Remaining(c, crew, s)
    ensures Quiet(s') ==> forall e :: e in s'.db.events ==> Settled(s', e)
  {
    ReachableInv(c, s);
    DrainBounded(c, crew, s, acts, s');
    if Quiet(s') {
      forall e | e in s'.db.events ensures Settled(s', e) {
        QuietMeansSettled(c, s', e);
      }
    }
  }
}
