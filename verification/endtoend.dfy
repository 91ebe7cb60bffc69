/** At-least-once delivery composed with the idempotent receiver. */
module EndToEnd {
  import opened Delivery
  import opened Protocol
  import opened Safety
  import R = Receipts

  /** A webhook event whose payload posts an acceptable receipt to the modelled receiver. */
  ghost predicate Aimed(c: Config, events: map<string, Event>, e: string) {
    && e in events && events[e].eventType == "webhook"
    && c.plan(events[e].payload).Post? && c.plan(events[e].payload).target.Receiver?
  }

  ghost predicate JobArrived(c: Config, db: Db, seen: set<string>, job: Job) {
    job.Job? && job.phase.Succeeded? && Aimed(c, db.events, EventOf(job.msg)) ==> EventOf(job.msg) in seen
  }

  ghost predicate RowArrived(c: Config, db: Db, seen: set<string>, row: Row) {
    row.status.Delivered? && Aimed(c, db.events, row.event) ==> row.event in seen
  }

  ghost predicate Arrived(c: Config, s: State) {
    && R.Consistent(s.receiver)
    && (forall w :: w in s.ps.workers ==> JobArrived(c, s.db, s.receiver.seenKeys, s.ps.workers[w].job))
    && (forall k :: 0 <= k < |s.db.history| ==> RowArrived(c, s.db, s.receiver.seenKeys, s.db.history[k]))
  }

  /** A successful attempt at an aimed message was answered 200 by the receiver. */
  lemma SuccessMeansSeen(c: Config, s: State, v: Values, reply: HttpReply)
    requires R.Consistent(s.receiver) && Faithful(c, s.db.events, v) && IdsOk(s.db)
    requires ReplyPossible(c, s.receiver, v, reply)
    ensures R.Consistent(ReceiverAfter(c, s.receiver, v, reply))
    ensures s.receiver.seenKeys <= ReceiverAfter(c, s.receiver, v, reply).seenKeys
    ensures AttemptOf(c, v, reply).Success? && Aimed(c, s.db.events, EventOf(v))
            ==> EventOf(v) in ReceiverAfter(c, s.receiver, v, reply).seenKeys
  {
    match PlanOf(c, v) {
      case Some(Post(Receiver(valid))) =>
        R.HandleKeeps(s.receiver, HeaderOf(v), valid);
        if reply.Response? {
          ResponseDeliveredIff(reply.code);
        }
      case _ =>
    }
  }

  lemma DeliverArrives(c: Config, s: State, w: nat, reply: HttpReply)
    requires ValidConfig(c) && Inv(c, s) && Arrived(c, s) && WorkerEnabled(c, s, w, Deliver(reply))
    ensures var s' := WorkerStep(c, s, w, Deliver(reply));
            && R.Consistent(s'.receiver) && s.receiver.seenKeys <= s'.receiver.seenKeys
            && JobArrived(c, s'.db, s'.receiver.seenKeys, s'.ps.workers[w].job)
  {
    var job := JobOf(s.ps, w);
    WorkerFacts(c, s, w);
    assert EntryOk(c, s.db.events, s.rs.stream, job.entry);
    SuccessMeansSeen(c, s, job.msg, reply);
  }

  /** Every other effect of a worker leaves the receiver alone and records only what arrived. */
  lemma RecordArrives(c: Config, s: State, w: nat, a: WorkerAction)
    requires JobArrived(c, s.db, s.receiver.seenKeys, JobOf(s.ps, w)) && WorkerEnabled(c, s, w, a) && !a.Deliver?
    ensures var s' := WorkerStep(c, s, w, a);
            && s'.receiver == s.receiver
            && JobArrived(c, s'.db, s'.receiver.seenKeys, s'.ps.workers[w].job)
            && forall k :: |s.db.history| <= k < |s'.db.history| ==>
                 RowArrived(c, s'.db, s'.receiver.seenKeys, s'.db.history[k])
  {
  }

  lemma WorkArrives(c: Config, s: State, w: nat, a: WorkerAction)
    requires ValidConfig(c) && Inv(c, s) && Arrived(c, s) && WorkerEnabled(c, s, w, a)
    ensures var s' := WorkerStep(c, s, w, a);
            && R.Consistent(s'.receiver) && s.receiver.seenKeys <= s'.receiver.seenKeys
            && JobArrived(c, s'.db, s'.receiver.seenKeys, s'.ps.workers[w].job)
            && forall k :: |s.db.history| <= k < |s'.db.history| ==>
                 RowArrived(c, s'.db, s'.receiver.seenKeys, s'.db.history[k])
  {
    if a.Deliver? {
      DeliverArrives(c, s, w, a.reply);
      assert WorkerStep(c, s, w, a).db == s.db;
    } else {
      RecordArrives(c, s, w, a);
    }
  }

  lemma OldRowsArrive(c: Config, s: State, s': State)
    requires Inv(c, s) && Arrived(c, s) && Grows(s, s')
    requires s.receiver.seenKeys <= s'.receiver.seenKeys
    ensures forall k :: 0 <= k < |s.db.history| ==> RowArrived(c, s'.db, s'.receiver.seenKeys, s'.db.history[k])
    ensures forall w :: w in s.ps.workers ==> JobArrived(c, s'.db, s'.receiver.seenKeys, s.ps.workers[w].job)
  {
    forall k | 0 <= k < |s.db.history| ensures RowArrived(c, s'.db, s'.receiver.seenKeys, s'.db.history[k]) {
      assert RowOk(s.db, s.rs.stream, s.rs.zset, s.db.history[k]);
      assert RowArrived(c, s.db, s.receiver.seenKeys, s.db.history[k]);
    }
    forall w | w in s.ps.workers ensures JobArrived(c, s'.db, s'.receiver.seenKeys, s.ps.workers[w].job) {
      var job := s.ps.workers[w].job;
      if job.Job? {
        JobEvent(c, s, job);
        assert JobArrived(c, s.db, s.receiver.seenKeys, job);
      }
    }
  }

  lemma NoNewDelivery(c: Config, s: State, a: Action)
    requires Enabled(c, s, a) && !a.Work?
    ensures var s' := Apply(c, s, a);
            && s'.ps.workers == s.ps.workers
            && forall k :: |s.db.history| <= k < |s'.db.history| ==> !s'.db.history[k].status.Delivered?
  {
  }

  lemma ReceiverStep(c: Config, s: State, a: Action)
    requires R.Consistent(s.receiver) && Enabled(c, s, a) && !a.Work?
    ensures R.Consistent(Apply(c, s, a).receiver)
    ensures s.receiver.seenKeys <= Apply(c, s, a).receiver.seenKeys
  {
    if a.World? && a.world.OtherRequest? {
      R.HandleKeeps(s.receiver, a.world.header, a.world.valid);
    }
  }

  lemma StepArrives(c: Config, s: State, a: Action)
    requires ValidConfig(c) && Inv(c, s) && Arrived(c, s) && Enabled(c, s, a)
    ensures Arrived(c, Apply(c, s, a))
  {
    if a.Work? {
      WorkArrives(c, s, a.w, a.work);
    } else {
      NoNewDelivery(c, s, a);
      ReceiverStep(c, s, a);
    }
    StepGrows(c, s, a);
    OldRowsArrive(c, s, Apply(c, s, a));
  }

  lemma {:induction false} RunArrives(c: Config, s: State, acts: seq<Action>, s': State)
    requires ValidConfig(c) && Inv(c, s) && Arrived(c, s) && Runs(c, s, acts, s')
    ensures Arrived(c, s')
    decreases |acts|
  {
    if acts != [] {
      StepKeeps(c, s, acts[0]);
      StepArrives(c, s, acts[0]);
      RunArrives(c, Apply(c, s, acts[0]), acts[1..], s');
    }
  }

  lemma NothingArrivedYet(c: Config, s: State)
    requires s.ps.workers == map[] && s.db.history == []
    requires R.Consistent(s.receiver)
    ensures Arrived(c, s)
  {
  }

  lemma FreshReceiver(r: R.Server)
    requires r == R.FRESH
    ensures R.Consistent(r)
  {
    R.FreshConsistent();
  }

  lemma InitArrived(c: Config, s: State, t: nat)
    requires s == Init(t)
    ensures Arrived(c, s)
  {
    FreshReceiver(s.receiver);
    NothingArrivedYet(c, s);
  }

  lemma ReachableArrived(c: Config, s: State)
    requires ValidConfig(c) && Reachable(c, s)
    ensures Arrived(c, s)
  {
    var t: nat, acts :| Runs(c, Init(t), acts, s);
    InitInv(c, t);
    InitArrived(c, Init(t), t);
    RunArrives(c, Init(t), acts, s);
  }

  ghost predicate DeliveredTo(c: Config, s: State, k: nat) {
    k < |s.db.history| && s.db.history[k].status.Delivered? && Aimed(c, s.db.events, s.db.history[k].event)
  }

  lemma SeenOnce(receiver: R.Server, e: string)
    requires R.Consistent(receiver) && e != ""
    ensures R.Applied(receiver.accepted, e) <= 1
    ensures e in receiver.seenKeys ==> R.Applied(receiver.accepted, e) == 1
  {
  }

  /** Effect at most once, whatever was retried, reclaimed, replayed, redriven or answered by a
      lost response: one receipt per event at most, exactly one once a DELIVERED row of an event
      aimed at the receiver is committed, and every request counted. */
  lemma EffectAtMostOnce(c: Config, s: State)
    requires ValidConfig(c) && Reachable(c, s)
    ensures forall e :: e in s.db.events ==> R.Applied(s.receiver.accepted, e) <= 1
    ensures forall k: nat :: DeliveredTo(c, s, k) ==> R.Applied(s.receiver.accepted, s.db.history[k].event) == 1
    ensures s.receiver.total == s.receiver.successful + s.receiver.duplicates + s.receiver.failed
  {
    ReachableArrived(c, s);
    assert IdsOk(s.db) by {
      ReachableInv(c, s);
    }
    forall e | e in s.db.events ensures R.Applied(s.receiver.accepted, e) <= 1 {
      SeenOnce(s.receiver, e);
    }
    forall k: nat | DeliveredTo(c, s, k) ensures R.Applied(s.receiver.accepted, s.db.history[k].event) == 1 {
      assert RowArrived(c, s.db, s.receiver.seenKeys, s.db.history[k]);
      SeenOnce(s.receiver, s.db.history[k].event);
    }
  }

  /** A delivery sends the receiver at most one request: one that reaches it is counted there, and every
      other delivery leaves it as it was. */
  lemma OneRequestPerDelivery(c: Config, s: State, w: nat, reply: HttpReply)
    requires R.Consistent(s.receiver) && WorkerEnabled(c, s, w, Deliver(reply))
    ensures var v := JobOf(s.ps, w).msg;
            var receiver' := WorkerStep(c, s, w, Deliver(reply)).receiver;
            if TypeOf(v) == "webhook" && Payload in v && c.plan(v[Payload]).Post? && c.plan(v[Payload]).target.Receiver?
               && reply != NoReply(false)
            then receiver'.total == s.receiver.total + 1
            else receiver' == s.receiver
  {
  }
}
