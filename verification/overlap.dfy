/** Why the drain measure counts the crew. Weights of what Redis holds alone, 3(M - r) + 2 for an
    unread entry, 3(M - r) + 1 for a pending one and 3(M - q) + 3 for a queued member, go down over
    a call exactly if its entry is still pending, and over a pump's round exactly if its member is
    still queued. When two workers or two pumps hold the same thing, the later one fails this. */
module Overlap {
  import opened Text
  import opened Delivery
  import opened Effects
  import opened Protocol
  import opened Safety
  import opened Sums
  import opened Drain
  import opened Limits

  ghost function StoresWork(c: Config, rs: Redis): nat {
    (if rs.cursor <= |rs.stream| then SumSeq(rs.stream[rs.cursor..], v => 3 * Left(c, v) + 2) else 0)
    + SumSet(rs.pel, i => 3 * LeftAt(c, rs.stream, i) + 1)
    + SumSet(rs.zset, m => 3 * Left(c, m) + 3)
  }

  lemma QueueRemove(c: Config, zset: set<Values>, m: Values)
    ensures SumSet(zset - {m}, x => 3 * Left(c, x) + 3) + (if m in zset then 3 * Left(c, m) + 3 else 0)
            == SumSet(zset, x => 3 * Left(c, x) + 3)
  {
    if m in zset {
      SumSetTake(zset, m, x => 3 * Left(c, x) + 3);
    } else {
      assert zset - {m} == zset;
    }
  }

  lemma UnreadGrows(c: Config, stream: seq<Values>, cursor: nat, v: Values)
    requires cursor <= |stream|
    ensures SumSeq((stream + [v])[cursor..], u => 3 * Left(c, u) + 2)
            == SumSeq(stream[cursor..], u => 3 * Left(c, u) + 2) + 3 * Left(c, v) + 2
  {
    assert (stream + [v])[cursor..] == stream[cursor..] + [v];
    SumSeqConcat(stream[cursor..], [v], u => 3 * Left(c, u) + 2);
    assert SumSeq([v], u => 3 * Left(c, u) + 2) == 3 * Left(c, v) + 2;
  }

  /** XADD and ZREM of one member lower the weights of the stores exactly if it is still queued. */
  lemma PumpRoundIff(c: Config, s: State, k: nat)
    requires Bounded(s.rs, s.ps.workers) && PumpEnabled(s, k, Republish(Ok))
    ensures var s1 := PumpStep(s, k, Republish(Ok));
            var s2 := PumpStep(s1, k, RemoveMember(Ok));
            StoresWork(c, s2.rs) < StoresWork(c, s.rs) <==> s.ps.pumps[k].todo[0] in s.rs.zset
  {
    var m := s.ps.pumps[k].todo[0];
    var stream := s.rs.stream;
    UnreadGrows(c, stream, s.rs.cursor, m);
    SumSetSame(s.rs.pel, i => 3 * LeftAt(c, stream, i) + 1, i => 3 * LeftAt(c, stream + [m], i) + 1);
    QueueRemove(c, s.rs.zset, m);
  }

  /** What a call that schedules a retry of entry `i` and acknowledges it does to Redis. */
  function AfterRetryCall(rs: Redis, i: nat): Redis
    requires i < |rs.stream|
  {
    rs.(zset := rs.zset + {MemberOf(rs.stream, i)}, pel := rs.pel - {i})
  }

  lemma RetryCallIff(c: Config, rs: Redis, i: nat)
    requires ValidConfig(c) && i < |rs.stream| && 0 <= ParseRetry(rs.stream[i]) < c.maxRetries
    ensures StoresWork(c, AfterRetryCall(rs, i)) < StoresWork(c, rs) <==> i in rs.pel
  {
    var m := MemberOf(rs.stream, i);
    RetryReadsBack(rs.stream[i], i, ParseRetry(rs.stream[i]) + 1);
    QueueRemove(c, rs.zset + {m}, m);
    assert rs.zset + {m} - {m} == rs.zset - {m};
    QueueRemove(c, rs.zset, m);
    if i in rs.pel {
      SumSetTake(rs.pel, i, j => 3 * LeftAt(c, rs.stream, j) + 1);
    } else {
      assert rs.pel - {i} == rs.pel;
    }
  }

  /** The three effects with which a failed call ends: the retry is scheduled, recorded and the
      entry acknowledged. */
  ghost predicate EndsInRetry(c: Config, s: State, w: nat, id: nat, at: nat, s': State) {
    && WorkerEnabled(c, s, w, ScheduleRetry(Ok))
    && var s1 := WorkerStep(c, s, w, ScheduleRetry(Ok));
       && WorkerEnabled(c, s1, w, RecordOutcome(id, at, Ok))
       && var s2 := WorkerStep(c, s1, w, RecordOutcome(id, at, Ok));
          WorkerEnabled(c, s2, w, Ack(Ok)) && s' == WorkerStep(c, s2, w, Ack(Ok))
  }

  lemma RetryCallEnds(c: Config, s: State, w: nat, id: nat, at: nat, s': State)
    requires EndsInRetry(c, s, w, id, at, s') && JobOk(s.rs.stream, s.rs.zset, s.db.history, JobOf(s.ps, w))
    ensures JobOf(s.ps, w).entry < |s.rs.stream| && s'.rs == AfterRetryCall(s.rs, JobOf(s.ps, w).entry)
  {
    var job := JobOf(s.ps, w);
    assert WithRetry(job.msg, job.entry, job.retry + 1) == MemberOf(s.rs.stream, job.entry);
  }

  /** A worker's call that ends in a retry lowers the weights of the stores exactly if nobody else has
      acknowledged its entry. */
  lemma CallRoundIff(c: Config, s: State, w: nat, id: nat, at: nat, s': State)
    requires ValidConfig(c) && Inv(c, s) && EndsInRetry(c, s, w, id, at, s')
    ensures StoresWork(c, s'.rs) < StoresWork(c, s.rs) <==> JobOf(s.ps, w).entry in s.rs.pel
  {
    WorkerFacts(c, s, w);
    JobEvent(c, s, JobOf(s.ps, w));
    RetryCallEnds(c, s, w, id, at, s');
    RetryCallIff(c, s.rs, JobOf(s.ps, w).entry);
  }

  // ---- It happens ----------------------------------------------------------------------

  lemma FirstRecorded(c: Config, t: nat) returns (s: State)
    requires ValidConfig(c)
    ensures Reachable(c, s) && s.ps.pumps == map[] && s.rs.zset == {}
    ensures s.ps.redrives == map[] && s.rs.pel == {0} && |s.rs.stream| == 1 && WorkerOf(s.ps, 1) == Worker([], NoJob)
    ensures TypeOf(s.rs.stream[0]) == "force.fail" && ParseRetry(s.rs.stream[0]) == 0
    ensures var job := JobOf(s.ps, 0);
            && job.Job? && job.phase.Recorded? && job.retry == 0 && job.entry == 0 && job.since < s.db.clock
            && TypeOf(job.msg) == "force.fail"
  {
    var ev: Event;
    s, ev := AppendedReachable(c, t);
    s := Fetched(c, s, t, ev);
    ZeroRetry(RootValues("e", ev, "o"));
    var a := World(Tick(t + 1));
    ReachableStep(c, s, a);
    s := Apply(c, s, a);
    a := Work(0, RecordProcessing(2, t + 1, Ok));
    ReachableStep(c, s, a);
    s := Apply(c, s, a);
  }

  lemma FirstFailure(c: Config, t: nat) returns (s: State)
    requires ValidConfig(c)
    ensures Reachable(c, s) && s.ps.pumps == map[] && s.rs.zset == {}
    ensures s.ps.redrives == map[] && s.rs.pel == {0} && |s.rs.stream| == 1 && WorkerOf(s.ps, 1) == Worker([], NoJob)
    ensures TypeOf(s.rs.stream[0]) == "force.fail" && ParseRetry(s.rs.stream[0]) == 0
    ensures JobOf(s.ps, 0).Job? && JobOf(s.ps, 0).phase == Broke(Failure(Retryable, None))
    ensures JobOf(s.ps, 0).retry == 0 && JobOf(s.ps, 0).entry == 0 && JobOf(s.ps, 0).since < s.db.clock
  {
    s := FirstRecorded(c, t);
    var a := Work(0, Deliver(NO_HTTP));
    ReachableStep(c, s, a);
    s := Apply(c, s, a);
  }

  lemma FirstRetry(c: Config, t: nat) returns (s: State, m: Values)
    requires ValidConfig(c)
    ensures Reachable(c, s) && s.ps.pumps == map[] && s.rs.zset == {m}
  {
    s := FirstFailure(c, t);
    var job := JobOf(s.ps, 0);
    m := WithRetry(job.msg, job.entry, job.retry + 1);
    var a := Work(0, ScheduleRetry(Ok));
    ReachableStep(c, s, a);
    s := Apply(c, s, a);
  }

  /** Two pumps fetch the same member, one finishes it, and the other still holds it: a reachable
      state from which a fault-free round appends the retry a second time. */
  lemma PumpsOverlap(c: Config, t: nat) returns (s: State, m: Values)
    requires ValidConfig(c)
    ensures Reachable(c, s) && m in s.rs.stream && m !in s.rs.zset && PumpEnabled(s, 1, Republish(Ok))
    ensures s.ps.pumps[1].todo == [m]
    ensures var s1 := PumpStep(s, 1, Republish(Ok));
            StoresWork(c, s.rs) <= StoresWork(c, PumpStep(s1, 1, RemoveMember(Ok)).rs)
  {
    s, m := FirstRetry(c, t);
    var a := Pumping(0, FetchDue([m]));
    ReachableStep(c, s, a);
    s := Apply(c, s, a);
    a := Pumping(1, FetchDue([m]));
    ReachableStep(c, s, a);
    s := Apply(c, s, a);
    a := Pumping(0, Republish(Ok));
    ReachableStep(c, s, a);
    s := Apply(c, s, a);
    assert s.rs.stream[|s.rs.stream| - 1] == m;
    a := Pumping(0, RemoveMember(Ok));
    ReachableStep(c, s, a);
    s := Apply(c, s, a);
    ReachableInv(c, s);
    InvBounded(c, s);
    PumpRoundIff(c, s, 1);
  }

  // ---- Two workers -----------------------------------------------------------------------

  /** The second worker holds the entry that the first one is failing on. */
  lemma EntryShared(c: Config, t: nat) returns (s: State)
    requires ValidConfig(c)
    ensures Reachable(c, s) && s.ps.redrives == map[] && s.rs.pel == {0} && |s.rs.stream| == 1
    ensures TypeOf(s.rs.stream[0]) == "force.fail" && ParseRetry(s.rs.stream[0]) == 0
    ensures JobOf(s.ps, 0).Job? && JobOf(s.ps, 0).phase == Broke(Failure(Retryable, None))
    ensures JobOf(s.ps, 0).retry == 0 && JobOf(s.ps, 0).entry == 0 && JobOf(s.ps, 0).since < s.db.clock
    ensures WorkerOf(s.ps, 1) == Worker([0], NoJob)
  {
    s := FirstFailure(c, t);
    var a := Work(1, AutoClaim([0]));
    ReachableStep(c, s, a);
    s := Apply(c, s, a);
  }

  /** The first worker finishes: the retry is queued and the entry acknowledged. */
  lemma FirstWorkerDone(c: Config, t: nat) returns (s: State)
    requires ValidConfig(c)
    ensures Reachable(c, s) && 0 !in s.rs.pel && |s.rs.stream| == 1
    ensures TypeOf(s.rs.stream[0]) == "force.fail" && ParseRetry(s.rs.stream[0]) == 0
    ensures WorkerOf(s.ps, 1) == Worker([0], NoJob)
  {
    s := EntryShared(c, t);
    var a := Work(0, ScheduleRetry(Ok));
    ReachableStep(c, s, a);
    s := Apply(c, s, a);
    ReachableFresh(c, s);
    a := Work(0, RecordOutcome(s.db.serial, s.db.clock, Ok));
    ReachableStep(c, s, a);
    s := Apply(c, s, a);
    a := Work(0, Ack(Ok));
    ReachableStep(c, s, a);
    s := Apply(c, s, a);
  }

  lemma SecondWorkerRecorded(c: Config, t: nat) returns (s: State)
    requires ValidConfig(c)
    ensures Reachable(c, s) && 0 !in s.rs.pel
    ensures var job := JobOf(s.ps, 1);
            job.Job? && job.phase.Recorded? && job.retry == 0 && job.entry == 0 && TypeOf(job.msg) == "force.fail"
  {
    s := FirstWorkerDone(c, t);
    var a := Work(1, Take);
    ReachableStep(c, s, a);
    s := Apply(c, s, a);
    a := World(Tick(s.db.clock + 1));
    ReachableStep(c, s, a);
    s := Apply(c, s, a);
    ReachableFresh(c, s);
    a := Work(1, RecordProcessing(s.db.serial, s.db.clock, Ok));
    ReachableStep(c, s, a);
    s := Apply(c, s, a);
  }

  /** Two workers fail on the same entry, one after the other: a reachable state from which a call
      ends in a retry of an entry that is no longer pending, without any fault. */
  lemma WorkersOverlap(c: Config, t: nat) returns (s: State)
    requires ValidConfig(c)
    ensures Reachable(c, s) && WorkerEnabled(c, s, 1, ScheduleRetry(Ok)) && JobOf(s.ps, 1).entry !in s.rs.pel
    ensures forall id, at, s' :: EndsInRetry(c, s, 1, id, at, s') ==> StoresWork(c, s.rs) <= StoresWork(c, s'.rs)
  {
    s := SecondWorkerRecorded(c, t);
    var a := Work(1, Deliver(NO_HTTP));
    ReachableStep(c, s, a);
    s := Apply(c, s, a);
    ReachableInv(c, s);
    forall id, at, s' | EndsInRetry(c, s, 1, id, at, s') ensures StoresWork(c, s.rs) <= StoresWork(c, s'.rs) {
      CallRoundIff(c, s, 1, id, at, s');
    }
  }
}
