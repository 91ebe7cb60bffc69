/** No event is lost, and no dead letter is swallowed by a redrive. */
module NoLoss {
  import opened Text
  import opened Protocol
  import opened Safety

  /** Where an event can be found besides the unread part of the stream: pending publication,
      pending acknowledgement, queued for retry, delivered, or held by an open DLQ record. */
  ghost predicate Kept(s: State, e: string) {
    || (e in s.db.outbox && !s.db.outbox[e].published)
    || (exists i :: i in s.rs.pel && i < |s.rs.stream| && EventOf(s.rs.stream[i]) == e)
    || (exists m :: m in s.rs.zset && EventOf(m) == e)
    || (exists k :: 0 <= k < |s.db.history| && s.db.history[k].event == e && s.db.history[k].status.Delivered?)
    || (e in s.db.dlq && s.db.dlq[e].status.Open?)
  }

  /** Where a persisted event can still be found. */
  ghost predicate Accounted(s: State, e: string) {
    || (exists i :: s.rs.cursor <= i < |s.rs.stream| && EventOf(s.rs.stream[i]) == e)
    || Kept(s, e)
  }

  /** A republished retry is always younger than the entry it retries. */
  lemma ChildIsYounger(c: Config, s: State, i: nat, j: nat)
    requires ValidConfig(c) && Inv(c, s)
    requires i < |s.rs.stream| && j < |s.rs.stream| && s.rs.stream[j] == MemberOf(s.rs.stream, i)
    ensures i < j
  {
    assert EntryOk(c, s.db.events, s.rs.stream, j);
    var i': nat :| i' < j && s.rs.stream[j] == MemberOf(s.rs.stream, i');
    ItoaInjective(i, i');
  }

  lemma {:induction false} LargestEntry(stream: seq<Values>, n: nat, e: string) returns (j: nat)
    requires n <= |stream| && exists i :: 0 <= i < n && EventOf(stream[i]) == e
    ensures j < n && EventOf(stream[j]) == e
    ensures forall i :: j < i < n ==> EventOf(stream[i]) != e
  {
    if EventOf(stream[n - 1]) == e {
      j := n - 1;
    } else {
      j := LargestEntry(stream, n - 1, e);
    }
  }

  lemma MemberEvent(v: Values, i: nat, retry: int)
    ensures EventOf(WithRetry(v, i, retry)) == EventOf(v)
  {
  }

  /** No entry of `e` is younger than `j`. */
  ghost predicate Youngest(stream: seq<Values>, e: string, j: nat) {
    j < |stream| && EventOf(stream[j]) == e && forall i :: j < i < |stream| ==> EventOf(stream[i]) != e
  }

  lemma RetryAccounts(c: Config, s: State, e: string, j: nat)
    requires ValidConfig(c) && Inv(c, s) && Youngest(s.rs.stream, e, j) && Continued(s.rs.stream, s.rs.zset, j)
    ensures MemberOf(s.rs.stream, j) in s.rs.zset && EventOf(MemberOf(s.rs.stream, j)) == e
  {
    var stream := s.rs.stream;
    MemberEvent(stream[j], j, ParseRetry(stream[j]) + 1);
    if MemberOf(stream, j) !in s.rs.zset {
      var child :| 0 <= child < |stream| && stream[child] == MemberOf(stream, j);
      ChildIsYounger(c, s, j, child);
      assert false;
    }
  }

  lemma DeadAccounts(c: Config, s: State, e: string, j: nat, k: nat)
    requires ValidConfig(c) && IdsOk(s.db) && DlqOk(s.db, s.rs.stream, s.ps.redrives) && Youngest(s.rs.stream, e, j)
    requires k < |s.db.history| && s.db.history[k].status.DeadLettered? && s.db.history[k].event == e
    requires s.db.history[k].entry == Some(j) && e in s.db.dlq
    ensures s.db.dlq[e].status.Open?
  {
    if s.db.dlq[e].status.RedrivenDlq? {
      var r: nat :| IsRedriveOf(s.db.events, s.rs.stream, r, e) && AboveDead(s.db.history, e, r);
      NewCarrier(c, s.db.events, e, RedriveMark, "1");
      assert false;
    }
  }

  /** The youngest entry of an event, once handed out, is pending or has an outcome nothing
      superseded. */
  lemma YoungestAccounts(c: Config, s: State, e: string, j: nat)
    requires ValidConfig(c) && Inv(c, s) && Youngest(s.rs.stream, e, j) && j < s.rs.handed
    ensures Kept(s, e)
  {
    if j in s.rs.pel {
      return;
    }
    var k :| 0 <= k < |s.db.history| && s.db.history[k].entry == Some(j) && IsOutcome(s.db.history[k].status);
    var row := s.db.history[k];
    assert RowOk(s.db, s.rs.stream, s.rs.zset, row);
    if row.status.Retrying? {
      RetryAccounts(c, s, e, j);
    } else if row.status.DeadLettered? {
      DeadAccounts(c, s, e, j, k);
    }
  }

  lemma InvAccounts(c: Config, s: State, e: string)
    requires ValidConfig(c) && Inv(c, s) && e in s.db.events
    ensures Accounted(s, e)
  {
    if s.db.outbox[e].published {
      assert HasEntry(s.rs.stream, e);
      var j := LargestEntry(s.rs.stream, |s.rs.stream|, e);
      if j < s.rs.cursor {
        YoungestAccounts(c, s, e, j);
      }
    }
  }

  /** No loss: under every schedule of steps, faults and crashes, each persisted event is
      pending publication, unread, pending acknowledgement, queued for retry, delivered, or
      held by an open DLQ record. */
  lemma EveryEventAccounted(c: Config, s: State)
    requires ValidConfig(c) && Reachable(c, s)
    ensures forall e :: e in s.db.events ==> Accounted(s, e)
  {
    ReachableInv(c, s);
    forall e | e in s.db.events ensures Accounted(s, e) {
      InvAccounts(c, s, e);
    }
  }

  predicate IsDeadLetter(row: Row, e: string) {
    row.event == e && row.status.DeadLettered?
  }

  /** A record marked REDRIVEN has a redrive entry younger than every entry of the event that
      was ever recorded as dead-lettered. */
  lemma RedriveSwallowsNothing(c: Config, s: State, e: string)
    requires ValidConfig(c) && Reachable(c, s)
    requires e in s.db.dlq && s.db.dlq[e].status.RedrivenDlq?
    ensures e in s.db.events && exists j: nat ::
              && j < |s.rs.stream| && s.rs.stream[j] == RedriveValues(e, s.db.events[e])
              && forall k :: 0 <= k < |s.db.history| && IsDeadLetter(s.db.history[k], e) ==>
                   s.db.history[k].entry.Some? && s.db.history[k].entry.value < j
  {
    ReachableInv(c, s);
    var j: nat :| IsRedriveOf(s.db.events, s.rs.stream, j, e) && AboveDead(s.db.history, e, j);
  }

  lemma QueuedFaithful(c: Config, s: State, m: Values)
    requires ValidConfig(c) && StreamOk(c, s.db.events, s.rs.stream) && QueueOk(c, s.rs.stream, s.rs.zset)
    requires m in s.rs.zset
    ensures Faithful(c, s.db.events, m) && ParseRetry(m) >= 1
  {
    var i: nat :| i < |s.rs.stream| && m == MemberOf(s.rs.stream, i) && ParseRetry(s.rs.stream[i]) < c.maxRetries;
    assert EntryOk(c, s.db.events, s.rs.stream, i);
    MemberFaithful(c, s.db.events, s.rs.stream, i);
  }

  /** Carriers stay faithful: whatever the number of retry round trips, every stream entry and
      every queued member agrees with a committed event and counts 0..maxRetries retries. */
  lemma CarriersFaithful(c: Config, s: State)
    requires ValidConfig(c) && Reachable(c, s)
    ensures forall i :: 0 <= i < |s.rs.stream| ==> Faithful(c, s.db.events, s.rs.stream[i])
    ensures forall m :: m in s.rs.zset ==> Faithful(c, s.db.events, m) && ParseRetry(m) >= 1
    ensures forall w :: w in s.ps.workers && s.ps.workers[w].job.Job? ==>
              && EventOf(s.ps.workers[w].job.msg) in s.db.events
              && 0 <= s.ps.workers[w].job.retry <= c.maxRetries
  {
    ReachableInv(c, s);
    forall i | 0 <= i < |s.rs.stream| ensures Faithful(c, s.db.events, s.rs.stream[i]) {
      assert EntryOk(c, s.db.events, s.rs.stream, i);
    }
    forall m | m in s.rs.zset ensures Faithful(c, s.db.events, m) && ParseRetry(m) >= 1 {
      QueuedFaithful(c, s, m);
    }
    forall w | w in s.ps.workers && s.ps.workers[w].job.Job?
      ensures EventOf(s.ps.workers[w].job.msg) in s.db.events && 0 <= s.ps.workers[w].job.retry <= c.maxRetries {
      JobEvent(c, s, s.ps.workers[w].job);
    }
  }

  // ---- Rescheduling -----------------------------------------------------------------

  /** Distinct entries never share a member. */
  lemma MembersInjective(stream: seq<Values>, i: nat, j: nat)
    requires i < |stream| && j < |stream| && MemberOf(stream, i) == MemberOf(stream, j)
    ensures i == j
  {
    assert MemberOf(stream, i)[OriginalStreamId] == Itoa(i);
    ItoaInjective(i, j);
  }

  /** Rescheduling is idempotent: two queued members naming the same source entry are one
      member, however often the entry was reclaimed. */
  lemma OneMemberPerEntry(c: Config, s: State, m: Values, m': Values)
    requires ValidConfig(c) && Reachable(c, s)
    requires m in s.rs.zset && m' in s.rs.zset && OriginalStreamId in m && OriginalStreamId in m'
    requires m[OriginalStreamId] == m'[OriginalStreamId]
    ensures m == m'
  {
    ReachableInv(c, s);
    var i: nat :| i < |s.rs.stream| && m == MemberOf(s.rs.stream, i);
    var j: nat :| j < |s.rs.stream| && m' == MemberOf(s.rs.stream, j);
    ItoaInjective(i, j);
  }

  /** Entry `i` has a committed RETRYING row. */
  ghost predicate RetryRecorded(history: seq<Row>, i: nat) {
    exists k :: 0 <= k < |history| && history[k].status.Retrying? && history[k].entry == Some(i)
  }

  /** A worker has scheduled the retry of entry `i` and not yet recorded it. */
  ghost predicate RetryScheduled(workers: map<nat, Worker>, i: nat) {
    exists w :: w in workers && workers[w].job.Job? && workers[w].job.phase.Scheduled? && workers[w].job.entry == i
  }

  lemma RetryContinued(c: Config, s: State, i: nat)
    requires RowsOk(s.db, s.rs.stream, s.rs.zset) && WorkersOk(s.rs, s.db.history, s.ps.workers)
    requires RetryRecorded(s.db.history, i) || RetryScheduled(s.ps.workers, i)
    ensures Continued(s.rs.stream, s.rs.zset, i)
  {
    if RetryRecorded(s.db.history, i) {
      var k :| 0 <= k < |s.db.history| && s.db.history[k].status.Retrying? && s.db.history[k].entry == Some(i);
      assert RowOk(s.db, s.rs.stream, s.rs.zset, s.db.history[k]);
    }
  }

  /** Whatever the pump and other workers do meanwhile, an entry whose RETRYING row is committed,
      or whose worker has scheduled it, has its member queued or a younger child. */
  lemma RetryNeverDropped(c: Config, s: State, i: nat)
    requires ValidConfig(c) && Reachable(c, s)
    requires RetryRecorded(s.db.history, i) || RetryScheduled(s.ps.workers, i)
    ensures i < |s.rs.stream|
    ensures || MemberOf(s.rs.stream, i) in s.rs.zset
            || exists j :: i < j < |s.rs.stream| && s.rs.stream[j] == MemberOf(s.rs.stream, i)
  {
    ReachableInv(c, s);
    RetryContinued(c, s, i);
    if MemberOf(s.rs.stream, i) !in s.rs.zset {
      var j :| 0 <= j < |s.rs.stream| && s.rs.stream[j] == MemberOf(s.rs.stream, i);
      ChildIsYounger(c, s, i, j);
    }
  }
}
