/** The order in which status rows are read back, (created_at, id), against the order in which
    things happened. created_at is the start of the writing transaction, so it can precede rows
    that were committed earlier. */
module Ordering {
  import opened Text
  import opened Effects
  import opened Protocol
  import opened Safety

  /** ORDER BY created_at ASC, id ASC */
  predicate Before(a: Row, b: Row) {
    a.at < b.at || (a.at == b.at && a.id < b.id)
  }

  predicate IsArrival(row: Row, e: string) {
    row.event == e && (row.status.Stored? || row.status.PendingPublication?)
  }

  /** Rows of the event's own ingestion are older than a transaction begun at `at` that writes
      row IDs from `floor` on. */
  ghost predicate AfterArrival(db: Db, e: string, at: nat, floor: nat) {
    && e in db.events && db.events[e].createdAt <= at
    && forall k :: 0 <= k < |db.history| && IsArrival(db.history[k], e) ==> db.history[k].id < floor
  }

  predicate Later(c: Config, at: nat, t: nat) {
    at <= t && (c.strictClock ==> at < t)
  }

  ghost predicate JobsAfter(workers: map<nat, Worker>, at: nat, i: nat) {
    forall w :: w in workers && workers[w].job.Job? && workers[w].job.entry == i ==> at <= workers[w].job.since
  }

  ghost predicate ProcessingAfter(c: Config, history: seq<Row>, at: nat, i: nat) {
    forall k :: 0 <= k < |history| && history[k].status.Processing? && history[k].entry == Some(i)
      ==> Later(c, at, history[k].at)
  }

  /** Nothing has worked on entry `i` before `at`. */
  ghost predicate Untouched(c: Config, s: State, at: nat, i: nat) {
    JobsAfter(s.ps.workers, at, i) && ProcessingAfter(c, s.db.history, at, i) && i < |s.rs.stream| && at <= s.db.clock
  }

  ghost predicate PublisherTimes(c: Config, s: State, pub: Publisher) {
    && pub.at <= s.db.clock && pub.event in s.db.events && s.db.events[pub.event].createdAt <= pub.at
    && (pub.Claimed? ==> AfterArrival(s.db, pub.event, pub.at, pub.floor))
    && (pub.Appended? ==> AfterArrival(s.db, pub.event, pub.at, pub.floor) && Untouched(c, s, pub.at, pub.entry))
  }

  ghost predicate RowTimes(c: Config, s: State, row: Row) {
    && (row.status.Stored? || row.status.PendingPublication? ==>
          row.event in s.db.events && row.at == s.db.events[row.event].createdAt)
    && (row.status.Published? ==>
          && AfterArrival(s.db, row.event, row.at, row.id)
          && row.entry.Some? && Untouched(c, s, row.at, row.entry.value))
  }

  ghost predicate OutboxTimes(db: Db, e: string) {
    e in db.outbox ==> e in db.events && db.events[e].createdAt <= db.outbox[e].nextAttemptAt
  }

  ghost predicate Timed(c: Config, s: State) {
    && (forall p :: p in s.ps.publishers ==> PublisherTimes(c, s, s.ps.publishers[p]))
    && (forall k :: 0 <= k < |s.db.history| ==> RowTimes(c, s, s.db.history[k]))
    && (forall e :: OutboxTimes(s.db, e))
  }

  lemma InitTimed(c: Config, t: nat)
    ensures Timed(c, Init(t))
  {
  }

  // ---- Each step, one stamp at a time ------------------------------------------------

  /** The rows a step commits are ingestion rows of a new event, or about other things. */
  lemma NewArrivals(c: Config, s: State, a: Action, k: nat)
    requires Enabled(c, s, a) && |s.db.history| <= k < |Apply(c, s, a).db.history|
    ensures var row := Apply(c, s, a).db.history[k];
            row.status.Stored? || row.status.PendingPublication? ==>
              && row.event !in s.db.events
              && row.event in Apply(c, s, a).db.events
              && row.at == Apply(c, s, a).db.events[row.event].createdAt
  {
  }

  lemma AfterArrivalKept(c: Config, s: State, a: Action, e: string, at: nat, floor: nat)
    requires Enabled(c, s, a) && AfterArrival(s.db, e, at, floor)
    ensures AfterArrival(Apply(c, s, a).db, e, at, floor)
  {
    var db' := Apply(c, s, a).db;
    StepGrows(c, s, a);
    forall k | 0 <= k < |db'.history| && IsArrival(db'.history[k], e) ensures db'.history[k].id < floor {
      if k >= |s.db.history| {
        NewArrivals(c, s, a, k);
      } else {
        assert db'.history[k] == s.db.history[k];
      }
    }
  }

  lemma JobsAfterKept(c: Config, s: State, a: Action, at: nat, i: nat)
    requires Enabled(c, s, a) && JobsAfter(s.ps.workers, at, i) && at <= s.db.clock
    ensures JobsAfter(Apply(c, s, a).ps.workers, at, i)
  {
  }

  /** A PROCESSING row is stamped after the call that commits it began. */
  lemma NewProcessing(c: Config, s: State, a: Action, k: nat)
    requires Enabled(c, s, a) && |s.db.history| <= k < |Apply(c, s, a).db.history|
    requires Apply(c, s, a).db.history[k].status.Processing?
    ensures a.Work? && JobOf(s.ps, a.w).Job?
    ensures Apply(c, s, a).db.history[k].entry == Some(JobOf(s.ps, a.w).entry)
    ensures Later(c, JobOf(s.ps, a.w).since, Apply(c, s, a).db.history[k].at)
  {
  }

  lemma UntouchedKept(c: Config, s: State, a: Action, at: nat, i: nat)
    requires Enabled(c, s, a) && Untouched(c, s, at, i)
    ensures Untouched(c, Apply(c, s, a), at, i)
  {
    var s' := Apply(c, s, a);
    StepGrows(c, s, a);
    JobsAfterKept(c, s, a, at, i);
    forall k | 0 <= k < |s'.db.history| && s'.db.history[k].status.Processing? && s'.db.history[k].entry == Some(i)
      ensures Later(c, at, s'.db.history[k].at) {
      if k >= |s.db.history| {
        NewProcessing(c, s, a, k);
      } else {
        assert s'.db.history[k] == s.db.history[k];
      }
    }
  }

  // ---- Publishers and rows ----------------------------------------------------------

  lemma FreshEntryUntouched(c: Config, s: State, p: nat, f: Fault)
    requires Inv(c, s) && PublisherEnabled(s, p, AppendRoot(f)) && s.ps.publishers[p].at <= s.db.clock && f.Ok?
    ensures Untouched(c, PublisherStep(c, s, p, AppendRoot(f)), s.ps.publishers[p].at, |s.rs.stream|)
  {
    var i := |s.rs.stream|;
    forall w | w in s.ps.workers && s.ps.workers[w].job.Job? ensures s.ps.workers[w].job.entry != i {
      assert InGroup(s.rs.handed, s.ps.workers[w]);
    }
    forall k | 0 <= k < |s.db.history| ensures s.db.history[k].entry != Some(i) {
      assert RowOk(s.db, s.rs.stream, s.rs.zset, s.db.history[k]);
    }
  }

  lemma ClaimAfterArrival(c: Config, s: State, p: nat, e: string, at: nat)
    requires RowsOk(s.db, s.rs.stream, s.rs.zset) && OutboxTimes(s.db, e)
    requires PublisherEnabled(s, p, Claim(e, at))
    ensures AfterArrival(s.db, e, at, s.db.serial)
  {
    forall k | 0 <= k < |s.db.history| ensures s.db.history[k].id < s.db.serial {
      assert RowOk(s.db, s.rs.stream, s.rs.zset, s.db.history[k]);
    }
  }

  lemma OldPublisherTimes(c: Config, s: State, a: Action, pub: Publisher)
    requires Enabled(c, s, a) && PublisherTimes(c, s, pub)
    ensures PublisherTimes(c, Apply(c, s, a), pub)
  {
    StepGrows(c, s, a);
    if !pub.PublishFailed? {
      AfterArrivalKept(c, s, a, pub.event, pub.at, pub.floor);
    }
    if pub.Appended? {
      UntouchedKept(c, s, a, pub.at, pub.entry);
    }
  }

  lemma PublishersTimed(c: Config, s: State, a: Action, p: nat)
    requires Inv(c, s) && Timed(c, s) && Enabled(c, s, a) && p in Apply(c, s, a).ps.publishers
    ensures PublisherTimes(c, Apply(c, s, a), Apply(c, s, a).ps.publishers[p])
  {
    var s' := Apply(c, s, a);
    var pub := s'.ps.publishers[p];
    if p in s.ps.publishers && pub == s.ps.publishers[p] {
      OldPublisherTimes(c, s, a, pub);
    } else {
      PublisherMoves(c, s, a, p);
    }
  }

  lemma WhoMoves(c: Config, s: State, a: Action, p: nat)
    requires Enabled(c, s, a) && p in Apply(c, s, a).ps.publishers
    requires !(p in s.ps.publishers && Apply(c, s, a).ps.publishers[p] == s.ps.publishers[p])
    ensures a.Publish? && a.p == p && (a.publish.Claim? || a.publish.AppendRoot?)
  {
  }

  lemma ClaimTimed(c: Config, s: State, p: nat, e: string, at: nat)
    requires RowsOk(s.db, s.rs.stream, s.rs.zset) && OutboxTimes(s.db, e)
    requires PublisherEnabled(s, p, Claim(e, at))
    ensures var s' := PublisherStep(c, s, p, Claim(e, at));
            PublisherTimes(c, s', s'.ps.publishers[p])
  {
    ClaimAfterArrival(c, s, p, e, at);
  }

  lemma AppendTimed(c: Config, s: State, p: nat, f: Fault)
    requires Inv(c, s) && PublisherEnabled(s, p, AppendRoot(f)) && PublisherTimes(c, s, s.ps.publishers[p])
    ensures var s' := PublisherStep(c, s, p, AppendRoot(f));
            PublisherTimes(c, s', s'.ps.publishers[p])
  {
    OldPublisherTimes(c, s, Publish(p, AppendRoot(f)), s.ps.publishers[p]);
    if f.Ok? {
      FreshEntryUntouched(c, s, p, f);
    }
  }

  lemma PublisherMoves(c: Config, s: State, a: Action, p: nat)
    requires Inv(c, s) && Timed(c, s) && Enabled(c, s, a) && p in Apply(c, s, a).ps.publishers
    requires !(p in s.ps.publishers && Apply(c, s, a).ps.publishers[p] == s.ps.publishers[p])
    ensures PublisherTimes(c, Apply(c, s, a), Apply(c, s, a).ps.publishers[p])
  {
    WhoMoves(c, s, a, p);
    if a.publish.Claim? {
      ClaimTimed(c, s, p, a.publish.event, a.publish.at);
    } else {
      AppendTimed(c, s, p, a.publish.f);
    }
  }

  lemma OldRowTimes(c: Config, s: State, a: Action, k: nat)
    requires Timed(c, s) && Enabled(c, s, a) && k < |s.db.history|
    ensures k < |Apply(c, s, a).db.history| && RowTimes(c, Apply(c, s, a), Apply(c, s, a).db.history[k])
  {
    StepGrows(c, s, a);
    var row := s.db.history[k];
    assert Apply(c, s, a).db.history[k] == row && RowTimes(c, s, row);
    if row.status.Published? {
      AfterArrivalKept(c, s, a, row.event, row.at, row.id);
      UntouchedKept(c, s, a, row.at, row.entry.value);
    }
  }

  lemma NewPublished(c: Config, s: State, a: Action, k: nat)
    requires Enabled(c, s, a) && |s.db.history| <= k < |Apply(c, s, a).db.history|
    requires Apply(c, s, a).db.history[k].status.Published?
    ensures a.Publish? && a.p in s.ps.publishers && s.ps.publishers[a.p].Appended?
    ensures var row := Apply(c, s, a).db.history[k];
            var pub := s.ps.publishers[a.p];
            row.event == pub.event && row.at == pub.at && row.entry == Some(pub.entry) && pub.floor <= row.id
  {
  }

  lemma NewRowTimes(c: Config, s: State, a: Action, k: nat)
    requires Timed(c, s) && Enabled(c, s, a) && |s.db.history| <= k < |Apply(c, s, a).db.history|
    ensures RowTimes(c, Apply(c, s, a), Apply(c, s, a).db.history[k])
  {
    var s' := Apply(c, s, a);
    NewArrivals(c, s, a, k);
    if s'.db.history[k].status.Published? {
      NewPublished(c, s, a, k);
      var pub := s.ps.publishers[a.p];
      assert PublisherTimes(c, s, pub);
      AfterArrivalKept(c, s, a, pub.event, pub.at, pub.floor);
      UntouchedKept(c, s, a, pub.at, pub.entry);
    }
  }

  lemma OutboxTimesKept(c: Config, s: State, a: Action, e: string)
    requires IdsOk(s.db) && OutboxTimes(s.db, e) && Enabled(c, s, a)
    requires a.Publish? && a.publish.CommitReschedule? ==>
               s.ps.publishers[a.p].event in s.db.events
               && s.db.events[s.ps.publishers[a.p].event].createdAt <= s.ps.publishers[a.p].at
    ensures OutboxTimes(Apply(c, s, a).db, e)
  {
  }

  lemma StepTimed(c: Config, s: State, a: Action)
    requires Inv(c, s) && Timed(c, s) && Enabled(c, s, a)
    ensures Timed(c, Apply(c, s, a))
  {
    var s' := Apply(c, s, a);
    forall p | p in s'.ps.publishers ensures PublisherTimes(c, s', s'.ps.publishers[p]) {
      PublishersTimed(c, s, a, p);
    }
    forall k | 0 <= k < |s'.db.history| ensures RowTimes(c, s', s'.db.history[k]) {
      if k < |s.db.history| {
        OldRowTimes(c, s, a, k);
      } else {
        NewRowTimes(c, s, a, k);
      }
    }
    if a.Publish? && a.publish.CommitReschedule? {
      assert PublisherTimes(c, s, s.ps.publishers[a.p]);
    }
    forall e ensures OutboxTimes(s'.db, e) {
      OutboxTimesKept(c, s, a, e);
    }
  }

  lemma {:induction false} RunTimed(c: Config, s: State, acts: seq<Action>, s': State)
    requires ValidConfig(c) && Inv(c, s) && Timed(c, s) && Runs(c, s, acts, s')
    ensures Timed(c, s')
    decreases |acts|
  {
    if acts != [] {
      StepKeeps(c, s, acts[0]);
      StepTimed(c, s, acts[0]);
      RunTimed(c, Apply(c, s, acts[0]), acts[1..], s');
    }
  }

  lemma ReachableTimed(c: Config, s: State)
    requires ValidConfig(c) && Reachable(c, s)
    ensures Timed(c, s)
  {
    var t: nat, acts :| Runs(c, Init(t), acts, s);
    InitInv(c, t);
    InitTimed(c, t);
    RunTimed(c, Init(t), acts, s);
  }

  /** PUBLISHED always reads back after the rows of the event's ingestion, although the
      transaction that wrote it may have begun before the ingestion committed. */
  lemma PublishedAfterArrival(c: Config, s: State, k: nat, r: nat)
    requires ValidConfig(c) && Reachable(c, s)
    requires k < |s.db.history| && r < |s.db.history|
    requires s.db.history[r].status.Published? && IsArrival(s.db.history[k], s.db.history[r].event)
    ensures Before(s.db.history[k], s.db.history[r])
  {
    ReachableTimed(c, s);
    assert RowTimes(c, s, s.db.history[k]) && RowTimes(c, s, s.db.history[r]);
  }

  /** PUBLISHED never carries a later stamp than a PROCESSING row of the entry its own
      transaction appended, and reads back strictly before it whenever the database clock
      advances between any two readings, whichever of the two was committed first. */
  lemma PublishedBeforeProcessing(c: Config, s: State, r: nat, k: nat)
    requires ValidConfig(c) && Reachable(c, s)
    requires k < |s.db.history| && r < |s.db.history|
    requires s.db.history[r].status.Published? && s.db.history[k].status.Processing?
    requires s.db.history[k].entry == s.db.history[r].entry
    ensures s.db.history[r].at <= s.db.history[k].at
    ensures c.strictClock ==> Before(s.db.history[r], s.db.history[k])
  {
    ReachableTimed(c, s);
    assert RowTimes(c, s, s.db.history[r]);
  }

  // ---- Reading a history back --------------------------------------------------------

  function Insert(row: Row, rows: seq<Row>): seq<Row> {
    if rows == [] || Before(row, rows[0]) then [row] + rows
    else [rows[0]] + Insert(row, rows[1..])
  }

  /** fetchStatusHistory: the rows of one event ordered by (created_at, id). */
  function Readback(history: seq<Row>, e: string): seq<Row> {
    if history == [] then []
    else
      var rest := Readback(history[..|history| - 1], e);
      var row := history[|history| - 1];
      if row.event == e then Insert(row, rest) else rest
  }

  ghost predicate InOrder(rows: seq<Row>) {
    forall i, j :: 0 <= i < j < |rows| ==> !Before(rows[j], rows[i])
  }

  function RowsOfEvent(history: seq<Row>, e: string): seq<Row> {
    if history == [] then []
    else
      var row := history[|history| - 1];
      RowsOfEvent(history[..|history| - 1], e) + if row.event == e then [row] else []
  }

  lemma {:induction false} InsertFacts(row: Row, rows: seq<Row>, x: Row)
    ensures x in Insert(row, rows) <==> x == row || x in rows
    ensures |Insert(row, rows)| == |rows| + 1
  {
    if rows != [] && !Before(row, rows[0]) {
      InsertFacts(row, rows[1..], x);
      assert rows == [rows[0]] + rows[1..];
    }
  }

  lemma {:induction false} InsertSorted(row: Row, rows: seq<Row>)
    requires InOrder(rows)
    ensures InOrder(Insert(row, rows)) && multiset(Insert(row, rows)) == multiset(rows) + multiset{row}
  {
    if rows == [] || Before(row, rows[0]) {
      assert multiset([row] + rows) == multiset{row} + multiset(rows);
      InsertFirst(row, rows);
    } else {
      var rest := Insert(row, rows[1..]);
      assert rows == [rows[0]] + rows[1..];
      InsertSorted(row, rows[1..]);
      forall x | x in rest ensures !Before(x, rows[0]) {
        InsertFacts(row, rows[1..], x);
        if x in rows[1..] {
          var k :| 0 <= k < |rows[1..]| && rows[1..][k] == x;
          assert rows[k + 1] == x;
        }
      }
      FirstInOrder(rows[0], rest);
    }
  }

  lemma FirstInOrder(first: Row, rest: seq<Row>)
    requires InOrder(rest) && forall x :: x in rest ==> !Before(x, first)
    ensures InOrder([first] + rest)
  {
    var rows := [first] + rest;
    forall i, j | 0 <= i < j < |rows| ensures !Before(rows[j], rows[i]) {
      assert rows[j] == rest[j - 1];
    }
  }

  lemma InsertFirst(row: Row, rows: seq<Row>)
    requires InOrder(rows) && (rows == [] || Before(row, rows[0]))
    ensures InOrder([row] + rows)
  {
    forall x | x in rows ensures !Before(x, row) {
      var k :| 0 <= k < |rows| && rows[k] == x;
      assert k > 0 ==> !Before(rows[k], rows[0]);
    }
    FirstInOrder(row, rows);
  }

  /** Reading back sorts: the rows of the event, each as often as it was committed, in order. */
  lemma {:induction false} ReadbackSorts(history: seq<Row>, e: string)
    ensures InOrder(Readback(history, e)) && multiset(Readback(history, e)) == multiset(RowsOfEvent(history, e))
  {
    if history != [] {
      var front, row := history[..|history| - 1], history[|history| - 1];
      ReadbackSorts(front, e);
      if row.event == e {
        InsertSorted(row, Readback(front, e));
      }
    }
  }

  lemma {:induction false} ReadbackMembers(history: seq<Row>, e: string, x: Row)
    ensures x in Readback(history, e) <==> x in history && x.event == e
  {
    if history != [] {
      var front, row := history[..|history| - 1], history[|history| - 1];
      ReadbackMembers(front, e, x);
      assert history == front + [row];
      if row.event == e {
        InsertFacts(row, Readback(front, e), x);
      }
    }
  }

  lemma PositionsFollow(rows: seq<Row>, p: nat, q: nat)
    requires InOrder(rows) && p < |rows| && q < |rows| && Before(rows[p], rows[q])
    ensures p < q
  {
  }

  /** Whoever reads the history finds STORED and PENDING_PUBLICATION before PUBLISHED. */
  lemma ArrivalReadsFirst(c: Config, s: State, e: string, p: nat, q: nat)
    requires ValidConfig(c) && Reachable(c, s)
    requires var rows := Readback(s.db.history, e);
             p < |rows| && q < |rows| && IsArrival(rows[p], e) && rows[q].status.Published?
    ensures p < q
  {
    var rows := Readback(s.db.history, e);
    var k := CommittedAt(s.db.history, e, p);
    var r := CommittedAt(s.db.history, e, q);
    PublishedAfterArrival(c, s, k, r);
    ReadbackSorts(s.db.history, e);
    PositionsFollow(rows, p, q);
  }

  /** And PUBLISHED before every PROCESSING of the entry that the publication appended. */
  lemma PublishedReadsFirst(c: Config, s: State, e: string, p: nat, q: nat)
    requires ValidConfig(c) && Reachable(c, s) && c.strictClock
    requires var rows := Readback(s.db.history, e);
             p < |rows| && q < |rows| && rows[p].status.Published? && rows[q].status.Processing?
             && rows[p].entry == rows[q].entry
    ensures p < q
  {
    var rows := Readback(s.db.history, e);
    var r := CommittedAt(s.db.history, e, p);
    var k := CommittedAt(s.db.history, e, q);
    PublishedBeforeProcessing(c, s, r, k);
    ReadbackSorts(s.db.history, e);
    PositionsFollow(rows, p, q);
  }

  lemma CommittedAt(history: seq<Row>, e: string, p: nat) returns (k: nat)
    requires p < |Readback(history, e)|
    ensures k < |history| && history[k] == Readback(history, e)[p] && history[k].event == e
  {
    var row := Readback(history, e)[p];
    assert row in Readback(history, e);
    ReadbackMembers(history, e, row);
    k :| 0 <= k < |history| && history[k] == row;
  }
}
