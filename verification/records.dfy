/** What the tables and the batches in memory look like in every reachable state. */
module Records {
  import opened Text
  import opened Effects
  import opened Protocol
  import opened Safety
  import opened Conservation
  import opened Ordering
  import opened OutboxRunner

  // ---- The parts -----------------------------------------------------------------------

  /** An open record is not stamped; a redriven one carries the time of a REDRIVEN row. */
  ghost predicate StampOk(db: Db, e: string)
    requires e in db.dlq
  {
    if db.dlq[e].status.Open? then db.dlq[e].redrivenAt.None?
    else db.dlq[e].redrivenAt.Some? && HasRedrive(db.history, e, db.dlq[e].redrivenAt.value)
  }

  ghost predicate HasRedrive(history: seq<Row>, e: string, at: nat) {
    exists k :: 0 <= k < |history| && IsRedrive(history[k], e) && history[k].at == at
  }

  ghost predicate StampsOk(db: Db) {
    forall e :: e in db.dlq ==> StampOk(db, e)
  }

  /** One STORED and one PENDING_PUBLICATION row per event, none without. */
  ghost predicate ArrivedOnce(db: Db, e: string) {
    && Tally(db.history, e, Stored) == (if e in db.events then 1 else 0)
    && Tally(db.history, e, PendingPublication) == (if e in db.events then 1 else 0)
  }

  ghost predicate StoredFirst(a: Row, b: Row) {
    a.event == b.event && a.status.Stored? && b.status.PendingPublication? ==> a.at == b.at && a.id < b.id
  }

  ghost predicate ArrivalOrder(history: seq<Row>) {
    forall k, l :: 0 <= k < |history| && 0 <= l < |history| ==> StoredFirst(history[k], history[l])
  }

  ghost predicate UniqueRowIds(history: seq<Row>) {
    forall k, l :: 0 <= k < l < |history| ==> history[k].id != history[l].id
  }

  /** A worker never holds more than ten messages, a pump never more than fifty members. */
  ghost predicate BatchesOk(ps: Procs) {
    && (forall w :: w in ps.workers ==> |ps.workers[w].todo| <= 10)
    && (forall k :: k in ps.pumps ==> |ps.pumps[k].todo| <= 50)
  }

  /** A message from the outbox names the row it came from. */
  ghost predicate NamesRow(outbox: map<string, OutboxRow>, v: Values) {
    OutboxId in v ==> EventOf(v) in outbox && v[OutboxId] == outbox[EventOf(v)].outboxId
  }

  ghost predicate RowsNamed(outbox: map<string, OutboxRow>, stream: seq<Values>) {
    forall i :: 0 <= i < |stream| ==> NamesRow(outbox, stream[i])
  }

  /** A message marked as a redrive is about an event that was dead-lettered. */
  ghost predicate Backed(dead: set<string>, v: Values) {
    RedriveMark in v ==> EventOf(v) in dead
  }

  ghost predicate AllBacked(dead: set<string>, stream: seq<Values>) {
    forall i :: 0 <= i < |stream| ==> Backed(dead, stream[i])
  }

  ghost predicate Tidy(s: State) {
    && StampsOk(s.db)
    && (forall e :: ArrivedOnce(s.db, e))
    && ArrivalOrder(s.db.history)
    && UniqueRowIds(s.db.history)
    && BatchesOk(s.ps)
    && RowsNamed(s.db.outbox, s.rs.stream)
    && AllBacked(s.db.dlq.Keys, s.rs.stream)
  }

  // ---- Steps ---------------------------------------------------------------------------

  lemma HasRedriveGrows(a: seq<Row>, b: seq<Row>, e: string, at: nat)
    requires a <= b && HasRedrive(a, e, at)
    ensures HasRedrive(b, e, at)
  {
    var k :| 0 <= k < |a| && IsRedrive(a[k], e) && a[k].at == at;
    assert b[k] == a[k];
  }

  /** How one record changes. */
  lemma RecordStep(c: Config, s: State, a: Action, e: string)
    requires Enabled(c, s, a) && e in Apply(c, s, a).db.dlq
    ensures var db' := Apply(c, s, a).db;
            || (e in s.db.dlq && db'.dlq[e] == s.db.dlq[e])
            || (db'.dlq[e].status.Open? && db'.dlq[e].redrivenAt.None?)
            || (db'.dlq[e].status.RedrivenDlq? && db'.dlq[e].redrivenAt.Some?
                && HasRedrive(db'.history, e, db'.dlq[e].redrivenAt.value))
  {
    match a {
      case World(_) =>
      case Publish(_, _) =>
      case Work(w, work) => WorkerRecordStep(c, s, w, work, e);
      case Pumping(_, _) =>
      case Operate(d, operate) => RedriveRecordStep(s, d, operate, e);
    }
  }

  lemma WorkerRecordStep(c: Config, s: State, w: nat, a: WorkerAction, e: string)
    requires WorkerEnabled(c, s, w, a) && e in WorkerStep(c, s, w, a).db.dlq
    ensures var db' := WorkerStep(c, s, w, a).db;
            || (e in s.db.dlq && db'.dlq[e] == s.db.dlq[e])
            || (db'.dlq[e].status.Open? && db'.dlq[e].redrivenAt.None?)
  {
  }

  lemma RedriveRecordStep(s: State, d: string, a: RedriveAction, e: string)
    requires RedriveEnabled(s, d, a) && e in RedriveStep(s, d, a).db.dlq
    ensures var db' := RedriveStep(s, d, a).db;
            || (e in s.db.dlq && db'.dlq[e] == s.db.dlq[e])
            || (db'.dlq[e].status.RedrivenDlq? && db'.dlq[e].redrivenAt.Some?
                && HasRedrive(db'.history, e, db'.dlq[e].redrivenAt.value))
  {
    if a.CommitRedrive? && !a.f.Lost? && d == e {
      var h := RedriveStep(s, d, a).db.history;
      assert IsRedrive(h[|s.db.history|], e);
    }
  }

  lemma StampsKept(c: Config, s: State, a: Action)
    requires StampsOk(s.db) && Enabled(c, s, a)
    ensures StampsOk(Apply(c, s, a).db)
  {
    var db' := Apply(c, s, a).db;
    StepGrows(c, s, a);
    forall e | e in db'.dlq ensures StampOk(db', e) {
      RecordStep(c, s, a, e);
      if e in s.db.dlq && db'.dlq[e] == s.db.dlq[e] && s.db.dlq[e].redrivenAt.Some? {
        assert StampOk(s.db, e);
        HasRedriveGrows(s.db.history, db'.history, e, s.db.dlq[e].redrivenAt.value);
      }
    }
  }

  lemma NewArrivalRows(c: Config, s: State, a: Action, e: string)
    requires Enabled(c, s, a)
    ensures var added := if a.World? && a.world.Ingest? && a.world.event == e then 1 else 0;
            && RowsOf(NewRows(c, s, a), e, Stored) == added
            && RowsOf(NewRows(c, s, a), e, PendingPublication) == added
            && (added == 1 ==> e !in s.db.events)
            && (e in Apply(c, s, a).db.events <==> e in s.db.events || added == 1)
  {
  }

  lemma ArrivedKept(c: Config, s: State, a: Action, e: string)
    requires ArrivedOnce(s.db, e) && Enabled(c, s, a)
    ensures ArrivedOnce(Apply(c, s, a).db, e)
  {
    TallyStep(c, s, a, e);
    NewArrivalRows(c, s, a, e);
  }

  /** The new rows of a step come with unused IDs, and those of one ingestion in order. */
  lemma NewRowIds(c: Config, s: State, a: Action)
    requires Enabled(c, s, a)
    ensures forall k :: 0 <= k < |NewRows(c, s, a)| ==> FreshRowId(s.db, NewRows(c, s, a)[k].id)
    ensures |NewRows(c, s, a)| == 2 ==>
              var rows := NewRows(c, s, a);
              && rows[0].id < rows[1].id && rows[0].status.Stored? && rows[1].status.PendingPublication?
              && rows[0].at == rows[1].at && rows[0].event == rows[1].event && rows[0].event !in s.db.events
    ensures |NewRows(c, s, a)| == 1 ==>
              !NewRows(c, s, a)[0].status.Stored? && !NewRows(c, s, a)[0].status.PendingPublication?
  {
  }

  lemma IdsKept(c: Config, s: State, a: Action)
    requires UniqueRowIds(s.db.history) && Enabled(c, s, a)
    ensures UniqueRowIds(Apply(c, s, a).db.history)
  {
    HistoryStep(c, s, a);
    NewRowIds(c, s, a);
  }

  lemma OrderKept(c: Config, s: State, a: Action)
    requires ArrivalOrder(s.db.history) && RowsOk(s.db, s.rs.stream, s.rs.zset) && Enabled(c, s, a)
    ensures ArrivalOrder(Apply(c, s, a).db.history)
  {
    var h, rows := s.db.history, NewRows(c, s, a);
    HistoryStep(c, s, a);
    NewRowIds(c, s, a);
    var h' := h + rows;
    forall k, l | 0 <= k < |h'| && 0 <= l < |h'| ensures StoredFirst(h'[k], h'[l]) {
      if k < |h| {
        assert RowOk(s.db, s.rs.stream, s.rs.zset, h[k]);
      }
      if l < |h| {
        assert RowOk(s.db, s.rs.stream, s.rs.zset, h[l]);
      }
      if k < |h| && l < |h| {
        assert StoredFirst(h[k], h[l]);
      }
    }
  }

  lemma BatchesKept(c: Config, s: State, a: Action)
    requires BatchesOk(s.ps) && Enabled(c, s, a)
    ensures BatchesOk(Apply(c, s, a).ps)
  {
    match a {
      case World(_) =>
      case Publish(_, _) =>
      case Work(w, work) => WorkerBatches(c, s, w, work);
      case Pumping(_, _) =>
      case Operate(_, _) =>
    }
  }

  lemma WorkerBatches(c: Config, s: State, w: nat, a: WorkerAction)
    requires BatchesOk(s.ps) && WorkerEnabled(c, s, w, a)
    ensures BatchesOk(WorkerStep(c, s, w, a).ps)
  {
  }

  ghost predicate OutboxIdsKept(outbox: map<string, OutboxRow>, outbox': map<string, OutboxRow>) {
    forall e :: e in outbox ==> e in outbox' && outbox'[e].outboxId == outbox[e].outboxId
  }

  lemma PublisherIdsStep(c: Config, s: State, p: nat, a: PublisherAction)
    requires PublisherEnabled(s, p, a)
    ensures OutboxIdsKept(s.db.outbox, PublisherStep(c, s, p, a).db.outbox)
  {
  }

  /** Rows of the outbox keep their IDs. */
  lemma OutboxIdsStep(c: Config, s: State, a: Action)
    requires IdsOk(s.db) && Enabled(c, s, a)
    ensures OutboxIdsKept(s.db.outbox, Apply(c, s, a).db.outbox)
  {
    if a.Publish? {
      PublisherIdsStep(c, s, a.p, a.publish);
    } else {
      OthersLeaveOutbox(c, s, a);
    }
  }

  /** A step appends nothing, or one message that names its row. */
  ghost predicate AppendsNamed(outbox: map<string, OutboxRow>, stream: seq<Values>, stream': seq<Values>) {
    && stream <= stream' && |stream'| <= |stream| + 1
    && (|stream'| > |stream| ==> NamesRow(outbox, stream'[|stream|]))
  }

  lemma PublisherNames(c: Config, s: State, p: nat, a: PublisherAction)
    requires IdsOk(s.db) && PublisherEnabled(s, p, a)
    ensures AppendsNamed(s.db.outbox, s.rs.stream, PublisherStep(c, s, p, a).rs.stream)
  {
  }

  lemma PumpNames(c: Config, s: State, k: nat, a: PumpAction)
    requires PumpsOk(c, s.rs.stream, s.ps.pumps) && RowsNamed(s.db.outbox, s.rs.stream) && PumpEnabled(s, k, a)
    ensures AppendsNamed(s.db.outbox, s.rs.stream, PumpStep(s, k, a).rs.stream)
  {
    if a.Republish? {
      assert PumpOk(c, s.rs.stream, s.ps.pumps[k]);
      MemberNamed(c, s, s.ps.pumps[k].todo[0]);
    }
  }

  lemma OthersName(c: Config, s: State, a: Action)
    requires Enabled(c, s, a) && !a.Publish? && !a.Pumping?
    ensures AppendsNamed(s.db.outbox, s.rs.stream, Apply(c, s, a).rs.stream)
  {
  }

  lemma NewEntryNamed(c: Config, s: State, a: Action)
    requires Inv(c, s) && Enabled(c, s, a) && RowsNamed(s.db.outbox, s.rs.stream)
    ensures AppendsNamed(s.db.outbox, s.rs.stream, Apply(c, s, a).rs.stream)
  {
    match a {
      case Publish(p, publish) => PublisherNames(c, s, p, publish);
      case Pumping(k, pumping) => PumpNames(c, s, k, pumping);
      case _ => OthersName(c, s, a);
    }
  }

  lemma MemberNamed(c: Config, s: State, m: Values)
    requires Derived(c, s.rs.stream, |s.rs.stream|, m) && RowsNamed(s.db.outbox, s.rs.stream)
    ensures NamesRow(s.db.outbox, m)
  {
    var i: nat :| i < |s.rs.stream| && m == MemberOf(s.rs.stream, i);
    assert NamesRow(s.db.outbox, s.rs.stream[i]);
  }

  lemma NamesKeptByStep(c: Config, s: State, a: Action)
    requires Inv(c, s) && Enabled(c, s, a) && RowsNamed(s.db.outbox, s.rs.stream)
    ensures RowsNamed(Apply(c, s, a).db.outbox, Apply(c, s, a).rs.stream)
  {
    var s' := Apply(c, s, a);
    OutboxIdsStep(c, s, a);
    NewEntryNamed(c, s, a);
    forall i | 0 <= i < |s'.rs.stream| ensures NamesRow(s'.db.outbox, s'.rs.stream[i]) {
      if i < |s.rs.stream| {
        assert NamesRow(s.db.outbox, s.rs.stream[i]);
      }
    }
  }

  /** A step appends nothing, or one message that is backed. */
  ghost predicate AppendsBacked(dead: set<string>, stream: seq<Values>, stream': seq<Values>) {
    && stream <= stream' && |stream'| <= |stream| + 1
    && (|stream'| > |stream| ==> Backed(dead, stream'[|stream|]))
  }

  lemma MemberBacked(c: Config, s: State, m: Values)
    requires Derived(c, s.rs.stream, |s.rs.stream|, m) && AllBacked(s.db.dlq.Keys, s.rs.stream)
    ensures Backed(s.db.dlq.Keys, m)
  {
    var i: nat :| i < |s.rs.stream| && m == MemberOf(s.rs.stream, i);
    assert Backed(s.db.dlq.Keys, s.rs.stream[i]);
  }

  lemma PumpBacked(c: Config, s: State, k: nat, a: PumpAction)
    requires PumpsOk(c, s.rs.stream, s.ps.pumps) && AllBacked(s.db.dlq.Keys, s.rs.stream) && PumpEnabled(s, k, a)
    ensures AppendsBacked(s.db.dlq.Keys, s.rs.stream, PumpStep(s, k, a).rs.stream)
  {
    if a.Republish? {
      assert PumpOk(c, s.rs.stream, s.ps.pumps[k]);
      MemberBacked(c, s, s.ps.pumps[k].todo[0]);
    }
  }

  lemma RedriveBacked(s: State, e: string, a: RedriveAction)
    requires IdsOk(s.db) && DlqOk(s.db, s.rs.stream, s.ps.redrives) && RedriveEnabled(s, e, a)
    ensures AppendsBacked(s.db.dlq.Keys, s.rs.stream, RedriveStep(s, e, a).rs.stream)
  {
    if a.AppendRedrive? {
      assert RedriveOk(s.db, s.rs.stream, e, s.ps.redrives[e]);
    }
  }

  lemma OthersBacked(c: Config, s: State, a: Action)
    requires Enabled(c, s, a) && !a.Operate? && !a.Pumping?
    ensures AppendsBacked(s.db.dlq.Keys, s.rs.stream, Apply(c, s, a).rs.stream)
  {
  }

  lemma BackedKept(c: Config, s: State, a: Action)
    requires Inv(c, s) && Enabled(c, s, a) && AllBacked(s.db.dlq.Keys, s.rs.stream)
    ensures AllBacked(Apply(c, s, a).db.dlq.Keys, Apply(c, s, a).rs.stream)
  {
    match a {
      case Pumping(k, pumping) => PumpBacked(c, s, k, pumping);
      case Operate(e, operate) => RedriveBacked(s, e, operate);
      case _ => OthersBacked(c, s, a);
    }
    StepGrows(c, s, a);
    BackedGrows(s.db.dlq.Keys, s.rs.stream, Apply(c, s, a).db.dlq.Keys, Apply(c, s, a).rs.stream);
  }

  lemma BackedGrows(dead: set<string>, stream: seq<Values>, dead': set<string>, stream': seq<Values>)
    requires AllBacked(dead, stream) && AppendsBacked(dead, stream, stream') && dead <= dead'
    ensures AllBacked(dead', stream')
  {
    forall i | 0 <= i < |stream'| ensures Backed(dead', stream'[i]) {
      if i < |stream| {
        assert Backed(dead, stream[i]);
      }
    }
  }

  lemma StepTidy(c: Config, s: State, a: Action)
    requires Inv(c, s) && Tidy(s) && Enabled(c, s, a)
    ensures Tidy(Apply(c, s, a))
  {
    StampsKept(c, s, a);
    forall e ensures ArrivedOnce(Apply(c, s, a).db, e) {
      ArrivedKept(c, s, a, e);
    }
    OrderKept(c, s, a);
    IdsKept(c, s, a);
    BatchesKept(c, s, a);
    NamesKeptByStep(c, s, a);
    BackedKept(c, s, a);
  }

  lemma {:induction false} RunTidy(c: Config, s: State, acts: seq<Action>, s': State)
    requires ValidConfig(c) && Inv(c, s) && Tidy(s) && Runs(c, s, acts, s')
    ensures Tidy(s')
    decreases |acts|
  {
    if acts != [] {
      StepKeeps(c, s, acts[0]);
      StepTidy(c, s, acts[0]);
      RunTidy(c, Apply(c, s, acts[0]), acts[1..], s');
    }
  }

  lemma ReachableTidy(c: Config, s: State)
    requires ValidConfig(c) && Reachable(c, s)
    ensures Tidy(s)
  {
    var t: nat, acts :| Runs(c, Init(t), acts, s);
    InitInv(c, t);
    assert Tidy(Init(t));
    RunTidy(c, Init(t), acts, s);
  }

  // ---- Results -------------------------------------------------------------------------

  /** A DLQ record is stamped exactly when it is redriven, with the time of a REDRIVEN row. */
  lemma RecordStamped(c: Config, s: State, e: string)
    requires ValidConfig(c) && Reachable(c, s) && e in s.db.dlq
    ensures s.db.dlq[e].redrivenAt.Some? <==> s.db.dlq[e].status.RedrivenDlq?
    ensures s.db.dlq[e].redrivenAt.Some? ==>
              exists k :: 0 <= k < |s.db.history| && s.db.history[k].event == e && s.db.history[k].status.Redriven?
                          && s.db.history[k].at == s.db.dlq[e].redrivenAt.value
  {
    ReachableTidy(c, s);
    assert StampOk(s.db, e);
    if s.db.dlq[e].redrivenAt.Some? {
      var k :| 0 <= k < |s.db.history| && IsRedrive(s.db.history[k], e)
        && s.db.history[k].at == s.db.dlq[e].redrivenAt.value;
    }
  }

  /** Every event has exactly one STORED and one PENDING_PUBLICATION row, which read in that order; row
      IDs are unique; batches are bounded; messages from the outbox name their row; and only events that
      were dead-lettered have messages marked as redrives. */
  lemma TablesTidy(c: Config, s: State)
    requires ValidConfig(c) && Reachable(c, s)
    ensures forall e :: e in s.db.events ==>
              Tally(s.db.history, e, Stored) == 1 && Tally(s.db.history, e, PendingPublication) == 1
    ensures forall k, l :: 0 <= k < |s.db.history| && 0 <= l < |s.db.history| && s.db.history[k].status.Stored?
              && s.db.history[l].status.PendingPublication? && s.db.history[k].event == s.db.history[l].event
              ==> Before(s.db.history[k], s.db.history[l])
    ensures forall k, l :: 0 <= k < l < |s.db.history| ==> s.db.history[k].id != s.db.history[l].id
    ensures forall w :: w in s.ps.workers ==> |s.ps.workers[w].todo| <= 10
    ensures forall k :: k in s.ps.pumps ==> |s.ps.pumps[k].todo| <= 50
    ensures forall i :: 0 <= i < |s.rs.stream| && OutboxId in s.rs.stream[i] ==>
              EventOf(s.rs.stream[i]) in s.db.outbox
              && s.rs.stream[i][OutboxId] == s.db.outbox[EventOf(s.rs.stream[i])].outboxId
    ensures forall i :: 0 <= i < |s.rs.stream| && RedriveMark in s.rs.stream[i] ==> EventOf(s.rs.stream[i]) in s.db.dlq
  {
    ReachableTidy(c, s);
    forall e | e in s.db.events
      ensures Tally(s.db.history, e, Stored) == 1 && Tally(s.db.history, e, PendingPublication) == 1 {
      assert ArrivedOnce(s.db, e);
    }
    forall k, l | 0 <= k < |s.db.history| && 0 <= l < |s.db.history| && s.db.history[k].status.Stored?
      && s.db.history[l].status.PendingPublication? && s.db.history[k].event == s.db.history[l].event
      ensures Before(s.db.history[k], s.db.history[l]) {
      assert StoredFirst(s.db.history[k], s.db.history[l]);
    }
    forall i | 0 <= i < |s.rs.stream| && OutboxId in s.rs.stream[i]
      ensures EventOf(s.rs.stream[i]) in s.db.outbox
              && s.rs.stream[i][OutboxId] == s.db.outbox[EventOf(s.rs.stream[i])].outboxId {
      assert NamesRow(s.db.outbox, s.rs.stream[i]);
    }
    forall i | 0 <= i < |s.rs.stream| && RedriveMark in s.rs.stream[i] ensures EventOf(s.rs.stream[i]) in s.db.dlq {
      assert Backed(s.db.dlq.Keys, s.rs.stream[i]);
    }
  }

  /** A stored event is due at once: its row can be claimed at the instant it was committed. */
  lemma IngestedIsDue(c: Config, s: State, a: WorldAction, p: nat)
    requires WorldEnabled(s, a) && a.Ingest? && p !in s.ps.publishers
    requires forall q :: q in s.ps.publishers ==> s.ps.publishers[q].event in s.db.events
    ensures PublisherEnabled(WorldStep(s, a), p, Claim(a.event, s.db.clock))
  {
  }
}
