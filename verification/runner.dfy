/** The outbox runner (internal/outbox/runner.go): how long it may go on without waiting. */
module OutboxRunner {
  import opened Protocol
  import opened Safety
  import opened Sums
  import Backoff

  function Eligible(rows: map<string, OutboxRow>, now: nat): set<string> {
    set e | e in rows && !rows[e].published && rows[e].nextAttemptAt <= now
  }

  // ---- When a failed row rests ---------------------------------------------------------

  /** A failed row is left alone for the rest of the instant, whatever its history, if and only
      if the base backoff reaches the microsecond that the column can express. */
  lemma RestsIff(c: Config)
    requires ValidConfig(c)
    ensures (forall row: OutboxRow, at: nat :: Rescheduled(c, row, at).nextAttemptAt > at) <==> c.baseBackoff >= 1000
  {
    if c.baseBackoff >= 1000 {
      forall row: OutboxRow, at: nat ensures Rescheduled(c, row, at).nextAttemptAt > at {
        Backoff.CappedMonotone(c.baseBackoff, c.maxBackoff, 1, row.attemptCount + 1);
      }
    } else {
      assert Backoff.Pow2(0) == 1;
      var row := OutboxRow("", false, 0, 0, 0);
      assert Rescheduled(c, row, 0).nextAttemptAt == 0;
    }
  }

  /** A row that keeps failing at one instant rests at last if and only if the maximum backoff
      reaches a microsecond, and then after at most ten failures. */
  lemma RestsAtLastIff(c: Config, row: OutboxRow, at: nat)
    requires ValidConfig(c)
    ensures c.maxBackoff >= 1000 && row.attemptCount >= 10 ==> Rescheduled(c, row, at).nextAttemptAt > at
    ensures c.maxBackoff < 1000 ==> Rescheduled(c, row, at).nextAttemptAt == at
  {
    if c.maxBackoff >= 1000 && row.attemptCount >= 10 {
      TenDoublings();
      Backoff.ProductMonotone(c.baseBackoff, 10, row.attemptCount);
      Backoff.MulMonotone(1024, 1, c.baseBackoff);
    }
  }

  lemma TenDoublings()
    ensures Backoff.Pow2(10) == 1024
  {
    assert Backoff.Pow2(3) == 8;
    assert Backoff.Pow2(6) == 64;
    assert Backoff.Pow2(9) == 512;
  }

  // ---- The claim -----------------------------------------------------------------------

  /** What one call of publishNext reports. */
  datatype Report = Nothing | Found | PublishFailed | OtherError

  /** ORDER BY next_attempt_at ASC, created_at ASC */
  predicate NotAfter(a: OutboxRow, b: OutboxRow) {
    a.nextAttemptAt < b.nextAttemptAt || (a.nextAttemptAt == b.nextAttemptAt && a.createdAt <= b.createdAt)
  }

  predicate FirstOf(rows: map<string, OutboxRow>, due: set<string>, e: string)
    requires due <= rows.Keys && e in due
  {
    forall x :: x in due ==> NotAfter(rows[e], rows[x])
  }

  lemma {:induction false} FirstExists(rows: map<string, OutboxRow>, due: set<string>) returns (e: string)
    requires due != {} && due <= rows.Keys
    ensures e in due && FirstOf(rows, due, e)
    decreases |due|
  {
    e :| e in due;
    if due != {e} {
      var f := FirstExists(rows, due - {e});
      if NotAfter(rows[f], rows[e]) {
        e := f;
      }
    }
  }

  // ---- Credit ----------------------------------------------------------------------------

  /** How many calls a due row may still cost at this instant: one, and one for each failure after
      which a backoff below a microsecond leaves it due. */
  function Credit(c: Config, row: OutboxRow): nat {
    if c.baseBackoff >= 1000 || row.attemptCount >= 10 then 1 else 11 - row.attemptCount
  }

  ghost function Debt(c: Config, rows: map<string, OutboxRow>, now: nat): nat {
    SumSet(Eligible(rows, now), e => if e in rows then Credit(c, rows[e]) else 0)
  }

  /** From a base of a microsecond on, the debt is the number of due rows. */
  lemma {:induction false} DebtIsCount(c: Config, due: set<string>, rows: map<string, OutboxRow>)
    requires c.baseBackoff >= 1000 && due <= rows.Keys
    ensures SumSet(due, e => if e in rows then Credit(c, rows[e]) else 0) == |due|
    decreases |due|
  {
    if e :| e in due {
      SumSetTake(due, e, x => if x in rows then Credit(c, rows[x]) else 0);
      DebtIsCount(c, due - {e}, rows);
    }
  }

  /** And it is never more than eleven calls per due row. */
  lemma {:induction false} DebtBounded(c: Config, due: set<string>, rows: map<string, OutboxRow>)
    ensures SumSet(due, e => if e in rows then Credit(c, rows[e]) else 0) <= 11 * |due|
    decreases |due|
  {
    if e :| e in due {
      SumSetTake(due, e, x => if x in rows then Credit(c, rows[x]) else 0);
      DebtBounded(c, due - {e}, rows);
    }
  }

  /** A call that publishes the row or records its failure pays for itself. */
  lemma CallPays(c: Config, rows: map<string, OutboxRow>, now: nat, e: string, row: OutboxRow)
    requires ValidConfig(c) && c.maxBackoff >= 1000 && e in Eligible(rows, now)
    requires row == rows[e].(published := true) || row == Rescheduled(c, rows[e], now)
    ensures Debt(c, rows[e := row], now) + 1 <= Debt(c, rows, now)
  {
    var rows' := rows[e := row];
    var f := x => if x in rows then Credit(c, rows[x]) else 0;
    var g := x => if x in rows' then Credit(c, rows'[x]) else 0;
    var due, due' := Eligible(rows, now), Eligible(rows', now);
    RestsAtLastIff(c, rows[e], now);
    RestsIff(c);
    SumSetTake(due, e, f);
    assert due' - {e} == due - {e};
    SumSetSame(due - {e}, f, g);
    if e in due' {
      SumSetTake(due', e, g);
    } else {
      assert due' == due - {e};
    }
  }

  /** While the clock stands still, rows that were not due do not become due, and no row's credit
      grows. */
  ghost predicate StaysUndue(c: Config, rows: map<string, OutboxRow>, rows': map<string, OutboxRow>, now: nat) {
    forall e :: e in rows && e in Eligible(rows', now) ==>
      e in Eligible(rows, now) && Credit(c, rows'[e]) <= Credit(c, rows[e])
  }

  /** The debt of the rows that are new. */
  ghost function NewDebt(c: Config, rows: map<string, OutboxRow>, rows': map<string, OutboxRow>, now: nat): nat {
    SumSet(Eligible(rows', now) - rows.Keys, e => if e in rows' then Credit(c, rows'[e]) else 0)
  }

  lemma {:induction false} SumSetUnion(a: set<string>, b: set<string>, f: string -> nat)
    requires a !! b
    ensures SumSet(a + b, f) == SumSet(a, f) + SumSet(b, f)
    decreases |a|
  {
    if x :| x in a {
      SumSetTake(a + b, x, f);
      SumSetTake(a, x, f);
      SumSetUnion(a - {x}, b, f);
      assert a + b - {x} == (a - {x}) + b;
    } else {
      assert a + b == b;
    }
  }

  lemma DebtMoves(c: Config, rows: map<string, OutboxRow>, rows': map<string, OutboxRow>, now: nat)
    requires StaysUndue(c, rows, rows', now)
    ensures Debt(c, rows', now) <= Debt(c, rows, now) + NewDebt(c, rows, rows', now)
  {
    var f := x => if x in rows then Credit(c, rows[x]) else 0;
    var g := x => if x in rows' then Credit(c, rows'[x]) else 0;
    var due, due' := Eligible(rows, now), Eligible(rows', now);
    var known, added := due' * rows.Keys, due' - rows.Keys;
    assert due' == known + added;
    SumSetUnion(known, added, g);
    SumSetLe(known, g, f);
    SumSetMonotone(known, due, f);
  }

  // ---- The protocol's publishers move the table in this way --------------------------------

  /** A claimed row was due when its transaction began. */
  ghost predicate ClaimsDue(s: State) {
    forall p :: p in s.ps.publishers ==>
      && s.ps.publishers[p].event in s.db.outbox && s.ps.publishers[p].at <= s.db.clock
      && s.db.outbox[s.ps.publishers[p].event].nextAttemptAt <= s.ps.publishers[p].at
  }

  lemma PublisherClaimsDue(c: Config, s: State, p: nat, a: PublisherAction)
    requires OutboxOk(s.db.outbox, s.rs.stream, s.ps.publishers) && ClaimsDue(s) && PublisherEnabled(s, p, a)
    ensures ClaimsDue(PublisherStep(c, s, p, a))
  {
  }

  ghost predicate LeavesOutbox(s: State, s': State) {
    && s'.ps.publishers == s.ps.publishers && s.db.clock <= s'.db.clock
    && forall e :: e in s.db.outbox ==> e in s'.db.outbox && s'.db.outbox[e] == s.db.outbox[e]
  }

  lemma WorldLeavesOutbox(s: State, a: WorldAction)
    requires IdsOk(s.db) && WorldEnabled(s, a)
    ensures LeavesOutbox(s, WorldStep(s, a))
  {
  }

  lemma WorkerLeavesOutbox(c: Config, s: State, w: nat, a: WorkerAction)
    requires WorkerEnabled(c, s, w, a)
    ensures LeavesOutbox(s, WorkerStep(c, s, w, a))
  {
  }

  lemma PumpLeavesOutbox(s: State, k: nat, a: PumpAction)
    requires PumpEnabled(s, k, a)
    ensures LeavesOutbox(s, PumpStep(s, k, a))
  {
  }

  lemma RedriveLeavesOutbox(s: State, e: string, a: RedriveAction)
    requires RedriveEnabled(s, e, a)
    ensures LeavesOutbox(s, RedriveStep(s, e, a))
  {
  }

  /** Only publishers change rows of the outbox, and only they come and go. */
  lemma OthersLeaveOutbox(c: Config, s: State, a: Action)
    requires IdsOk(s.db) && Enabled(c, s, a) && !a.Publish?
    ensures LeavesOutbox(s, Apply(c, s, a))
  {
    match a {
      case World(world) => WorldLeavesOutbox(s, world);
      case Work(w, work) => WorkerLeavesOutbox(c, s, w, work);
      case Pumping(k, pumping) => PumpLeavesOutbox(s, k, pumping);
      case Operate(e, operate) => RedriveLeavesOutbox(s, e, operate);
    }
  }

  lemma OtherClaimsDue(c: Config, s: State, a: Action)
    requires IdsOk(s.db) && ClaimsDue(s) && Enabled(c, s, a) && !a.Publish?
    ensures ClaimsDue(Apply(c, s, a))
  {
    OthersLeaveOutbox(c, s, a);
  }

  lemma {:induction false} RunClaimsDue(c: Config, s: State, acts: seq<Action>, s': State)
    requires ValidConfig(c) && Inv(c, s) && ClaimsDue(s) && Runs(c, s, acts, s')
    ensures ClaimsDue(s')
    decreases |acts|
  {
    if acts != [] {
      StepKeeps(c, s, acts[0]);
      if acts[0].Publish? {
        PublisherClaimsDue(c, s, acts[0].p, acts[0].publish);
      } else {
        OtherClaimsDue(c, s, acts[0]);
      }
      RunClaimsDue(c, Apply(c, s, acts[0]), acts[1..], s');
    }
  }

  lemma PublisherStaysUndue(c: Config, s: State, p: nat, a: PublisherAction)
    requires OutboxOk(s.db.outbox, s.rs.stream, s.ps.publishers) && ClaimsDue(s) && PublisherEnabled(s, p, a)
    ensures StaysUndue(c, s.db.outbox, PublisherStep(c, s, p, a).db.outbox, s.db.clock)
  {
    if p in s.ps.publishers {
      assert PublisherOk(s.db.outbox, s.rs.stream, s.ps.publishers[p]);
    }
  }

  lemma OtherStaysUndue(c: Config, s: State, a: Action)
    requires IdsOk(s.db) && Enabled(c, s, a) && !a.Publish?
    ensures StaysUndue(c, s.db.outbox, Apply(c, s, a).db.outbox, s.db.clock)
  {
    OthersLeaveOutbox(c, s, a);
  }

  /** Every step of every actor, from every reachable state, keeps rows that are not due undue at the
      instant it is taken. */
  lemma StepStaysUndue(c: Config, s: State, a: Action)
    requires ValidConfig(c) && Reachable(c, s) && Enabled(c, s, a)
    ensures StaysUndue(c, s.db.outbox, Apply(c, s, a).db.outbox, s.db.clock)
  {
    var t: nat, acts :| Runs(c, Init(t), acts, s);
    InitInv(c, t);
    RunClaimsDue(c, Init(t), acts, s);
    ReachableInv(c, s);
    if a.Publish? {
      PublisherStaysUndue(c, s, a.p, a.publish);
    } else {
      OtherStaysUndue(c, s, a);
    }
  }

  // ---- The loop ----------------------------------------------------------------------------

  /** What goes wrong with one call: the claim, the publish, or the answer to the commit. */
  datatype RunnerLuck = RunnerLuck(broken: bool, refused: bool, hidden: bool)

  /** The calls that found nothing or met an error other than a failed publication. */
  function Pauses(reports: seq<Report>): nat {
    if reports == [] then 0
    else
      var last := reports[|reports| - 1];
      Pauses(reports[..|reports| - 1]) + if last.Nothing? || last.OtherError? then 1 else 0
  }

  class Runner {
    const c: Config
    var now: nat
    var rows: map<string, OutboxRow>
    /** Rows that other publishers hold, which the claim query skips. */
    var locked: set<string>
    /** Calls of publishNext that found a row since the runner last waited, and the debt of the rows
        that were due then or have been written since. */
    ghost var busy: nat
    ghost var due: nat

    ghost predicate Valid()
      reads this
    {
      ValidConfig(c) && c.maxBackoff >= 1000 && busy + Debt(c, rows, now) <= due
    }

    constructor (config: Config, t: nat, table: map<string, OutboxRow>)
      requires ValidConfig(config) && config.maxBackoff >= 1000
      ensures Valid() && c == config && now == t && rows == table && busy == 0 && due == Debt(config, table, t)
    {
      c, now, rows, locked := config, t, table, {};
      busy, due := 0, Debt(config, table, t);
    }

    /** Other publishers lock, release, publish and reschedule rows, and ingestion writes new ones;
        the contract allows any of it. */
    method Others()
      requires Valid()
      modifies this`rows, this`locked, this`due
      ensures Valid() && StaysUndue(c, old(rows), rows, now)
      ensures due == old(due) + NewDebt(c, old(rows), rows, now)
    {
      var written: map<string, OutboxRow> := *;
      var holders: set<string> := *;
      locked := holders;
      var table := written + rows;
      DebtMoves(c, rows, table, now);
      due := due + NewDebt(c, rows, table, now);
      rows := table;
    }

    /** PublishNextOutboxEvent as one transaction: it takes the row due first among those nobody
        holds. An error other than ErrOutboxPublishFailed may hide a commit that took effect. */
    method PublishNext(luck: RunnerLuck) returns (report: Report, ghost e: string)
      requires Valid()
      modifies this`rows
      ensures var free := Eligible(old(rows), now) - locked;
              report == if luck.broken then OtherError
                        else if free == {} then Nothing
                        else if luck.hidden then OtherError
                        else if luck.refused then Report.PublishFailed
                        else Found
      ensures luck.broken || Eligible(old(rows), now) <= locked ==> rows == old(rows)
      ensures !luck.broken && !(Eligible(old(rows), now) <= locked) ==>
                && e in Eligible(old(rows), now) - locked
                && FirstOf(old(rows), Eligible(old(rows), now) - locked, e)
                && rows == old(rows)[e := if luck.refused then Rescheduled(c, old(rows)[e], now)
                                          else old(rows)[e].(published := true)]
                && Debt(c, rows, now) + 1 <= Debt(c, old(rows), now)
    {
      e := "";
      if luck.broken {
        return OtherError, e;
      }
      var free := Eligible(rows, now) - locked;
      if free == {} {
        assert forall x :: x in Eligible(rows, now) && x !in locked ==> x in free;
        return Nothing, e;
      }
      e := FirstExists(rows, free);
      var next :| next in free && FirstOf(rows, free, next);
      e := next;
      var row := if luck.refused then Rescheduled(c, rows[next], now) else rows[next].(published := true);
      CallPays(c, rows, now, next, row);
      rows := rows[next := row];
      report := if luck.hidden then OtherError else if luck.refused then Report.PublishFailed else Found;
    }

    /** waitForContext: the clock moves on and anything may have happened to the table meanwhile. */
    method Wait()
      requires ValidConfig(c) && c.maxBackoff >= 1000
      modifies this
      ensures Valid() && now > old(now) && busy == 0 && due == Debt(c, rows, now)
    {
      var later: nat, table: map<string, OutboxRow> := *, *;
      now := now + later + 1;
      rows := table;
      busy := 0;
      due := Debt(c, rows, now);
    }

    /** Run until the context ends, which it does after as many checks as there are `lucks`. The runner
        waits exactly after a call that found nothing or met another error. At no point have more calls
        found a row since the last wait than the rows due when it ended or written since allow: one
        call per row if the base backoff is a microsecond or more, at most eleven otherwise. */
    method Run(lucks: seq<RunnerLuck>) returns (reports: seq<Report>, waits: nat)
      requires Valid()
      modifies this
      ensures Valid() && busy <= due
      ensures |reports| == |lucks| && waits == Pauses(reports)
    {
      reports, waits := [], 0;
      while |reports| < |lucks|
        invariant Valid() && |reports| <= |lucks| && waits == Pauses(reports)
        decreases |lucks| - |reports|
      {
        Others();
        var report, e := PublishNext(lucks[|reports|]);
        reports := reports + [report];
        if report.PublishFailed? || report.Found? {
          busy := busy + 1;
        } else {
          Wait();
          waits := waits + 1;
        }
      }
    }
  }
}
