/** Idempotent ingestion (internal/ingestion/store.go) as concurrent transactions on the partial
    unique index over (source, idempotency_key) and the unique index over outbox.event_id. */
module Ingestion {
  import opened Text
  import opened Effects

  /** `hash` is what computeRequestHash returned, None when it rejected the payload. */
  datatype Request = Request(source: string, rawKey: string, hash: Option<string>)

  /** The normalised key; the empty string means that no key was given. */
  function KeyOf(req: Request): string {
    TrimSpace(req.rawKey)
  }

  /** An events row; `key` and `hash` are NULL in rows that predate them. */
  datatype EventRow = EventRow(source: string, key: Option<string>, hash: Option<string>)

  datatype Result = Persisted(id: string, created: bool) | Conflict | Failed

  /** One call of PersistEventWithOutbox, at the point it has reached. */
  datatype Call =
    | Begun(req: Request)
    | EventInserted(req: Request, id: string)
    | OutboxInserted(req: Request, id: string)
    | NoRow(req: Request)
    | Matched(req: Request, id: string)
    | Done(req: Request, result: Result)

  /** Committed tables, and the calls with their uncommitted rows. */
  datatype State = State(events: map<string, EventRow>, outbox: seq<string>, calls: map<nat, Call>)

  datatype Action =
    | Begin(n: nat, req: Request)
    | InsertEvent(n: nat, id: string)
    | InsertOutbox(n: nat)
    | Commit(n: nat, f: Fault)
    | Lookup(n: nat, id: string)
    | CommitLookup(n: nat, f: Fault)
    | Abort(n: nat)

  predicate Holding(call: Call) {
    call.EventInserted? || call.OutboxInserted?
  }

  function NewRow(req: Request): EventRow {
    EventRow(req.source, if KeyOf(req) == "" then None else Some(KeyOf(req)), req.hash)
  }

  predicate Clashes(row: EventRow, req: Request) {
    KeyOf(req) != "" && row.source == req.source && row.key == Some(KeyOf(req))
  }

  /** A committed row already has the key. */
  predicate Taken(events: map<string, EventRow>, req: Request) {
    exists id :: id in events && Clashes(events[id], req)
  }

  /** An uncommitted row of another call has the key: the insert waits for its transaction. */
  predicate Waits(s: State, n: nat) {
    && n in s.calls
    && exists m :: m in s.calls && m != n && Holding(s.calls[m]) && Clashes(NewRow(s.calls[m].req), s.calls[n].req)
  }

  predicate FreshId(s: State, id: string) {
    id !in s.events && forall m :: m in s.calls && Holding(s.calls[m]) ==> s.calls[m].id != id
  }

  predicate Enabled(s: State, a: Action) {
    match a
    case Begin(n, _) => n !in s.calls
    case InsertEvent(n, id) =>
      n in s.calls && s.calls[n].Begun? && s.calls[n].req.hash.Some? && !Waits(s, n) && FreshId(s, id)
    case InsertOutbox(n) => n in s.calls && s.calls[n].EventInserted?
    case Commit(n, _) => n in s.calls && s.calls[n].OutboxInserted?
    case Lookup(n, id) => n in s.calls && s.calls[n].NoRow? && id in s.events && Clashes(s.events[id], s.calls[n].req)
    case CommitLookup(n, _) => n in s.calls && s.calls[n].Matched?
    case Abort(n) => n in s.calls && !s.calls[n].Done?
  }

  /** validateExistingRequestHash */
  predicate HashMatches(row: EventRow, req: Request) {
    row.hash.Some? && row.hash == req.hash
  }

  function Move(s: State, n: nat, call: Call): State {
    s.(calls := s.calls[n := call])
  }

  function Apply(s: State, a: Action): State
    requires Enabled(s, a)
  {
    match a
    case Begin(n, req) => Move(s, n, if req.hash.None? then Done(req, Failed) else Begun(req))
    case InsertEvent(n, id) =>
      var req := s.calls[n].req;
      Move(s, n, if Taken(s.events, req) then NoRow(req) else EventInserted(req, id))
    case InsertOutbox(n) => Move(s, n, OutboxInserted(s.calls[n].req, s.calls[n].id))
    case Commit(n, f) =>
      var call := s.calls[n];
      var s1 := if f.Lost? then s
                else s.(events := s.events[call.id := NewRow(call.req)], outbox := s.outbox + [call.id]);
      Move(s1, n, Done(call.req, if f.Ok? then Persisted(call.id, true) else Failed))
    case Lookup(n, id) =>
      var req := s.calls[n].req;
      Move(s, n, if HashMatches(s.events[id], req) then Matched(req, id) else Done(req, Conflict))
    case CommitLookup(n, f) =>
      var call := s.calls[n];
      Move(s, n, Done(call.req, if f.Ok? then Persisted(call.id, false) else Failed))
    case Abort(n) => Move(s, n, Done(s.calls[n].req, Failed))
  }

  // ---- Invariant --------------------------------------------------------------------

  /** The partial unique index. */
  ghost predicate UniqueKeys(events: map<string, EventRow>) {
    forall i, j :: i in events && j in events && i != j && events[i].key.Some? && events[i].source == events[j].source
      ==> events[i].key != events[j].key
  }

  ghost predicate OneOutboxRow(s: State, id: string) {
    multiset(s.outbox)[id] == 1
  }

  ghost predicate OutboxOk(s: State) {
    && (forall id :: id in s.outbox ==> id in s.events)
    && (forall id :: id in s.events && s.events[id].hash.Some? ==> OneOutboxRow(s, id))
  }

  /** Uncommitted rows respect both indexes against each other and the committed ones. */
  ghost predicate HoldersOk(s: State) {
    && (forall n :: n in s.calls && Holding(s.calls[n]) ==>
          s.calls[n].id !in s.events && s.calls[n].req.hash.Some? && !Taken(s.events, s.calls[n].req))
    && (forall n, m :: n in s.calls && m in s.calls && n != m && Holding(s.calls[n]) && Holding(s.calls[m]) ==>
          && s.calls[n].id != s.calls[m].id
          && !Clashes(NewRow(s.calls[m].req), s.calls[n].req))
  }

  ghost predicate Answers(events: map<string, EventRow>, req: Request, id: string) {
    && id in events && events[id].hash == req.hash && req.hash.Some? && events[id].source == req.source
    && (KeyOf(req) != "" ==> events[id].key == Some(KeyOf(req)))
  }

  ghost predicate CallOk(s: State, call: Call) {
    && (call.Matched? ==> Answers(s.events, call.req, call.id) && KeyOf(call.req) != "")
    && (call.NoRow? ==> Taken(s.events, call.req))
    && (call.Done? && call.result.Persisted? ==> Answers(s.events, call.req, call.result.id))
    && (call.Done? && call.result.Persisted? && !call.result.created ==> KeyOf(call.req) != "")
  }

  /** The event a call created, or is about to create. */
  predicate Makes(call: Call, id: string) {
    (Holding(call) && call.id == id) || (call.Done? && call.result == Persisted(id, true))
  }

  ghost predicate MakersOk(s: State) {
    forall n, m, id :: n in s.calls && m in s.calls && Makes(s.calls[n], id) && Makes(s.calls[m], id) ==> n == m
  }

  ghost predicate Inv(s: State) {
    && UniqueKeys(s.events) && OutboxOk(s) && HoldersOk(s) && MakersOk(s)
    && (forall n :: n in s.calls ==> CallOk(s, s.calls[n]))
  }

  /** Any committed tables that respect the indexes, legacy rows included, and no call. */
  ghost predicate Init(s: State) {
    UniqueKeys(s.events) && OutboxOk(s) && s.calls == map[]
  }

  lemma InitInv(s: State)
    requires Init(s)
    ensures Inv(s)
  {
  }

  lemma TakenGrows(events: map<string, EventRow>, id: string, row: EventRow, req: Request)
    requires id !in events
    ensures Taken(events[id := row], req) <==> Taken(events, req) || Clashes(row, req)
  {
    var events' := events[id := row];
    if Taken(events, req) {
      var i :| i in events && Clashes(events[i], req);
      assert Clashes(events'[i], req);
    }
    if Clashes(row, req) {
      assert Clashes(events'[id], req);
    }
  }

  lemma CommitTables(s: State, n: nat)
    requires Inv(s) && n in s.calls && s.calls[n].OutboxInserted?
    ensures var call := s.calls[n];
            var events := s.events[call.id := NewRow(call.req)];
            UniqueKeys(events) && OutboxOk(s.(events := events, outbox := s.outbox + [call.id]))
  {
    var call := s.calls[n];
    var events := s.events[call.id := NewRow(call.req)];
    forall i | i in s.events ensures NewRow(call.req).key.Some? && s.events[i].source == call.req.source
                                     ==> s.events[i].key != NewRow(call.req).key {
      assert !Clashes(s.events[i], call.req);
    }
    assert multiset(s.outbox + [call.id]) == multiset(s.outbox) + multiset{call.id};
  }

  lemma CommitCalls(s: State, n: nat, f: Fault, m: nat)
    requires Inv(s) && Enabled(s, Commit(n, f)) && !f.Lost? && m in s.calls
    ensures var s' := Apply(s, Commit(n, f));
            && CallOk(s', s'.calls[m])
            && (Holding(s'.calls[m]) ==> s'.calls[m].id !in s'.events && !Taken(s'.events, s'.calls[m].req))
  {
    var call := s.calls[n];
    assert CallOk(s, s.calls[m]);
    if m != n {
      TakenGrows(s.events, call.id, NewRow(call.req), s.calls[m].req);
    }
  }

  lemma CommitKeeps(s: State, n: nat, f: Fault)
    requires Inv(s) && Enabled(s, Commit(n, f)) && !f.Lost?
    ensures Inv(Apply(s, Commit(n, f)))
  {
    var s' := Apply(s, Commit(n, f));
    CommitTables(s, n);
    forall m | m in s'.calls
      ensures CallOk(s', s'.calls[m])
              && (Holding(s'.calls[m]) ==> s'.calls[m].id !in s'.events && !Taken(s'.events, s'.calls[m].req)) {
      CommitCalls(s, n, f, m);
    }
  }

  lemma InsertKeeps(s: State, n: nat, id: string)
    requires Inv(s) && Enabled(s, InsertEvent(n, id))
    ensures Inv(Apply(s, InsertEvent(n, id)))
  {
    var s' := Apply(s, InsertEvent(n, id));
    var req := s.calls[n].req;
    forall m | m in s'.calls ensures CallOk(s', s'.calls[m]) {
      if m != n {
        assert CallOk(s, s.calls[m]);
      }
    }
    if !Taken(s.events, req) {
      forall m | m in s.calls && m != n && Holding(s.calls[m])
        ensures !Clashes(NewRow(s.calls[m].req), req) && !Clashes(NewRow(req), s.calls[m].req) {
      }
      NotMadeBefore(s, id);
    }
  }

  /** A fresh ID was not created by any call. */
  lemma NotMadeBefore(s: State, id: string)
    requires Inv(s) && FreshId(s, id)
    ensures forall m :: m in s.calls ==> !Makes(s.calls[m], id)
  {
    forall m | m in s.calls ensures !Makes(s.calls[m], id) {
      assert CallOk(s, s.calls[m]);
    }
  }

  /** A call that takes no new row moves on. */
  lemma MoveKeeps(s: State, n: nat, call: Call)
    requires Inv(s) && CallOk(s, call)
    requires Holding(call) ==>
               n in s.calls && Holding(s.calls[n]) && call.id == s.calls[n].id && call.req == s.calls[n].req
    requires call.Done? && call.result.Persisted? ==> !call.result.created
    ensures Inv(Move(s, n, call))
  {
    var s' := Move(s, n, call);
    forall m | m in s'.calls ensures CallOk(s', s'.calls[m]) {
      if m != n {
        assert CallOk(s, s.calls[m]);
      }
    }
    forall m, id | m in s'.calls && Makes(s'.calls[m], id) ensures m in s.calls && Makes(s.calls[m], id) {
    }
  }

  lemma LookupKeeps(s: State, n: nat, id: string)
    requires Inv(s) && Enabled(s, Lookup(n, id))
    ensures Inv(Apply(s, Lookup(n, id)))
  {
    var req := s.calls[n].req;
    if HashMatches(s.events[id], req) {
      MoveKeeps(s, n, Matched(req, id));
    } else {
      MoveKeeps(s, n, Done(req, Conflict));
    }
  }

  lemma OtherKeeps(s: State, a: Action)
    requires Inv(s) && Enabled(s, a) && !a.InsertEvent? && !(a.Commit? && !a.f.Lost?)
    ensures Inv(Apply(s, a))
  {
    match a {
      case Begin(n, req) => MoveKeeps(s, n, if req.hash.None? then Done(req, Failed) else Begun(req));
      case InsertOutbox(n) => MoveKeeps(s, n, OutboxInserted(s.calls[n].req, s.calls[n].id));
      case Commit(n, f) => MoveKeeps(s, n, Done(s.calls[n].req, Failed));
      case Lookup(n, id) => LookupKeeps(s, n, id);
      case CommitLookup(n, f) =>
        assert CallOk(s, s.calls[n]);
        MoveKeeps(s, n, Done(s.calls[n].req, if f.Ok? then Persisted(s.calls[n].id, false) else Failed));
      case Abort(n) => MoveKeeps(s, n, Done(s.calls[n].req, Failed));
    }
  }

  lemma StepKeeps(s: State, a: Action)
    requires Inv(s) && Enabled(s, a)
    ensures Inv(Apply(s, a))
  {
    if a.InsertEvent? {
      InsertKeeps(s, a.n, a.id);
    } else if a.Commit? && !a.f.Lost? {
      CommitKeeps(s, a.n, a.f);
    } else {
      OtherKeeps(s, a);
    }
  }

  // ---- Runs and results -------------------------------------------------------------

  ghost predicate Runs(s: State, acts: seq<Action>, s': State)
    decreases |acts|
  {
    if acts == [] then s' == s
    else Enabled(s, acts[0]) && Runs(Apply(s, acts[0]), acts[1..], s')
  }

  lemma {:induction false} RunKeeps(s: State, acts: seq<Action>, s': State)
    requires Inv(s) && Runs(s, acts, s')
    ensures Inv(s')
    decreases |acts|
  {
    if acts != [] {
      StepKeeps(s, acts[0]);
      RunKeeps(Apply(s, acts[0]), acts[1..], s');
    }
  }

  ghost predicate Reachable(s: State) {
    exists s0, acts :: Init(s0) && Runs(s0, acts, s)
  }

  lemma ReachableInv(s: State)
    requires Reachable(s)
    ensures Inv(s)
  {
    var s0, acts :| Init(s0) && Runs(s0, acts, s);
    InitInv(s0);
    RunKeeps(s0, acts, s);
  }

  lemma {:induction false} RunsSnoc(s: State, acts: seq<Action>, s': State, a: Action)
    requires Runs(s, acts, s') && Enabled(s', a)
    ensures Runs(s, acts + [a], Apply(s', a))
    decreases |acts|
  {
    if acts == [] {
      assert (acts + [a])[1..] == [];
    } else {
      assert (acts + [a])[1..] == acts[1..] + [a];
      RunsSnoc(Apply(s, acts[0]), acts[1..], s', a);
    }
  }

  lemma ReachableStep(s: State, a: Action)
    requires Reachable(s) && Enabled(s, a)
    ensures Reachable(Apply(s, a))
  {
    var s0, acts :| Init(s0) && Runs(s0, acts, s);
    RunsSnoc(s0, acts, s, a);
  }

  predicate Succeeded(s: State, n: nat) {
    n in s.calls && s.calls[n].Done? && s.calls[n].result.Persisted?
  }

  predicate SameKey(a: Request, b: Request) {
    a.source == b.source && KeyOf(a) == KeyOf(b) && KeyOf(a) != ""
  }

  /** Exactly-once ingestion: however the calls interleave, fail or crash, all successful calls
      with one source and one non-blank key name the same event, which has exactly one outbox
      row; at most one of them created it; and they carry the same request hash. */
  lemma ExactlyOnce(s0: State, acts: seq<Action>, s: State, n: nat, m: nat)
    requires Init(s0) && Runs(s0, acts, s)
    requires Succeeded(s, n) && Succeeded(s, m) && SameKey(s.calls[n].req, s.calls[m].req)
    ensures s.calls[n].result.id == s.calls[m].result.id
    ensures s.calls[n].result.id in s.events && OneOutboxRow(s, s.calls[n].result.id)
    ensures s.calls[n].result.created && s.calls[m].result.created ==> n == m
    ensures s.calls[n].req.hash == s.calls[m].req.hash
  {
    InitInv(s0);
    RunKeeps(s0, acts, s);
    assert CallOk(s, s.calls[n]) && CallOk(s, s.calls[m]);
    var i, j := s.calls[n].result.id, s.calls[m].result.id;
    assert i == j;
    if s.calls[n].result.created && s.calls[m].result.created {
      assert Makes(s.calls[n], i) && Makes(s.calls[m], i);
    }
  }

  /** The tables never hold two events for one key, nor two outbox rows for one event. */
  lemma TablesUnique(s0: State, acts: seq<Action>, s: State)
    requires Init(s0) && Runs(s0, acts, s)
    ensures UniqueKeys(s.events)
    ensures forall id :: id in s.events && s.events[id].hash.Some? ==> OneOutboxRow(s, id)
    ensures forall id :: id in s.outbox ==> id in s.events
  {
    InitInv(s0);
    RunKeeps(s0, acts, s);
  }

  /** A lookup conflicts exactly when the stored hash is missing or different, and neither a
      conflict nor a replayed request changes a table. */
  lemma ConflictIff(s: State, n: nat, id: string)
    requires Inv(s) && Enabled(s, Lookup(n, id))
    ensures var s' := Apply(s, Lookup(n, id));
            && s'.events == s.events && s'.outbox == s.outbox
            && (s'.calls[n] == Done(s.calls[n].req, Conflict)
                <==> s.events[id].hash.None? || s.events[id].hash != s.calls[n].req.hash)
    ensures forall other :: other in s.events && Clashes(s.events[other], s.calls[n].req) ==> other == id
  {
  }

  /** Whatever a call with another or no stored hash under its key does, it never succeeds, and
      no row of its own is written or about to be. */
  lemma MismatchNeverSucceeds(s0: State, acts: seq<Action>, s: State, n: nat, id: string)
    requires Init(s0) && Runs(s0, acts, s) && n in s.calls
    requires id in s.events && Clashes(s.events[id], s.calls[n].req) && !HashMatches(s.events[id], s.calls[n].req)
    ensures !Succeeded(s, n) && !Holding(s.calls[n])
    ensures s.calls[n].req.hash.Some? ==> forall own :: own in s.events ==> s.events[own] != NewRow(s.calls[n].req)
  {
    InitInv(s0);
    RunKeeps(s0, acts, s);
    assert CallOk(s, s.calls[n]);
  }

  /** Committed events and outbox rows are never changed or removed. */
  lemma StepGrows(s: State, a: Action)
    requires Inv(s) && Enabled(s, a)
    ensures forall id :: id in s.events ==> id in Apply(s, a).events && Apply(s, a).events[id] == s.events[id]
    ensures s.outbox <= Apply(s, a).outbox
    ensures forall m :: m in s.calls ==> m in Apply(s, a).calls && Apply(s, a).calls[m].req == s.calls[m].req
  {
  }

  // ---- The call itself --------------------------------------------------------------

  ghost predicate TablesGrow(s: State, s': State) {
    && (forall id :: id in s.events ==> id in s'.events && s'.events[id] == s.events[id])
    && s.outbox <= s'.outbox
  }

  lemma SettledCall(s: State, n: nat)
    requires Reachable(s) && n in s.calls
    ensures CallOk(s, s.calls[n])
    ensures s.calls[n].Done? && s.calls[n].result.Persisted? ==> OneOutboxRow(s, s.calls[n].result.id)
  {
    ReachableInv(s);
    assert CallOk(s, s.calls[n]);
  }

  /** Which database calls of one request fail. */
  datatype PersistLuck = PersistLuck(begin: bool, insert: bool, outbox: bool, lookup: bool, commit: Fault)

  /** A committed row has the source and the trimmed, nonblank key of the request. */
  ghost predicate KeyTaken(events: map<string, EventRow>, req: Request) {
    && TrimSpace(req.rawKey) != ""
    && exists id :: id in events && events[id].source == req.source && events[id].key == Some(TrimSpace(req.rawKey))
  }

  /** And such a row has the hash of the request. */
  ghost predicate KeyMatches(events: map<string, EventRow>, req: Request) {
    exists id :: id in events && events[id].source == req.source && events[id].key == Some(TrimSpace(req.rawKey))
                 && events[id].hash.Some? && events[id].hash == req.hash
  }

  lemma TakenIff(s: State, req: Request)
    ensures Taken(s.events, req) <==> KeyTaken(s.events, req)
  {
    if Taken(s.events, req) {
      var id :| id in s.events && Clashes(s.events[id], req);
      assert s.events[id].source == req.source;
    }
    if KeyTaken(s.events, req) {
      var id :| id in s.events && s.events[id].source == req.source && s.events[id].key == Some(TrimSpace(req.rawKey));
      assert Clashes(s.events[id], req);
    }
  }

  /** The one row that holds the key of a request. */
  lemma OneHolder(s: State, n: nat, id: string, known: string)
    requires Reachable(s) && id in s.events && known in s.events && n in s.calls
    requires Clashes(s.events[id], s.calls[n].req) && Clashes(s.events[known], s.calls[n].req)
    ensures id == known
  {
    ReachableInv(s);
  }

  lemma KeyHolder(s: State, s': State, req: Request) returns (known: string)
    requires Reachable(s) && TablesGrow(s, s') && Taken(s.events, req)
    ensures known in s.events && known in s'.events && s'.events[known] == s.events[known]
    ensures Clashes(s'.events[known], req)
    ensures KeyMatches(s.events, req) <==> s.events[known].hash.Some? && s.events[known].hash == req.hash
  {
    known :| known in s.events && Clashes(s.events[known], req);
    ReachableInv(s);
    if KeyMatches(s.events, req) {
      var id :| id in s.events && s.events[id].source == req.source && s.events[id].key == Some(TrimSpace(req.rawKey))
        && s.events[id].hash.Some? && s.events[id].hash == req.hash;
      assert id == known;
    }
    assert s.events[known].source == req.source;
  }

  method UnusedName(used: set<string>) returns (name: string)
    ensures name !in used
  {
    var rest := used;
    var longest: nat := 0;
    while rest != {}
      invariant rest <= used
      invariant forall x :: x in used && x !in rest ==> |x| <= longest
      decreases |rest|
    {
      var x :| x in rest;
      if |x| > longest {
        longest := |x|;
      }
      rest := rest - {x};
    }
    name := seq(longest + 1, _ => '0');
  }

  class Store {
    var s: State

    ghost predicate Valid()
      reads this
    {
      Reachable(s)
    }

    method Effect(a: Action)
      requires Valid() && Enabled(s, a)
      modifies this
      ensures Valid() && s == Apply(old(s), a) && TablesGrow(old(s), s)
    {
      ReachableInv(s);
      ReachableStep(s, a);
      StepGrows(s, a);
      s := Apply(s, a);
    }

    /** Other calls run, any number of steps. */
    method Others(n: nat)
      requires Valid() && n in s.calls
      modifies this
      ensures Valid() && TablesGrow(old(s), s) && n in s.calls && s.calls[n] == old(s.calls[n])
    {
    }

    /** The insert waits for the transaction whose uncommitted row has the same key. */
    method AwaitIndex(n: nat)
      requires Valid() && n in s.calls && s.calls[n].Begun?
      modifies this
      ensures Valid() && TablesGrow(old(s), s) && n in s.calls && s.calls[n] == old(s.calls[n]) && !Waits(s, n)
    {
      ReachableInv(s);
      if Waits(s, n) {
        var m :| m in s.calls && m != n && Holding(s.calls[m]) && Clashes(NewRow(s.calls[m].req), s.calls[n].req);
        ghost var before := s;
        Effect(Abort(m));
        forall k | k in s.calls && k != n && Holding(s.calls[k])
          ensures !Clashes(NewRow(s.calls[k].req), s.calls[n].req) {
          assert !Clashes(NewRow(before.calls[k].req), before.calls[m].req);
        }
      }
    }

    /** PersistEventWithOutbox. `luck` says which database calls fail; `at` is the state in which the
        insert met the index. */
    method PersistEventWithOutbox(n: nat, req: Request, luck: PersistLuck) returns (r: Result, ghost at: State)
      requires Valid() && n !in s.calls
      modifies this
      ensures Valid() && TablesGrow(old(s), at) && TablesGrow(at, s)
      ensures n in s.calls && s.calls[n] == Done(req, r)
      ensures r.Failed? <==>
              || req.hash.None? || luck.begin || luck.insert
              || (if !KeyTaken(at.events, req) then luck.outbox || !luck.commit.Ok?
                  else luck.lookup || (KeyMatches(at.events, req) && !luck.commit.Ok?))
      ensures !r.Failed? ==>
                && (r.Persisted? && r.created <==> !KeyTaken(at.events, req))
                && (r.Persisted? && !r.created <==> KeyTaken(at.events, req) && KeyMatches(at.events, req))
                && (r.Conflict? <==> KeyTaken(at.events, req) && !KeyMatches(at.events, req))
      ensures r.Persisted? ==>
                && r.id in s.events && OneOutboxRow(s, r.id)
                && s.events[r.id].source == req.source && s.events[r.id].hash == req.hash
                && (TrimSpace(req.rawKey) != "" ==> s.events[r.id].key == Some(TrimSpace(req.rawKey)))
                && (r.created <==> r.id !in at.events)
      ensures req.hash.None? || luck.begin || luck.insert ==> s.events == at.events && s.outbox == at.outbox
    {
      Effect(Begin(n, req));
      at := s;
      if req.hash.None? {
        return Failed, at;
      }
      if luck.begin {
        Effect(Abort(n));
        return Failed, at;
      }
      Others(n);
      AwaitIndex(n);
      at := s;
      if luck.insert {
        Effect(Abort(n));
        return Failed, at;
      }
      r := Insert(n, req, luck);
    }

    /** The insert against the index, and what follows it. */
    method Insert(n: nat, req: Request, luck: PersistLuck) returns (r: Result)
      requires Valid() && n in s.calls && s.calls[n] == Begun(req) && req.hash.Some? && !Waits(s, n)
      modifies this
      ensures Valid() && TablesGrow(old(s), s)
      ensures n in s.calls && s.calls[n] == Done(req, r)
      ensures r.Failed? <==>
              if !KeyTaken(old(s.events), req) then luck.outbox || !luck.commit.Ok?
              else luck.lookup || (KeyMatches(old(s.events), req) && !luck.commit.Ok?)
      ensures !r.Failed? ==>
                && (r.Persisted? && r.created <==> !KeyTaken(old(s.events), req))
                && (r.Conflict? <==> KeyTaken(old(s.events), req) && !KeyMatches(old(s.events), req))
      ensures r.Persisted? ==> Answers(s.events, req, r.id) && OneOutboxRow(s, r.id)
      ensures r.Persisted? ==> (r.created <==> r.id !in old(s.events))
    {
      TakenIff(s, req);
      var id := FreshUuid();
      ghost var before := s;
      Effect(InsertEvent(n, id));
      Others(n);
      if s.calls[n].EventInserted? {
        r := Finish(n, req, luck);
      } else {
        ghost var known := KeyHolder(before, s, req);
        r := ExistingEvent(n, req, luck, known);
      }
    }

    /** uuid_generate_v4: an ID that no row has, committed or not. */
    method FreshUuid() returns (id: string)
      ensures FreshId(s, id)
    {
      var held := set m | m in s.calls && Holding(s.calls[m]) :: s.calls[m].id;
      id := UnusedName(s.events.Keys + held);
      forall m | m in s.calls && Holding(s.calls[m]) ensures s.calls[m].id != id {
        assert s.calls[m].id in held;
      }
    }

    /** The outbox row and the commit after the event was inserted. */
    method Finish(n: nat, req: Request, luck: PersistLuck) returns (r: Result)
      requires Valid() && n in s.calls && s.calls[n].EventInserted? && s.calls[n].req == req
      modifies this
      ensures Valid() && TablesGrow(old(s), s)
      ensures n in s.calls && s.calls[n] == Done(req, r)
      ensures r == if luck.outbox || !luck.commit.Ok? then Failed else Persisted(old(s.calls[n].id), true)
      ensures r.Persisted? ==> Answers(s.events, req, r.id) && OneOutboxRow(s, r.id)
    {
      var id := s.calls[n].id;
      if luck.outbox {
        Effect(Abort(n));
        return Failed;
      }
      Effect(InsertOutbox(n));
      Others(n);
      Effect(Commit(n, luck.commit));
      SettledCall(s, n);
      r := if luck.commit == Ok then Persisted(id, true) else Failed;
    }

    /** existingEventIDForMatchingRequestHash, and the commit after it. */
    method ExistingEvent(n: nat, req: Request, luck: PersistLuck, ghost known: string) returns (r: Result)
      requires Valid() && n in s.calls && s.calls[n] == NoRow(req)
      requires known in s.events && Clashes(s.events[known], req)
      modifies this
      ensures Valid() && TablesGrow(old(s), s)
      ensures n in s.calls && s.calls[n] == Done(req, r)
      ensures var matches := old(s.events)[known].hash.Some? && old(s.events)[known].hash == req.hash;
              r == if luck.lookup || (matches && !luck.commit.Ok?) then Failed
                   else if matches then Persisted(known, false)
                   else Conflict
      ensures r.Persisted? ==> KeyOf(req) != "" && Answers(s.events, req, r.id) && OneOutboxRow(s, r.id)
    {
      if luck.lookup {
        Effect(Abort(n));
        return Failed;
      }
      SettledCall(s, n);
      var id :| id in s.events && Clashes(s.events[id], req);
      OneHolder(s, n, id, known);
      Effect(Lookup(n, id));
      if s.calls[n].Done? {
        return Conflict;
      }
      Others(n);
      Effect(CommitLookup(n, luck.commit));
      SettledCall(s, n);
      r := if luck.commit == Ok then Persisted(id, false) else Failed;
    }
  }
}
