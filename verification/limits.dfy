/** Runs that show the two assumptions of the delivery results to be needed: the group cursor is
    not moved past unread entries, and the database clock separates any two transactions. */
module Limits {
  import opened Text
  import opened Effects
  import opened Protocol
  import opened Safety
  import opened NoLoss
  import opened Ordering
  import Conservation

  /** One event, ingested and appended to the stream by a publisher that has not committed. */
  ghost predicate JustAppended(s: State, t: nat, ev: Event) {
    && s.db.clock == t && ev.createdAt == t && ev.eventType == "force.fail" && s.db.serial == 2
    && s.db.events == map["e" := ev]
    && s.db.outbox == map["e" := OutboxRow("o", false, 0, t, t)]
    && s.db.history == [Row(0, "e", Stored, t, None, 0), Row(1, "e", PendingPublication, t, None, 0)]
    && s.db.dlq == map[]
    && s.rs == Redis([RootValues("e", ev, "o")], 0, 0, {}, {}, [])
    && s.ps == Procs(map[0 := Appended("e", t, 2, 0)], map[], map[], map[])
  }

  lemma AppendedReachable(c: Config, t: nat) returns (s: State, ev: Event)
    requires ValidConfig(c)
    ensures Reachable(c, s) && JustAppended(s, t, ev)
  {
    ev := Event("force.fail", "s", "{}", t);
    s := Init(t);
    assert Runs(c, s, [], s);
    assert TrimSpace("e") == "e";
    var a := World(Ingest("e", ev, "o", 0, 1));
    ReachableStep(c, s, a);
    s := Apply(c, s, a);
    a := Publish(0, Claim("e", t));
    ReachableStep(c, s, a);
    s := Apply(c, s, a);
    a := Publish(0, AppendRoot(Ok));
    ReachableStep(c, s, a);
    s := Apply(c, s, a);
  }

  /** A jump skips the youngest entry of an event before anyone was handed it. */
  ghost predicate SkipsYoungest(s: State, n: nat, e: string) {
    exists j: nat :: s.rs.handed <= j < n && Youngest(s.rs.stream, e, j)
  }

  lemma SkippedLost(s: State, n: nat, e: string, j: nat)
    requires n <= |s.rs.stream| && Youngest(s.rs.stream, e, j) && j < n
    ensures Accounted(Conservation.Jump(s, n), e) <==> Kept(s, e)
  {
    assert Kept(Conservation.Jump(s, n), e) <==> Kept(s, e);
  }

  lemma AheadKept(s: State, n: nat, e: string, j: nat)
    requires n <= j && Youngest(s.rs.stream, e, j)
    ensures Accounted(Conservation.Jump(s, n), e) && !SkipsYoungest(s, n, e)
  {
    assert EventOf(Conservation.Jump(s, n).rs.stream[j]) == e;
  }

  /** The events that a jump of the group cursor loses are exactly those whose youngest entry it
      skips unread and of which nothing is found elsewhere. */
  lemma JumpLosesIff(c: Config, s: State, n: nat, e: string)
    requires ValidConfig(c) && Reachable(c, s) && n <= |s.rs.stream| && e in s.db.events
    ensures Accounted(Conservation.Jump(s, n), e) <==> !SkipsYoungest(s, n, e) || Kept(s, e)
  {
    ReachableInv(c, s);
    JumpCases(c, s, n, e);
  }

  lemma JumpCases(c: Config, s: State, n: nat, e: string)
    requires ValidConfig(c) && Inv(c, s) && n <= |s.rs.stream| && e in s.db.events
    ensures Accounted(Conservation.Jump(s, n), e) <==> !SkipsYoungest(s, n, e) || Kept(s, e)
  {
    if s.db.outbox[e].published {
      assert HasEntry(s.rs.stream, e);
      var j := LargestEntry(s.rs.stream, |s.rs.stream|, e);
      assert Youngest(s.rs.stream, e, j);
      if n <= j {
        AheadKept(s, n, e, j);
      } else {
        SkippedLost(s, n, e, j);
        if j < s.rs.handed {
          YoungestAccounts(c, s, e, j);
        }
      }
    } else {
      assert Kept(s, e) && Kept(Conservation.Jump(s, n), e);
    }
  }

  /** A forward jump of the cursor can lose an event. */
  lemma JumpLosesEvent(c: Config, t: nat) returns (s: State)
    requires ValidConfig(c)
    ensures Reachable(c, s) && "e" in s.db.events
    ensures s.rs.handed == 0 && |s.rs.stream| == 1
    ensures !Accounted(Conservation.Jump(s, 1), "e")
  {
    var ev: Event;
    s, ev := AppendedReachable(c, t);
    var a := Publish(0, CommitPublished(2, Ok));
    ReachableStep(c, s, a);
    s := Apply(c, s, a);
    assert s.db.history[2].status == Published;
  }

  /** With equal clock readings PROCESSING can read back before PUBLISHED. */
  lemma TieReadsBackwards(c: Config, t: nat) returns (s: State, k: nat, r: nat)
    requires ValidConfig(c) && !c.strictClock
    ensures Reachable(c, s) && k < |s.db.history| && r < |s.db.history|
    ensures s.db.history[r].status.Published? && s.db.history[k].status.Processing?
    ensures s.db.history[k].entry == s.db.history[r].entry
    ensures Before(s.db.history[k], s.db.history[r])
  {
    var ev: Event;
    s, ev := AppendedReachable(c, t);
    s := Processed(c, s, t, ev);
    var a := Publish(0, CommitPublished(3, Ok));
    ReachableStep(c, s, a);
    s := Apply(c, s, a);
    k, r := 2, 3;
  }

  lemma Fetched(c: Config, s: State, t: nat, ev: Event) returns (s': State)
    requires ValidConfig(c) && Reachable(c, s) && JustAppended(s, t, ev)
    ensures Reachable(c, s') && s'.ps.publishers == s.ps.publishers && s'.db == s.db
    ensures JobOf(s'.ps, 0).Job? && JobOf(s'.ps, 0).phase.Took?
    ensures JobOf(s'.ps, 0).entry == 0 && JobOf(s'.ps, 0).since == t
    ensures JobOf(s'.ps, 0).msg == RootValues("e", ev, "o")
    ensures JobOf(s'.ps, 0).retry == ParseRetry(RootValues("e", ev, "o"))
    ensures s'.ps.pumps == map[] && s'.ps.redrives == map[] && WorkerOf(s'.ps, 1) == Worker([], NoJob)
    ensures s'.rs.zset == {} && s'.rs.pel == {0} && s'.rs.stream == [RootValues("e", ev, "o")]
  {
    var a := Work(0, ReadGroup(1, Ok));
    ReachableStep(c, s, a);
    s' := Apply(c, s, a);
    assert WorkerOf(s'.ps, 0) == Worker([0], NoJob);
    a := Work(0, Take);
    ReachableStep(c, s', a);
    s' := Apply(c, s', a);
  }

  /** A worker reads the entry and commits its PROCESSING row while the publisher is still open. */
  lemma Processed(c: Config, s: State, t: nat, ev: Event) returns (s': State)
    requires ValidConfig(c) && !c.strictClock && Reachable(c, s) && JustAppended(s, t, ev)
    ensures Reachable(c, s') && s'.ps.publishers == s.ps.publishers
    ensures s'.db.events == s.db.events && s'.db.outbox == s.db.outbox && |s'.db.history| == 3
    ensures forall k :: 0 <= k < 3 ==> s'.db.history[k].id == k
    ensures s'.db.history[2].status.Processing? && s'.db.history[2].at == t && s'.db.history[2].entry == Some(0)
  {
    s' := Fetched(c, s, t, ev);
    var a := Work(0, RecordProcessing(2, t, Ok));
    ReachableStep(c, s', a);
    s' := Apply(c, s', a);
  }
}
