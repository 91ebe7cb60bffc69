/** The idempotent receiver (cmd/mock-destination/main.go). */
module Receipts {
  import opened Text

  datatype Mode = Healthy | TemporaryFailure | ValidationFailure

  /** validateModeRequest */
  function ModeOf(name: string): Option<Mode> {
    if name == "healthy" then Some(Healthy)
    else if name == "temporary_failure" then Some(TemporaryFailure)
    else if name == "validation_failure" then Some(ValidationFailure)
    else None
  }

  /** The fields of receiptServer; `accepted` lists the keys of the receipts applied so far,
      one element per increment of `successful`. */
  datatype Server = Server(
    mode: Mode, failNext: nat, seenKeys: set<string>,
    total: nat, successful: nat, duplicates: nat, failed: nat,
    accepted: seq<string>)

  const FRESH := Server(Healthy, 0, {}, 0, 0, 0, 0, [])

  datatype Reply = Reply(code: nat, duplicate: bool)

  function Fail(s: Server): Server {
    s.(total := s.total + 1, failed := s.failed + 1)
  }

  /** What applyReceipt leaves behind for a trimmed idempotency key. */
  function AfterReceipt(s: Server, key: string): Server {
    if s.failNext > 0 then Fail(s).(failNext := s.failNext - 1)
    else if !s.mode.Healthy? then Fail(s)
    else if key != "" && key in s.seenKeys then
      s.(total := s.total + 1, duplicates := s.duplicates + 1)
    else s.(total := s.total + 1, successful := s.successful + 1,
            seenKeys := if key == "" then s.seenKeys else s.seenKeys + {key},
            accepted := s.accepted + [key])
  }

  function ReceiptReply(s: Server, key: string): Reply {
    if s.failNext > 0 || s.mode.TemporaryFailure? then Reply(500, false)
    else if s.mode.ValidationFailure? then Reply(400, false)
    else Reply(200, key != "" && key in s.seenKeys)
  }

  /** handleReceipts: `valid` says the body decodes and names an invoice. */
  function Handle(s: Server, header: string, valid: bool): Server {
    if valid then AfterReceipt(s, TrimSpace(header)) else Fail(s)
  }

  function HandleReply(s: Server, header: string, valid: bool): Reply {
    if valid then ReceiptReply(s, TrimSpace(header)) else Reply(400, false)
  }

  /** How often a receipt for `key` has been applied. */
  function Applied(accepted: seq<string>, key: string): nat {
    multiset(accepted)[key]
  }

  /** The receiver's promise: no key twice, and every request counted once. */
  ghost predicate Consistent(s: Server) {
    && s.total == s.successful + s.duplicates + s.failed
    && s.successful == |s.accepted|
    && (forall key :: key != "" ==>
          Applied(s.accepted, key) == if key in s.seenKeys then 1 else 0)
    && "" !in s.seenKeys
  }

  lemma FreshConsistent()
    ensures Consistent(FRESH)
  {
  }

  /** Every request keeps the promise and forgets no key; a 200 answer means the key is recorded. */
  lemma HandleKeeps(s: Server, header: string, valid: bool)
    requires Consistent(s)
    ensures Consistent(Handle(s, header, valid))
    ensures s.seenKeys <= Handle(s, header, valid).seenKeys
    ensures s.accepted <= Handle(s, header, valid).accepted
    ensures HandleReply(s, header, valid).code == 200 && TrimSpace(header) != ""
            ==> TrimSpace(header) in Handle(s, header, valid).seenKeys
    ensures HandleReply(s, header, valid).code in {200, 400, 500}
  {
    var key := TrimSpace(header);
    if valid && AfterReceipt(s, key).accepted != s.accepted {
      assert multiset(s.accepted + [key]) == multiset(s.accepted) + multiset{key};
    }
  }

  // ---- What a sequence of requests sees ----------------------------------------------------

  /** Well-formed requests with these trimmed keys, one after the other. */
  function Serve(s: Server, keys: seq<string>): Server
    decreases |keys|
  {
    if keys == [] then s else Serve(AfterReceipt(s, keys[0]), keys[1..])
  }

  function Replies(s: Server, keys: seq<string>): (replies: seq<Reply>)
    ensures |replies| == |keys|
    decreases |keys|
  {
    if keys == [] then [] else [ReceiptReply(s, keys[0])] + Replies(AfterReceipt(s, keys[0]), keys[1..])
  }

  /** fail_next makes exactly that many requests fail with 500, whatever the mode, and they leave no
      key behind. */
  lemma {:induction false} ForcedFailures(s: Server, keys: seq<string>)
    requires |keys| <= s.failNext
    ensures forall i :: 0 <= i < |keys| ==> Replies(s, keys)[i] == Reply(500, false)
    ensures Serve(s, keys) ==
            s.(failNext := s.failNext - |keys|, total := s.total + |keys|, failed := s.failed + |keys|)
    decreases |keys|
  {
    if keys != [] {
      ForcedFailures(AfterReceipt(s, keys[0]), keys[1..]);
    }
  }

  /** Then the mode decides: 500 or 400 for every request, without a trace but the counts. */
  lemma {:induction false} ModeFailures(s: Server, keys: seq<string>)
    requires s.failNext == 0 && !s.mode.Healthy?
    ensures forall i :: 0 <= i < |keys| ==>
              Replies(s, keys)[i] == Reply(if s.mode.TemporaryFailure? then 500 else 400, false)
    ensures Serve(s, keys) == s.(total := s.total + |keys|, failed := s.failed + |keys|)
    decreases |keys|
  {
    if keys != [] {
      ModeFailures(AfterReceipt(s, keys[0]), keys[1..]);
    }
  }

  /** A healthy server accepts every request, records its key, and calls it a duplicate exactly if a
      request with that key was accepted before. */
  lemma {:induction false} HealthyServes(s: Server, keys: seq<string>)
    requires s.failNext == 0 && s.mode.Healthy?
    ensures forall i :: 0 <= i < |keys| ==>
              && Replies(s, keys)[i].code == 200
              && (Replies(s, keys)[i].duplicate <==> keys[i] != "" && (keys[i] in s.seenKeys || keys[i] in keys[..i]))
    ensures Serve(s, keys).seenKeys == s.seenKeys + set k | k in keys && k != ""
    ensures Serve(s, keys).failed == s.failed && Serve(s, keys).total == s.total + |keys|
    decreases |keys|
  {
    if keys != [] {
      var s1, rest := AfterReceipt(s, keys[0]), keys[1..];
      HealthyServes(s1, rest);
      assert keys == [keys[0]] + rest;
      forall i | 0 < i < |keys|
        ensures Replies(s, keys)[i].duplicate <==> keys[i] != "" && (keys[i] in s.seenKeys || keys[i] in keys[..i]) {
        assert keys[..i] == [keys[0]] + rest[..i - 1];
        assert Replies(s, keys)[i] == Replies(s1, rest)[i - 1];
      }
    }
  }

  /** A body that is refused is answered 400 and counted as failed, whatever the mode; otherwise the key
      is the trimmed header. */
  lemma BodyDecides(s: Server, header: string, key: string)
    requires TrimSpace(header) == key
    ensures HandleReply(s, header, false) == Reply(400, false)
    ensures Handle(s, header, false) == s.(total := s.total + 1, failed := s.failed + 1)
    ensures HandleReply(s, header, true) == Replies(s, [key])[0] && Handle(s, header, true) == Serve(s, [key])
  {
    assert [key][1..] == [];
  }

  class ReceiptServer {
    var mode: Mode
    var failNext: nat
    var seenKeys: set<string>
    var total: nat
    var successful: nat
    var duplicates: nat
    var failed: nat
    var accepted: seq<string>

    function Now(): Server
      reads this
    {
      Server(mode, failNext, seenKeys, total, successful, duplicates, failed, accepted)
    }

    constructor ()
      ensures Now() == FRESH && Consistent(Now())
    {
      mode, failNext, seenKeys, accepted := Healthy, 0, {}, [];
      total, successful, duplicates, failed := 0, 0, 0, 0;
    }

    /** applyReceipt, with `key` already trimmed. */
    method ApplyReceipt(key: string) returns (status: nat, duplicate: bool)
      requires Consistent(Now()) && TrimSpace(key) == key
      modifies this
      ensures Now() == AfterReceipt(old(Now()), key)
      ensures Reply(status, duplicate) == ReceiptReply(old(Now()), key)
      ensures Consistent(Now())
      ensures status == 200 && key != "" ==> Applied(accepted, key) == 1
    {
      HandleKeeps(Now(), key, true);
      total := total + 1;
      if failNext > 0 {
        failNext := failNext - 1;
        failed := failed + 1;
        return 500, false;
      }
      match mode {
        case TemporaryFailure =>
          failed := failed + 1;
          return 500, false;
        case ValidationFailure =>
          failed := failed + 1;
          return 400, false;
        case Healthy =>
      }
      if key != "" {
        if key in seenKeys {
          duplicates := duplicates + 1;
          return 200, true;
        }
        seenKeys := seenKeys + {key};
      }
      successful := successful + 1;
      accepted := accepted + [key];
      return 200, false;
    }

    method RecordFailure()
      requires Consistent(Now())
      modifies this
      ensures Now() == Fail(old(Now())) && Consistent(Now())
    {
      total := total + 1;
      failed := failed + 1;
    }

    /** handleControlMode: a negative count or an unsupported mode is refused, and a mode change
        never forgets a key or a count. */
    method SetMode(name: string, newFailNext: int) returns (ok: bool)
      requires Consistent(Now())
      modifies this`mode, this`failNext
      ensures ok <==> newFailNext >= 0 && ModeOf(name).Some?
      ensures ok ==> Now() == old(Now()).(mode := ModeOf(name).value, failNext := newFailNext)
      ensures ok ==> mode == if name == "healthy" then Healthy
                             else if name == "temporary_failure" then TemporaryFailure
                             else ValidationFailure
      ensures !ok ==> Now() == old(Now())
      ensures Consistent(Now())
    {
      if newFailNext < 0 {
        return false;
      }
      match ModeOf(name) {
        case None => ok := false;
        case Some(newMode) =>
          mode, failNext := newMode, newFailNext;
          ok := true;
      }
    }
  }
}
