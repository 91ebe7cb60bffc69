/** Ingestion and request hashing together: what equal keys promise to the callers. */
module Idempotency {
  import opened Ingestion
  import opened RequestHash

  /** The request as the caller wrote it. */
  datatype Submission = Submission(eventType: string, source: string, key: string, payload: string)

  ghost function RequestOf(sha: string -> string, sub: Submission): Request {
    Request(sub.source, sub.key, ComputeRequestHash(sha, sub.eventType, sub.source, sub.payload))
  }

  /** The canonical bytes of a submission whose payload decodes. */
  ghost function BytesOf(sub: Submission): string
    requires Decode(sub.payload).Some?
  {
    CanonicalBytes(sub.eventType, sub.source, Decode(sub.payload).value)
  }

  /** Equal in everything the caller meant: whitespace and member order aside. */
  ghost predicate SameMeaning(a: Submission, b: Submission) {
    && a.eventType == b.eventType && a.source == b.source
    && Decode(a.payload).Some? && Decode(a.payload) == Decode(b.payload)
  }

  /** The digest confuses these two submissions. */
  ghost predicate Collide(sha: string -> string, a: Submission, b: Submission) {
    && Decode(a.payload).Some? && Decode(b.payload).Some?
    && BytesOf(a) != BytesOf(b) && sha(BytesOf(a)) == sha(BytesOf(b))
  }

  /** Hashes agree exactly for requests that mean the same or that the digest confuses. */
  lemma HashIff(sha: string -> string, a: Submission, b: Submission)
    requires RequestOf(sha, a).hash.Some?
    ensures RequestOf(sha, a).hash == RequestOf(sha, b).hash <==> SameMeaning(a, b) || Collide(sha, a, b)
    ensures !(SameMeaning(a, b) && Collide(sha, a, b))
  {
    if Decode(b.payload).Some? {
      RequestHashIff(sha, a.eventType, a.source, a.payload, b.eventType, b.source, b.payload);
    }
  }

  /** Two calls that succeed under one key got the same event, and meant the same request unless
      the digest confuses the two canonical byte strings. */
  lemma OneMeaningPerKey(sha: string -> string, s0: State, acts: seq<Action>, s: State,
                         n: nat, m: nat, a: Submission, b: Submission)
    requires Init(s0) && Runs(s0, acts, s)
    requires Succeeded(s, n) && Succeeded(s, m) && SameKey(s.calls[n].req, s.calls[m].req)
    requires s.calls[n].req == RequestOf(sha, a) && s.calls[m].req == RequestOf(sha, b)
    ensures s.calls[n].result.id == s.calls[m].result.id
    ensures SameMeaning(a, b) || Collide(sha, a, b)
  {
    ExactlyOnce(s0, acts, s, n, m);
    SuccessHasHash(s0, acts, s, n);
    HashIff(sha, a, b);
  }

  lemma SuccessHasHash(s0: State, acts: seq<Action>, s: State, n: nat)
    requires Init(s0) && Runs(s0, acts, s) && Succeeded(s, n)
    ensures s.calls[n].req.hash.Some?
  {
    InitInv(s0);
    RunKeeps(s0, acts, s);
    assert CallOk(s, s.calls[n]);
  }

  /** A repeated key conflicts exactly when the stored request meant something else and the digest
      tells the two apart. */
  lemma ConflictIffDifferent(sha: string -> string, s: State, n: nat, id: string, stored: Submission, again: Submission)
    requires Inv(s) && Enabled(s, Lookup(n, id))
    requires s.calls[n].req == RequestOf(sha, again)
    requires s.events[id].hash == RequestOf(sha, stored).hash && s.events[id].hash.Some?
    ensures Apply(s, Lookup(n, id)).calls[n] == Done(s.calls[n].req, Conflict)
            <==> !SameMeaning(stored, again) && !Collide(sha, stored, again)
  {
    ConflictIff(s, n, id);
    HashIff(sha, stored, again);
  }
}
