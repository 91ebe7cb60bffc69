/** The explanation snapshot (internal/httpapi/event_explain.go) against the checks of its
    receiver (ai-service/src/eventrail_ai/explainer.py). */
module Explain {
  import opened Text
  import opened Delivery
  import opened Protocol
  import opened Safety
  import opened Ordering
  import opened HistoryBound
  import Conservation
  import Records

  const MAX_ATTEMPTS := 20
  const MAX_ERROR := 1000

  // ---- Delivery attempts ---------------------------------------------------------------

  /** A delivery_attempts row with its error column. */
  datatype StoredAttempt = StoredAttempt(row: AttemptRow, error: Option<string>)

  datatype AttemptOutcome = AsSuccess | AsTemporary | AsPermanent | AsTransport | AsUnknown

  datatype ExplainAttempt = ExplainAttempt(
    number: nat, httpStatus: Option<nat>, outcome: AttemptOutcome, error: Option<string>)

  /** strings.ToLower on ASCII letters. */
  function Lower(s: string): string {
    seq(|s|, i requires 0 <= i < |s| => if 'A' <= s[i] <= 'Z' then s[i] + 32 as char else s[i])
  }

  /** strings.Contains */
  predicate Contains(s: string, part: string)
    decreases |s|
  {
    part <= s || (s != "" && Contains(s[1..], part))
  }

  predicate ContainsAny(s: string, parts: seq<string>) {
    exists k :: 0 <= k < |parts| && Contains(s, parts[k])
  }

  const PERMANENT := ["permanent"]
  const TRANSPORT := ["timeout", "connection", "no such host", "deliver webhook request"]
  const RETRYABLE := ["retryable"]

  function OutcomeOfText(error: Option<string>): AttemptOutcome {
    var text := Lower(if error.Some? then error.value else "");
    if ContainsAny(text, PERMANENT) then AsPermanent
    else if ContainsAny(text, TRANSPORT) then AsTransport
    else if ContainsAny(text, RETRYABLE) then AsTemporary
    else AsUnknown
  }

  function ExplainAttemptOutcome(a: StoredAttempt): AttemptOutcome {
    var code := a.row.code;
    if code.Some? && 200 <= code.value <= 299 then AsSuccess
    else if code.Some? && ClassifyHTTPStatus(code.value) == Some(Retryable) then AsTemporary
    else if code.Some? && ClassifyHTTPStatus(code.value) == Some(Permanent) then AsPermanent
    else if a.row.success then AsSuccess
    else OutcomeOfText(a.error)
  }

  /** How the receiver measures a text: without surrounding blanks, not empty, bounded. */
  predicate Fits(s: string, max: nat) {
    1 <= |TrimSpace(s)| <= max
  }

  const BUSINESS := ["invoice_id", "amount", "currency"]
  const LINKS := ["http://", "https://"]
  const CREDENTIALS := ["authorization", "token", "secret"]
  const INTERNALS := ["stack trace", "panic", "database", "dsn"]

  datatype Sensitivity = NamesFields | NamesLink | NamesCredential | NamesInternals | Harmless

  function SensitivityOf(message: string): Sensitivity {
    var lower := Lower(message);
    if ContainsAny(lower, BUSINESS) then NamesFields
    else if ContainsAny(lower, LINKS) then NamesLink
    else if ContainsAny(lower, CREDENTIALS) then NamesCredential
    else if ContainsAny(lower, INTERNALS) then NamesInternals
    else Harmless
  }

  /** Begins and ends with a visible character. */
  predicate Tight(s: string) {
    s != "" && !IsSpace(s[0]) && !IsSpace(s[|s| - 1])
  }

  /** What is told instead of an error that names something sensitive. */
  function Notice(kind: Sensitivity): (s: string)
    requires kind.NamesFields? || kind.NamesLink? || kind.NamesCredential?
    ensures Tight(s)
  {
    match kind
    case NamesFields => "Required destination field was missing"
    case NamesLink => "Destination delivery failed " + "before a safe HTTP " + "response was recorded"
    case NamesCredential =>
      "Destination rejected the " + "request with an authentication " + "or authorization error"
  }

  /** Bytes of a character in UTF-8. */
  function Utf8Length(c: char): (n: nat)
    ensures 1 <= n <= 4
  {
    if c < '\U{80}' then 1 else if c < '\U{800}' then 2 else if c < '\U{10000}' then 3 else 4
  }

  /** len of a string. */
  function ByteLength(s: string): (n: nat)
    ensures |s| <= n
  {
    if s == "" then 0 else Utf8Length(s[0]) + ByteLength(s[1..])
  }

  const REPLACEMENT := '\U{FFFD}'

  /** The first `n` bytes of a text as the receiver decodes them: every byte of a character that
      was cut apart becomes a replacement character. */
  function CutBytes(s: string, n: nat): (r: string)
    ensures |r| <= n
    ensures s != "" && n >= Utf8Length(s[0]) ==> r != "" && r[0] == s[0]
  {
    if s == "" then ""
    else if Utf8Length(s[0]) <= n then [s[0]] + CutBytes(s[1..], n - Utf8Length(s[0]))
    else seq(n, _ => REPLACEMENT)
  }

  /** Of an ASCII text the cut keeps exactly the first bytes. */
  lemma {:induction false} AsciiCut(s: string, n: nat)
    requires n <= |s| && forall k :: 0 <= k < |s| ==> s[k] < '\U{80}'
    ensures CutBytes(s, n) == s[..n] && ByteLength(s) == |s|
    decreases |s|
  {
    if s != "" {
      AsciiCut(s[1..], if n > 0 then n - 1 else 0);
      assert n > 0 ==> s[..n] == [s[0]] + s[1..][..n - 1];
    }
  }

  /** Cut to the receiver's bound. */
  function Shortened(message: string): (r: string)
    requires Tight(message)
    ensures Fits(r, MAX_ERROR)
  {
    if ByteLength(message) > MAX_ERROR then
      var cut := CutBytes(message, MAX_ERROR);
      assert !IsSpace(cut[0]);
      TrimSpace(cut)
    else message
  }

  /** An error text is dropped exactly when it is blank or names internals; what is kept fits the
      receiver's bound, and it depends on the text only if that names nothing sensitive. */
  function SafeExplainError(error: Option<string>): (r: Option<string>)
    ensures r.Some? ==> Fits(r.value, MAX_ERROR)
    ensures r.None? <==> error.None? || TrimSpace(error.value) == ""
                         || SensitivityOf(TrimSpace(error.value)).NamesInternals?
    ensures r.Some? && !SensitivityOf(TrimSpace(error.value)).Harmless? ==>
              r.value == Shortened(Notice(SensitivityOf(TrimSpace(error.value))))
    ensures r.Some? && SensitivityOf(TrimSpace(error.value)).Harmless? && ByteLength(TrimSpace(error.value)) <= 1000 ==>
              r.value == TrimSpace(error.value)
  {
    if error.None? || TrimSpace(error.value) == "" then None
    else
      var message := TrimSpace(error.value);
      var kind := SensitivityOf(message);
      if kind.NamesInternals? then None
      else Some(Shortened(if kind.Harmless? then message else Notice(kind)))
  }

  function Numbered(attempts: seq<StoredAttempt>): seq<ExplainAttempt> {
    seq(|attempts|, i requires 0 <= i < |attempts| =>
      ExplainAttempt(i + 1, attempts[i].row.code, ExplainAttemptOutcome(attempts[i]),
                     SafeExplainError(attempts[i].error)))
  }

  /** The last 20. */
  function Recent<T>(items: seq<T>): seq<T> {
    if |items| <= MAX_ATTEMPTS then items else items[|items| - MAX_ATTEMPTS..]
  }

  method ExplainDeliveryAttempts(attempts: seq<StoredAttempt>) returns (items: seq<ExplainAttempt>)
    ensures items == Numbered(attempts)
  {
    items := [];
    var i := 0;
    while i < |attempts|
      invariant 0 <= i <= |attempts|
      invariant items == Numbered(attempts)[..i]
    {
      items := items + [ExplainAttempt(i + 1, attempts[i].row.code, ExplainAttemptOutcome(attempts[i]),
                                       SafeExplainError(attempts[i].error))];
      i := i + 1;
    }
  }

  /** The notices speak of a missing field, a failed delivery and a rejected request. */
  lemma NoticeTexts()
    ensures "Required destination" <= Notice(NamesFields)
    ensures "Destination delivery failed" <= Notice(NamesLink)
    ensures "Destination rejected" <= Notice(NamesCredential)
  {
  }

  // ---- What the words mean ---------------------------------------------------------------

  /** The text has the word somewhere, in any case of letters. */
  ghost predicate Has(text: string, word: string) {
    exists x, y :: Lower(text) == x + word + y
  }

  lemma {:induction false} ContainsFound(s: string, part: string)
    requires Contains(s, part)
    ensures exists x, y :: s == x + part + y
    decreases |s|
  {
    if part <= s {
      assert s == "" + part + s[|part|..];
    } else {
      ContainsFound(s[1..], part);
      var x, y :| s[1..] == x + part + y;
      assert s == ([s[0]] + x) + part + y;
    }
  }

  lemma {:induction false} ContainsInfix(x: string, part: string, y: string)
    ensures Contains(x + part + y, part)
    decreases |x|
  {
    var s := x + part + y;
    if x == "" {
      assert part <= s;
    } else {
      assert s[1..] == x[1..] + part + y;
      ContainsInfix(x[1..], part, y);
    }
  }

  lemma HasIff(text: string, word: string)
    ensures Contains(Lower(text), word) <==> Has(text, word)
  {
    if Contains(Lower(text), word) {
      ContainsFound(Lower(text), word);
    }
    if Has(text, word) {
      var x, y :| Lower(text) == x + word + y;
      ContainsInfix(x, word, y);
    }
  }

  /** Case does not matter, and nothing else changes. */
  lemma LowerMeans(s: string, i: nat)
    requires i < |s|
    ensures |Lower(s)| == |s|
    ensures 'A' <= s[i] <= 'Z' ==>
              'a' <= Lower(s)[i] <= 'z' && Lower(s)[i] as int - 'a' as int == s[i] as int - 'A' as int
    ensures !('A' <= s[i] <= 'Z') ==> Lower(s)[i] == s[i]
  {
  }

  lemma AnyOf1(s: string, a: string)
    ensures ContainsAny(s, [a]) <==> Contains(s, a)
  {
    assert Contains(s, a) ==> Contains(s, [a][0]);
  }

  lemma AnyOf4(s: string, a: string, b: string, c: string, d: string)
    ensures ContainsAny(s, [a, b, c, d]) <==> Contains(s, a) || Contains(s, b) || Contains(s, c) || Contains(s, d)
  {
    var parts := [a, b, c, d];
    assert Contains(s, a) ==> Contains(s, parts[0]);
    assert Contains(s, b) ==> Contains(s, parts[1]);
    assert Contains(s, c) ==> Contains(s, parts[2]);
    assert Contains(s, d) ==> Contains(s, parts[3]);
  }

  lemma AnyOf3(s: string, a: string, b: string, c: string)
    ensures ContainsAny(s, [a, b, c]) <==> Contains(s, a) || Contains(s, b) || Contains(s, c)
  {
    var parts := [a, b, c];
    assert Contains(s, a) ==> Contains(s, parts[0]);
    assert Contains(s, b) ==> Contains(s, parts[1]);
    assert Contains(s, c) ==> Contains(s, parts[2]);
  }

  lemma AnyOf2(s: string, a: string, b: string)
    ensures ContainsAny(s, [a, b]) <==> Contains(s, a) || Contains(s, b)
  {
    var parts := [a, b];
    assert Contains(s, a) ==> Contains(s, parts[0]);
    assert Contains(s, b) ==> Contains(s, parts[1]);
  }

  /** A failed attempt with a response code is explained by the code: 408, 425, 429 and server errors
      are temporary, other client errors permanent. */
  lemma ExplainedByCode(a: StoredAttempt)
    requires a.row.code.Some?
    ensures 200 <= a.row.code.value <= 299 ==> ExplainAttemptOutcome(a) == AsSuccess
    ensures a.row.code.value in {408, 425, 429} || 500 <= a.row.code.value <= 599 ==>
              ExplainAttemptOutcome(a) == AsTemporary
    ensures 400 <= a.row.code.value <= 499 && a.row.code.value !in {408, 425, 429} ==>
              ExplainAttemptOutcome(a) == AsPermanent
  {
  }

  /** Without one, a failed attempt is explained by the words of its error. */
  lemma ExplainedByWords(a: StoredAttempt, text: string)
    requires a.row.code.None? && !a.row.success && a.error == Some(text)
    ensures var transport := Has(text, "timeout") || Has(text, "connection") || Has(text, "no such host")
                             || Has(text, "deliver webhook request");
            ExplainAttemptOutcome(a) ==
              if Has(text, "permanent") then AsPermanent
              else if transport then AsTransport
              else if Has(text, "retryable") then AsTemporary
              else AsUnknown
  {
    var lower := Lower(text);
    AnyOf1(lower, "permanent");
    AnyOf4(lower, "timeout", "connection", "no such host", "deliver webhook request");
    AnyOf1(lower, "retryable");
    HasIff(text, "permanent");
    HasIff(text, "timeout");
    HasIff(text, "connection");
    HasIff(text, "no such host");
    HasIff(text, "deliver webhook request");
    HasIff(text, "retryable");
  }

  /** What an error text gives away, by its words, the first that applies. */
  lemma SensitivityByWords(text: string)
    ensures SensitivityOf(text) ==
              if Has(text, "invoice_id") || Has(text, "amount") || Has(text, "currency") then NamesFields
              else if Has(text, "http://") || Has(text, "https://") then NamesLink
              else if Has(text, "authorization") || Has(text, "token") || Has(text, "secret") then NamesCredential
              else if Has(text, "stack trace") || Has(text, "panic") || Has(text, "database") || Has(text, "dsn")
              then NamesInternals
              else Harmless
  {
    var lower := Lower(text);
    AnyOf3(lower, "invoice_id", "amount", "currency");
    AnyOf2(lower, "http://", "https://");
    AnyOf3(lower, "authorization", "token", "secret");
    AnyOf4(lower, "stack trace", "panic", "database", "dsn");
    HasIff(text, "invoice_id");
    HasIff(text, "amount");
    HasIff(text, "currency");
    HasIff(text, "http://");
    HasIff(text, "https://");
    HasIff(text, "authorization");
    HasIff(text, "token");
    HasIff(text, "secret");
    HasIff(text, "stack trace");
    HasIff(text, "panic");
    HasIff(text, "database");
    HasIff(text, "dsn");
  }

  // ---- Status history --------------------------------------------------------------------

  function Items(history: seq<Row>): seq<HistoryItem> {
    seq(|history|, i requires 0 <= i < |history| => HistoryItem(history[i].status, history[i].at))
  }

  function Count(history: seq<Row>, status: Status): nat {
    if history == [] then 0
    else Count(history[..|history| - 1], status) + if history[|history| - 1].status == status then 1 else 0
  }

  /** The largest next_retry detail of a RETRYING row, and at least 0. */
  function MaxRetry(history: seq<Row>): (r: int)
    ensures r >= 0
    ensures forall k :: 0 <= k < |history| && history[k].status.Retrying? ==> history[k].retry + 1 <= r
    ensures r == 0 || exists k :: 0 <= k < |history| && history[k].status.Retrying? && history[k].retry + 1 == r
  {
    if history == [] then 0
    else
      var row := history[|history| - 1];
      var rest := MaxRetry(history[..|history| - 1]);
      if row.status.Retrying? && row.retry + 1 > rest then row.retry + 1 else rest
  }

  function RetryCount(history: seq<Row>): nat {
    if MaxRetry(history) > 0 then MaxRetry(history) else Count(history, Retrying)
  }

  /** RETRYING details hold next_retry == retry + 1, so the retry detail never decides. */
  method RetryCountFromHistory(history: seq<Row>) returns (n: nat)
    ensures n == RetryCount(history)
  {
    var maxRetry, retrying := 0, 0;
    var i := 0;
    while i < |history|
      invariant 0 <= i <= |history|
      invariant maxRetry == MaxRetry(history[..i]) && retrying == Count(history[..i], Retrying)
    {
      assert history[..i + 1][..i] == history[..i];
      if history[i].status.Retrying? {
        retrying := retrying + 1;
        if history[i].retry + 1 > maxRetry {
          maxRetry := history[i].retry + 1;
        }
      }
      i := i + 1;
    }
    assert history[..i] == history;
    n := if maxRetry > 0 then maxRetry else retrying;
  }

  method CountStatus(history: seq<Row>, status: Status) returns (n: nat)
    ensures n == Count(history, status)
  {
    n := 0;
    var i := 0;
    while i < |history|
      invariant 0 <= i <= |history|
      invariant n == Count(history[..i], status)
    {
      assert history[..i + 1][..i] == history[..i];
      if history[i].status == status {
        n := n + 1;
      }
      i := i + 1;
    }
    assert history[..i] == history;
  }

  method StatusHistoryContains(history: seq<Row>, status: Status) returns (found: bool)
    ensures found <==> Count(history, status) > 0
  {
    found := false;
    var i := 0;
    while i < |history|
      invariant 0 <= i <= |history|
      invariant found <==> Count(history[..i], status) > 0
    {
      assert history[..i + 1][..i] == history[..i];
      if history[i].status == status {
        found := true;
      }
      i := i + 1;
    }
    assert history[..i] == history;
  }

  // ---- The snapshot ----------------------------------------------------------------------

  datatype Snapshot = Snapshot(
    eventType: string, businessEventType: Option<string>, source: string, destination: string,
    currentStatus: Status, history: seq<HistoryItem>, attempts: seq<ExplainAttempt>,
    retryCount: int, enteredDlq: bool, redriveCount: int, delivered: bool)

  datatype ExplainResult = Ready(snapshot: Snapshot) | NotFound | NotReady

  /** The decoded business_event_type, absent when blank. */
  function BusinessType(raw: Option<string>): Option<string> {
    if raw.None? || TrimSpace(raw.value) == "" then None else Some(TrimSpace(raw.value))
  }

  function Destination(business: Option<string>): string {
    if business == Some("invoice.paid") then "Receipt Service" else "Webhook destination"
  }

  /** What one call read: the event, its history and attempts, and then its DLQ record. */
  datatype Reads = Reads(
    event: Option<Event>, history: seq<Row>, attempts: seq<StoredAttempt>, record: Option<DlqRecord>,
    business: Option<string>)

  function Redrives(r: Reads): nat {
    if Count(r.history, Redriven) == 0 && r.record.Some? && r.record.value.redrivenAt.Some? then 1
    else Count(r.history, Redriven)
  }

  ghost predicate SnapshotOf(r: Reads, snap: Snapshot) {
    && r.event.Some? && r.history != []
    && snap.eventType == r.event.value.eventType && snap.source == r.event.value.source
    && snap.businessEventType == BusinessType(r.business)
    && snap.destination == Destination(BusinessType(r.business))
    && snap.currentStatus == r.history[|r.history| - 1].status
    && snap.delivered == snap.currentStatus.Delivered?
    && IsBounded(Items(r.history), snap.history)
    && snap.attempts == Recent(Numbered(r.attempts))
    && snap.retryCount == RetryCount(r.history)
    && snap.enteredDlq == (r.record.Some? || Count(r.history, DeadLettered) > 0)
    && snap.redriveCount == Redrives(r)
  }

  method ExplainRequestFromStore(r: Reads) returns (result: ExplainResult)
    ensures result.NotFound? <==> r.event.None?
    ensures result.Ready? <==> r.event.Some? && r.history != []
    ensures result.Ready? ==> SnapshotOf(r, result.snapshot)
  {
    if r.event.None? {
      return NotFound;
    }
    if r.history == [] {
      return NotReady;
    }
    var current := r.history[|r.history| - 1].status;
    var attempts := ExplainDeliveryAttempts(r.attempts);
    var business := BusinessType(r.business);
    var dead := StatusHistoryContains(r.history, DeadLettered);
    var redrives := CountStatus(r.history, Redriven);
    if redrives == 0 && r.record.Some? && r.record.value.redrivenAt.Some? {
      redrives := 1;
    }
    var bounded := BoundExplainHistory(Items(r.history));
    var retries := RetryCountFromHistory(r.history);
    result := Ready(Snapshot(r.event.value.eventType, business, r.event.value.source, Destination(business),
                             current, bounded, Recent(attempts), retries, r.record.Some? || dead, redrives,
                             current.Delivered?));
  }

  // ---- The receiver's checks -----------------------------------------------------------

  /** _validate_snapshot and the list bounds. */
  ghost predicate Structural(snap: Snapshot) {
    && |snap.history| <= 20 && |snap.attempts| <= 20
    && (snap.history != [] || snap.attempts != [])
    && (forall i, j :: 0 <= i < j < |snap.attempts| ==> snap.attempts[i].number != snap.attempts[j].number)
    && (snap.delivered <==> snap.currentStatus.Delivered?)
    && (snap.currentStatus.DeadLettered? ==> snap.enteredDlq)
    && ((exists k :: 0 <= k < |snap.history| && snap.history[k].status.DeadLettered?) ==> snap.enteredDlq)
    && (snap.redriveCount > 0 ==> snap.enteredDlq)
    && snap.retryCount >= 0 && snap.redriveCount >= 0
  }

  ghost predicate AttemptAccepted(a: ExplainAttempt) {
    && a.number >= 1
    && (a.httpStatus.Some? ==> 100 <= a.httpStatus.value <= 599)
    && (a.error.Some? ==> Fits(a.error.value, 1000))
  }

  ghost predicate Accepted(snap: Snapshot) {
    && Structural(snap)
    && Fits(snap.eventType, 80) && Fits(snap.source, 120) && Fits(snap.destination, 120)
    && (snap.businessEventType.Some? ==> Fits(snap.businessEventType.value, 120))
    && (forall k :: 0 <= k < |snap.attempts| ==> AttemptAccepted(snap.attempts[k]))
  }

  /** The bounds that no code on the sending side enforces. */
  ghost predicate WithinBounds(r: Reads) {
    && r.event.Some? && Fits(r.event.value.eventType, 80) && Fits(r.event.value.source, 120)
    && (r.business.Some? ==> |TrimSpace(r.business.value)| <= 120)
    && (forall k :: 0 <= k < |r.attempts| && |r.attempts| - MAX_ATTEMPTS <= k && r.attempts[k].row.code.Some?
          ==> 100 <= r.attempts[k].row.code.value <= 599)
  }

  // ---- Reading reachable stores ----------------------------------------------------------

  function InsertAttempt(a: AttemptRow, rows: seq<AttemptRow>): seq<AttemptRow> {
    if rows == [] || a.startedAt < rows[0].startedAt then [a] + rows
    else [rows[0]] + InsertAttempt(a, rows[1..])
  }

  /** fetchDeliveryAttempts: the attempts of one event by started_at, and as committed among equals. */
  function ReadAttempts(attempts: seq<AttemptRow>, e: string): seq<AttemptRow> {
    if attempts == [] then []
    else
      var rest := ReadAttempts(attempts[..|attempts| - 1], e);
      var a := attempts[|attempts| - 1];
      if a.event == e then InsertAttempt(a, rest) else rest
  }

  ghost predicate InStartOrder(rows: seq<AttemptRow>) {
    forall i, j :: 0 <= i < j < |rows| ==> rows[i].startedAt <= rows[j].startedAt
  }

  function AttemptsOf(attempts: seq<AttemptRow>, e: string): seq<AttemptRow> {
    if attempts == [] then []
    else
      var a := attempts[|attempts| - 1];
      AttemptsOf(attempts[..|attempts| - 1], e) + if a.event == e then [a] else []
  }

  lemma {:induction false} InsertAttemptAdds(a: AttemptRow, rows: seq<AttemptRow>)
    ensures multiset(InsertAttempt(a, rows)) == multiset(rows) + multiset{a}
  {
    if rows == [] || a.startedAt < rows[0].startedAt {
      assert multiset([a] + rows) == multiset{a} + multiset(rows);
    } else {
      InsertAttemptAdds(a, rows[1..]);
      assert rows == [rows[0]] + rows[1..];
    }
  }

  lemma LaterThanFirst(rows: seq<AttemptRow>, x: AttemptRow)
    requires InStartOrder(rows) && rows != [] && x in rows[1..]
    ensures rows[0].startedAt <= x.startedAt
  {
    var k :| 0 <= k < |rows[1..]| && rows[1..][k] == x;
    assert rows[k + 1] == x;
  }

  lemma {:induction false} InsertAttemptSorts(a: AttemptRow, rows: seq<AttemptRow>)
    requires InStartOrder(rows)
    ensures InStartOrder(InsertAttempt(a, rows))
  {
    if rows != [] && a.startedAt >= rows[0].startedAt {
      var rest := InsertAttempt(a, rows[1..]);
      InsertAttemptSorts(a, rows[1..]);
      InsertAttemptAdds(a, rows[1..]);
      forall x | x in rest ensures rows[0].startedAt <= x.startedAt {
        assert x in multiset(rest);
        if x != a {
          LaterThanFirst(rows, x);
        }
      }
      StartOrderCons(rows[0], rest);
    }
  }

  lemma StartOrderCons(first: AttemptRow, rest: seq<AttemptRow>)
    requires InStartOrder(rest) && forall x :: x in rest ==> first.startedAt <= x.startedAt
    ensures InStartOrder([first] + rest)
  {
    var rows := [first] + rest;
    forall i, j | 0 <= i < j < |rows| ensures rows[i].startedAt <= rows[j].startedAt {
      assert rows[j] == rest[j - 1];
    }
  }

  /** Reading the attempts sorts them: all attempts of the event, each once, in order of their start. */
  lemma {:induction false} ReadAttemptsSorts(attempts: seq<AttemptRow>, e: string)
    ensures InStartOrder(ReadAttempts(attempts, e))
    ensures multiset(ReadAttempts(attempts, e)) == multiset(AttemptsOf(attempts, e))
    ensures |ReadAttempts(attempts, e)| == Conservation.TallyAttempts(attempts, e)
  {
    if attempts != [] {
      var front, a := attempts[..|attempts| - 1], attempts[|attempts| - 1];
      ReadAttemptsSorts(front, e);
      if a.event == e {
        var rest := ReadAttempts(front, e);
        InsertAttemptSorts(a, rest);
        InsertAttemptAdds(a, rest);
        assert |multiset(InsertAttempt(a, rest))| == |multiset(rest)| + 1;
      }
    }
  }

  lemma {:induction false} AttemptsOfMembers(attempts: seq<AttemptRow>, e: string, x: AttemptRow)
    ensures x in AttemptsOf(attempts, e) <==> x in attempts && x.event == e
  {
    if attempts != [] {
      var front, a := attempts[..|attempts| - 1], attempts[|attempts| - 1];
      AttemptsOfMembers(front, e, x);
      assert attempts == front + [a];
    }
  }

  /** The rows read are those of the event, in the order of the query. */
  ghost predicate SameRows(attempts: seq<StoredAttempt>, stored: seq<AttemptRow>, e: string) {
    && |attempts| == |ReadAttempts(stored, e)|
    && forall k :: 0 <= k < |attempts| ==> attempts[k].row == ReadAttempts(stored, e)[k]
  }

  lemma SameRowsStored(attempts: seq<StoredAttempt>, stored: seq<AttemptRow>, e: string, k: nat)
    requires SameRows(attempts, stored, e) && k < |attempts|
    ensures attempts[k].row in stored && attempts[k].row.event == e
  {
    ReadAttemptsSorts(stored, e);
    var row := attempts[k].row;
    assert row in multiset(ReadAttempts(stored, e));
    AttemptsOfMembers(stored, e, row);
  }

  /** The four queries run one after the other, each on the store as it is then. */
  ghost predicate ReadDuring(c: Config, e: string, s0: State, s1: State, s2: State, s3: State, r: Reads) {
    && Reachable(c, s0) && Reachable(c, s1) && Reachable(c, s2) && Reachable(c, s3)
    && Grows(s0, s1) && Grows(s1, s2) && Grows(s2, s3)
    && r.event == (if e in s0.db.events then Some(s0.db.events[e]) else None)
    && r.history == Readback(s1.db.history, e)
    && SameRows(r.attempts, s2.db.attempts, e)
    && r.record == (if e in s3.db.dlq then Some(s3.db.dlq[e]) else None)
  }

  lemma {:induction false} CountMembers(rows: seq<Row>, status: Status)
    ensures Count(rows, status) > 0 <==> exists k :: 0 <= k < |rows| && rows[k].status == status
  {
    if rows != [] {
      CountMembers(rows[..|rows| - 1], status);
      var front := rows[..|rows| - 1];
      assert forall k :: 0 <= k < |front| ==> front[k] == rows[k];
    }
  }

  // ---- What attempts and retry counters look like in every reachable state ---------------

  ghost predicate CodeOk(code: Option<nat>, success: bool) {
    code.Some? ==> (success <==> ClassifyHTTPStatus(code.value).None?)
  }

  ghost predicate PhaseOk(c: Config, job: Job) {
    job.Job? ==>
      && (job.phase.Succeeded? ==> CodeOk(job.phase.code, true))
      && (job.phase.Broke? ==> CodeOk(job.phase.failure.status, false))
      && (job.phase.Scheduled? ==> CodeOk(job.phase.failure.status, false) && job.retry < c.maxRetries)
      && (job.phase.DlqWritten? ==> CodeOk(job.phase.failure.status, false))
  }

  ghost predicate RowInRange(c: Config, row: Row) {
    row.status.Retrying? ==> 0 <= row.retry < c.maxRetries
  }

  ghost predicate HasRow(history: seq<Row>, e: string) {
    exists k :: 0 <= k < |history| && history[k].event == e
  }

  ghost predicate PhasesOk(c: Config, workers: map<nat, Worker>) {
    forall w :: w in workers ==> PhaseOk(c, workers[w].job)
  }

  ghost predicate CodesOk(attempts: seq<AttemptRow>) {
    forall k :: 0 <= k < |attempts| ==> CodeOk(attempts[k].code, attempts[k].success)
  }

  ghost predicate RowsInRange(c: Config, history: seq<Row>) {
    forall k :: 0 <= k < |history| ==> RowInRange(c, history[k])
  }

  ghost predicate Labelled(c: Config, s: State) {
    && PhasesOk(c, s.ps.workers)
    && CodesOk(s.db.attempts)
    && RowsInRange(c, s.db.history)
    && (forall e :: e in s.db.events ==> HasRow(s.db.history, e))
  }

  lemma PhaseKept(c: Config, s: State, w: nat, a: WorkerAction)
    requires WorkerEnabled(c, s, w, a) && PhaseOk(c, JobOf(s.ps, w))
    ensures PhaseOk(c, WorkerLocal(c, s, w, a).job)
  {
  }

  lemma NewRowInRange(c: Config, s: State, a: Action, k: nat)
    requires Enabled(c, s, a) && |s.db.history| <= k < |Apply(c, s, a).db.history|
    requires a.Work? ==> PhaseOk(c, JobOf(s.ps, a.w)) && (JobOf(s.ps, a.w).Job? ==> 0 <= JobOf(s.ps, a.w).retry)
    ensures RowInRange(c, Apply(c, s, a).db.history[k])
  {
  }

  lemma NewCodeOk(c: Config, s: State, a: Action, k: nat)
    requires Enabled(c, s, a) && |s.db.attempts| <= k < |Apply(c, s, a).db.attempts|
    requires a.Work? ==> PhaseOk(c, JobOf(s.ps, a.w))
    ensures CodeOk(Apply(c, s, a).db.attempts[k].code, Apply(c, s, a).db.attempts[k].success)
  {
  }

  lemma EventHasRow(c: Config, s: State, a: Action, e: string)
    requires Enabled(c, s, a) && e in Apply(c, s, a).db.events
    requires e in s.db.events ==> HasRow(s.db.history, e)
    ensures HasRow(Apply(c, s, a).db.history, e)
  {
    var h, h' := s.db.history, Apply(c, s, a).db.history;
    StepGrows(c, s, a);
    if e in s.db.events {
      var k :| 0 <= k < |h| && h[k].event == e;
      assert h'[k].event == e;
    } else {
      assert h'[|h|].event == e;
    }
  }

  /** The job of a worker about to act has a nonnegative counter. */
  lemma ActingJob(c: Config, s: State, w: nat)
    requires ValidConfig(c) && Inv(c, s)
    ensures JobOf(s.ps, w).Job? ==> 0 <= JobOf(s.ps, w).retry
  {
    WorkerFacts(c, s, w);
    if JobOf(s.ps, w).Job? {
      JobEvent(c, s, JobOf(s.ps, w));
    }
  }

  lemma PhasesKept(c: Config, s: State, a: Action)
    requires PhasesOk(c, s.ps.workers) && Enabled(c, s, a)
    ensures PhasesOk(c, Apply(c, s, a).ps.workers)
  {
    Conservation.WorkersStep(c, s, a);
    if a.Work? {
      PhaseKept(c, s, a.w, a.work);
    }
  }

  lemma CodesKept(c: Config, s: State, a: Action)
    requires PhasesOk(c, s.ps.workers) && CodesOk(s.db.attempts) && Enabled(c, s, a)
    ensures CodesOk(Apply(c, s, a).db.attempts)
  {
    StepGrows(c, s, a);
    var attempts' := Apply(c, s, a).db.attempts;
    forall k | 0 <= k < |attempts'| ensures CodeOk(attempts'[k].code, attempts'[k].success) {
      if k >= |s.db.attempts| {
        NewCodeOk(c, s, a, k);
      }
    }
  }

  lemma RowsInRangeKept(c: Config, s: State, a: Action)
    requires PhasesOk(c, s.ps.workers) && RowsInRange(c, s.db.history) && Enabled(c, s, a)
    requires a.Work? && JobOf(s.ps, a.w).Job? ==> 0 <= JobOf(s.ps, a.w).retry
    ensures RowsInRange(c, Apply(c, s, a).db.history)
  {
    StepGrows(c, s, a);
    var history' := Apply(c, s, a).db.history;
    forall k | 0 <= k < |history'| ensures RowInRange(c, history'[k]) {
      if k >= |s.db.history| {
        NewRowInRange(c, s, a, k);
      }
    }
  }

  lemma StepLabelled(c: Config, s: State, a: Action)
    requires ValidConfig(c) && Inv(c, s) && Labelled(c, s) && Enabled(c, s, a)
    ensures Labelled(c, Apply(c, s, a))
  {
    if a.Work? {
      ActingJob(c, s, a.w);
    }
    PhasesKept(c, s, a);
    CodesKept(c, s, a);
    RowsInRangeKept(c, s, a);
    forall e | e in Apply(c, s, a).db.events ensures HasRow(Apply(c, s, a).db.history, e) {
      EventHasRow(c, s, a, e);
    }
  }

  lemma {:induction false} RunLabelled(c: Config, s: State, acts: seq<Action>, s': State)
    requires ValidConfig(c) && Inv(c, s) && Labelled(c, s) && Runs(c, s, acts, s')
    ensures Labelled(c, s')
    decreases |acts|
  {
    if acts != [] {
      StepKeeps(c, s, acts[0]);
      StepLabelled(c, s, acts[0]);
      RunLabelled(c, Apply(c, s, acts[0]), acts[1..], s');
    }
  }

  lemma ReachableLabelled(c: Config, s: State)
    requires ValidConfig(c) && Reachable(c, s)
    ensures Labelled(c, s)
  {
    var t: nat, acts :| Runs(c, Init(t), acts, s);
    InitInv(c, t);
    assert Labelled(c, Init(t));
    RunLabelled(c, Init(t), acts, s);
  }

  // ---- Results ---------------------------------------------------------------------------

  /** A stored event is always ready for explanation. */
  lemma PersistedIsReady(c: Config, e: string, s0: State, s1: State, s2: State, s3: State, r: Reads)
    requires ValidConfig(c) && ReadDuring(c, e, s0, s1, s2, s3, r) && r.event.Some?
    ensures r.history != []
  {
    ReachableLabelled(c, s1);
    assert HasRow(s1.db.history, e);
    var k :| 0 <= k < |s1.db.history| && s1.db.history[k].event == e;
    ReadbackMembers(s1.db.history, e, s1.db.history[k]);
  }

  /** Whoever was dead-lettered or redriven by the second read has a DLQ record by the last. */
  lemma MarkersMeanRecord(c: Config, e: string, s0: State, s1: State, s2: State, s3: State, r: Reads)
    requires ValidConfig(c) && ReadDuring(c, e, s0, s1, s2, s3, r)
    ensures Count(r.history, DeadLettered) > 0 || Count(r.history, Redriven) > 0 ==> r.record.Some?
  {
    CountMembers(r.history, DeadLettered);
    CountMembers(r.history, Redriven);
    ReachableInv(c, s1);
    forall k | 0 <= k < |r.history| && (r.history[k].status.DeadLettered? || r.history[k].status.Redriven?)
      ensures r.record.Some? {
      RecordOf(s1, r.history[k], e);
    }
  }

  lemma RecordOf(s: State, row: Row, e: string)
    requires RowsOk(s.db, s.rs.stream, s.rs.zset) && row in Readback(s.db.history, e)
    requires row.status.DeadLettered? || row.status.Redriven?
    ensures e in s.db.dlq
  {
    ReadbackMembers(s.db.history, e, row);
    var k :| 0 <= k < |s.db.history| && s.db.history[k] == row;
    assert RowOk(s.db, s.rs.stream, s.rs.zset, s.db.history[k]);
  }

  /** The structure rests on one fact about the store: a marker means a record. */
  lemma StructureOf(r: Reads, snap: Snapshot)
    requires SnapshotOf(r, snap)
    requires Count(r.history, DeadLettered) > 0 || Count(r.history, Redriven) > 0 ==> r.record.Some?
    ensures Structural(snap) && (snap.enteredDlq <==> r.record.Some?)
  {
    var items := Items(r.history);
    BoundedFacts(items, snap.history);
    CountMembers(r.history, DeadLettered);
    forall k | 0 <= k < |snap.history| && snap.history[k].status.DeadLettered? ensures snap.enteredDlq {
      assert snap.history[k] in snap.history;
      var j :| 0 <= j < |items| && items[j] == snap.history[k];
      assert r.history[j].status.DeadLettered?;
    }
  }

  /** Every snapshot built from a reachable store passes the receiver's structural checks. */
  lemma SnapshotStructural(c: Config, e: string, s0: State, s1: State, s2: State, s3: State, r: Reads, snap: Snapshot)
    requires ValidConfig(c) && ReadDuring(c, e, s0, s1, s2, s3, r) && SnapshotOf(r, snap)
    ensures Structural(snap)
    ensures snap.enteredDlq <==> e in s3.db.dlq
  {
    MarkersMeanRecord(c, e, s0, s1, s2, s3, r);
    StructureOf(r, snap);
  }

  lemma AcceptedIff(r: Reads, snap: Snapshot)
    requires SnapshotOf(r, snap) && Structural(snap)
    ensures Accepted(snap) <==> WithinBounds(r)
  {
    AttemptsAcceptedIff(r.attempts, snap.attempts);
    DestinationFits(BusinessType(r.business));
  }

  /** Acceptance as a whole is a matter of four bounds that the sender does not check. */
  lemma SnapshotAcceptedIff(c: Config, e: string, s0: State, s1: State, s2: State, s3: State, r: Reads, snap: Snapshot)
    requires ValidConfig(c) && ReadDuring(c, e, s0, s1, s2, s3, r) && SnapshotOf(r, snap)
    ensures Accepted(snap) <==> WithinBounds(r)
  {
    SnapshotStructural(c, e, s0, s1, s2, s3, r, snap);
    AcceptedIff(r, snap);
  }

  lemma DestinationFits(business: Option<string>)
    ensures Fits(Destination(business), 120)
  {
    assert Tight("Receipt Service");
    assert Tight("Webhook destination");
  }

  lemma AttemptsAcceptedIff(attempts: seq<StoredAttempt>, sent: seq<ExplainAttempt>)
    requires sent == Recent(Numbered(attempts))
    ensures (forall k :: 0 <= k < |sent| ==> AttemptAccepted(sent[k])) <==>
            (forall k :: 0 <= k < |attempts| && |attempts| - MAX_ATTEMPTS <= k && attempts[k].row.code.Some?
               ==> 100 <= attempts[k].row.code.value <= 599)
  {
    var shift := |attempts| - |sent|;
    assert forall k :: 0 <= k < |sent| ==> sent[k] == Numbered(attempts)[k + shift];
    if forall k :: 0 <= k < |sent| ==> AttemptAccepted(sent[k]) {
      forall k | shift <= k < |attempts| && attempts[k].row.code.Some?
        ensures 100 <= attempts[k].row.code.value <= 599 {
        assert AttemptAccepted(sent[k - shift]);
      }
    }
  }

  /** The reported retry count respects the configured limit and is zero only without retries. */
  lemma RetryCountBounded(c: Config, e: string, s0: State, s1: State, s2: State, s3: State, r: Reads)
    requires ValidConfig(c) && ReadDuring(c, e, s0, s1, s2, s3, r)
    ensures RetryCount(r.history) <= c.maxRetries
    ensures RetryCount(r.history) == 0 <==> Count(r.history, Retrying) == 0
    ensures forall k :: 0 <= k < |r.history| && r.history[k].status.Retrying? ==>
              r.history[k].retry + 1 <= RetryCount(r.history)
    ensures RetryCount(r.history) > 0 ==>
              exists k :: 0 <= k < |r.history| && r.history[k].status.Retrying?
                          && r.history[k].retry + 1 == RetryCount(r.history)
  {
    ReachableLabelled(c, s1);
    CountMembers(r.history, Retrying);
    forall k | 0 <= k < |r.history| ensures RowInRange(c, r.history[k]) {
      ReadbackMembers(s1.db.history, e, r.history[k]);
      var j :| 0 <= j < |s1.db.history| && s1.db.history[j] == r.history[k];
    }
  }

  /** An attempt is explained as a success if and only if the worker recorded one. */
  lemma OutcomeFaithful(c: Config, s: State, a: StoredAttempt)
    requires ValidConfig(c) && Reachable(c, s) && a.row in s.db.attempts
    ensures ExplainAttemptOutcome(a).AsSuccess? <==> a.row.success
  {
    ReachableLabelled(c, s);
    var k :| 0 <= k < |s.db.attempts| && s.db.attempts[k] == a.row;
    assert CodeOk(s.db.attempts[k].code, s.db.attempts[k].success);
  }

  lemma RecentAt<T>(items: seq<T>, k: nat)
    requires k < |Recent(items)|
    ensures |Recent(items)| == if |items| <= MAX_ATTEMPTS then |items| else MAX_ATTEMPTS
    ensures Recent(items)[k] == items[|items| - |Recent(items)| + k]
  {
  }

  /** The attempts of a snapshot are the last 20 of all attempts of the event, numbered by their place
      among them in order of their start, with their stored codes; a success is explained exactly
      where one was recorded, and error texts fit. */
  lemma AttemptsExplained(c: Config, s: State, e: string, attempts: seq<StoredAttempt>, k: nat)
    requires ValidConfig(c) && Reachable(c, s) && SameRows(attempts, s.db.attempts, e)
    requires k < |Recent(Numbered(attempts))|
    ensures |attempts| == Conservation.TallyAttempts(s.db.attempts, e)
    ensures |Recent(Numbered(attempts))| == if |attempts| <= 20 then |attempts| else 20
    ensures var item := Recent(Numbered(attempts))[k];
            var row := ReadAttempts(s.db.attempts, e)[|attempts| - |Recent(Numbered(attempts))| + k];
            && item.number == |attempts| - |Recent(Numbered(attempts))| + k + 1
            && item.httpStatus == row.code && (item.outcome.AsSuccess? <==> row.success)
            && (item.error.Some? ==> Fits(item.error.value, 1000))
  {
    var n := |attempts| - |Recent(Numbered(attempts))| + k;
    ReadAttemptsSorts(s.db.attempts, e);
    RecentAt(Numbered(attempts), k);
    SameRowsStored(attempts, s.db.attempts, e, n);
    OutcomeFaithful(c, s, attempts[n]);
  }

  lemma {:induction false} CountInsert(row: Row, rows: seq<Row>, status: Status)
    ensures Count(Insert(row, rows), status) == Count(rows, status) + if row.status == status then 1 else 0
    decreases |rows|
  {
    if rows == [] || Before(row, rows[0]) {
      CountCons(row, rows, status);
    } else {
      CountInsert(row, rows[1..], status);
      CountCons(rows[0], Insert(row, rows[1..]), status);
      CountCons(rows[0], rows[1..], status);
      assert rows == [rows[0]] + rows[1..];
    }
  }

  lemma {:induction false} CountCons(row: Row, rows: seq<Row>, status: Status)
    ensures Count([row] + rows, status) == Count(rows, status) + if row.status == status then 1 else 0
    decreases |rows|
  {
    if rows == [] {
      assert [row] + rows == [row] && [row][..0] == [];
    } else {
      var front := rows[..|rows| - 1];
      CountCons(row, front, status);
      assert ([row] + rows)[..|rows|] == [row] + front;
    }
  }

  /** Counting in the history that is read counts the committed rows. */
  lemma {:induction false} CountReadback(history: seq<Row>, e: string, status: Status)
    ensures Count(Readback(history, e), status) == Conservation.Tally(history, e, status)
  {
    if history != [] {
      var front, row := history[..|history| - 1], history[|history| - 1];
      CountReadback(front, e, status);
      if row.event == e {
        CountInsert(row, Readback(front, e), status);
      }
    }
  }

  lemma {:induction false} TallyGrows(a: seq<Row>, b: seq<Row>, e: string, status: Status)
    requires a <= b
    ensures Conservation.Tally(a, e, status) <= Conservation.Tally(b, e, status)
    decreases |b|
  {
    if a != b {
      TallyGrows(a, b[..|b| - 1], e, status);
    }
  }

  lemma {:induction false} TallyFound(history: seq<Row>, e: string, status: Status, k: nat)
    requires k < |history| && history[k].event == e && history[k].status == status
    ensures Conservation.Tally(history, e, status) >= 1
    decreases |history|
  {
    if k < |history| - 1 {
      TallyFound(history[..|history| - 1], e, status, k);
    }
  }

  /** The redrive count is what the history showed, and never more than had been redriven by the last
      read. */
  lemma RedriveCountReal(c: Config, e: string, s0: State, s1: State, s2: State, s3: State, r: Reads)
    requires ValidConfig(c) && ReadDuring(c, e, s0, s1, s2, s3, r)
    ensures Conservation.Tally(s1.db.history, e, Redriven) <= Redrives(r)
              <= Conservation.Tally(s3.db.history, e, Redriven)
    ensures Conservation.Tally(s1.db.history, e, Redriven) > 0 ==>
              Redrives(r) == Conservation.Tally(s1.db.history, e, Redriven)
  {
    CountReadback(s1.db.history, e, Redriven);
    TallyGrows(s1.db.history, s3.db.history, e, Redriven);
    if r.record.Some? && r.record.value.redrivenAt.Some? {
      Records.RecordStamped(c, s3, e);
      var k :| 0 <= k < |s3.db.history| && s3.db.history[k].event == e && s3.db.history[k].status.Redriven?;
      TallyFound(s3.db.history, e, Redriven, k);
    }
  }

  /** The current status is that of a row of the event after which no other one reads. */
  lemma CurrentIsLatest(c: Config, e: string, s0: State, s1: State, s2: State, s3: State, r: Reads, snap: Snapshot)
    requires ValidConfig(c) && ReadDuring(c, e, s0, s1, s2, s3, r) && SnapshotOf(r, snap)
    ensures exists k :: 0 <= k < |s1.db.history| && s1.db.history[k].event == e
              && s1.db.history[k].status == snap.currentStatus
              && forall l :: 0 <= l < |s1.db.history| && s1.db.history[l].event == e ==>
                   !Before(s1.db.history[k], s1.db.history[l])
  {
    var h, last := s1.db.history, |r.history| - 1;
    ReadbackSorts(h, e);
    var k := CommittedAt(h, e, last);
    forall l | 0 <= l < |h| && h[l].event == e ensures !Before(h[k], h[l]) {
      ReadbackMembers(h, e, h[l]);
      var p :| 0 <= p < |r.history| && r.history[p] == h[l];
      assert p < last ==> !Before(r.history[last], r.history[p]);
    }
  }

  /** Every item of the history that is sent is a committed row of the event, and the first one reads
      before all others. */
  lemma HistoryReal(c: Config, e: string, s0: State, s1: State, s2: State, s3: State, r: Reads, snap: Snapshot)
    requires ValidConfig(c) && ReadDuring(c, e, s0, s1, s2, s3, r) && SnapshotOf(r, snap)
    ensures forall item :: item in snap.history ==>
              exists k :: 0 <= k < |s1.db.history| && s1.db.history[k].event == e
                && s1.db.history[k].status == item.status && s1.db.history[k].at == item.occurredAt
    ensures snap.history != [] && forall k :: 0 <= k < |s1.db.history| && s1.db.history[k].event == e ==>
              snap.history[0].occurredAt <= s1.db.history[k].at
  {
    var h, items := s1.db.history, Items(r.history);
    BoundedFacts(items, snap.history);
    ReadbackSorts(h, e);
    forall item | item in snap.history
      ensures exists k :: 0 <= k < |h| && h[k].event == e && h[k].status == item.status && h[k].at == item.occurredAt {
      var p :| 0 <= p < |items| && items[p] == item;
      var k := CommittedAt(h, e, p);
    }
    forall k | 0 <= k < |h| && h[k].event == e ensures snap.history[0].occurredAt <= h[k].at {
      ReadbackMembers(h, e, h[k]);
      var p :| 0 <= p < |r.history| && r.history[p] == h[k];
      assert p > 0 ==> !Before(r.history[p], r.history[0]);
    }
  }

  /** An event of a paid invoice goes to the receipt service, every other one to a webhook destination. */
  lemma DestinationIff(raw: Option<string>)
    ensures Destination(BusinessType(raw))
            == if raw.Some? && TrimSpace(raw.value) == "invoice.paid" then "Receipt Service" else "Webhook destination"
  {
  }

  /** Nothing bounds an event type on the way in: a stored event, every snapshot of which the
      receiver refuses. */
  lemma LongTypeRefused(c: Config, t: nat) returns (s: State, r: Reads)
    requires ValidConfig(c)
    ensures ReadDuring(c, "e", s, s, s, s, r) && r.event.Some? && r.history != []
    ensures forall snap :: SnapshotOf(r, snap) ==> !Accepted(snap)
  {
    s, r := LongTypeStored(c, t);
    PersistedIsReady(c, "e", s, s, s, s, r);
    forall snap | SnapshotOf(r, snap) ensures !Accepted(snap) {
      SnapshotAcceptedIff(c, "e", s, s, s, s, r, snap);
    }
  }

  lemma LongTypeStored(c: Config, t: nat) returns (s: State, r: Reads)
    requires ValidConfig(c)
    ensures ReadDuring(c, "e", s, s, s, s, r) && r.event.Some? && !WithinBounds(r)
  {
    var ev := Event(seq(81, _ => 'x'), "s", "{}", t);
    assert Tight(ev.eventType) && TrimSpace("e") == "e";
    var a := World(Ingest("e", ev, "o", 0, 1));
    assert Runs(c, Init(t), [], Init(t));
    ReachableStep(c, Init(t), a);
    s := Apply(c, Init(t), a);
    r := Reads(Some(ev), Readback(s.db.history, "e"), [], None, None);
  }
}
