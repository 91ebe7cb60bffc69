/** Replay by keyset pagination (cmd/api/replay_handler.go). */
module Replay {
  import opened Text
  import opened Timestamps

  /** The columns of an events row that the replay query reads; a UUID is its 128-bit value. */
  datatype Row = Row(createdAt: Time, id: nat, source: string, eventType: string)

  datatype Cursor = Cursor(createdAt: int, id: nat)

  /** A cursor as the client sees it. */
  datatype ReplayCursor = ReplayCursor(createdAt: string, eventId: nat)

  datatype ReplayRequest = ReplayRequest(
    from: string, to: string, source: string, eventType: string, cursor: Option<ReplayCursor>, limit: int)

  datatype Filter = Filter(from: int, to: int, source: string, eventType: string)

  function ClampLimit(limit: int): (n: nat)
    ensures 1 <= n <= 5000
  {
    var l := if limit <= 0 then 1000 else limit;
    if l > 5000 then 5000 else l
  }

  predicate Matches(f: Filter, r: Row) {
    && f.from <= r.createdAt <= f.to
    && (f.source != "" ==> r.source == f.source)
    && (f.eventType != "" ==> r.eventType == f.eventType)
  }

  /** ORDER BY created_at ASC, id ASC */
  predicate Less(a: Row, b: Row) {
    a.createdAt < b.createdAt || (a.createdAt == b.createdAt && a.id < b.id)
  }

  predicate After(cursor: Option<Cursor>, r: Row) {
    cursor.Some? ==>
      r.createdAt > cursor.value.createdAt || (r.createdAt == cursor.value.createdAt && r.id > cursor.value.id)
  }

  function CursorAt(r: Row): Cursor {
    Cursor(r.createdAt, r.id)
  }

  /** The primary key. */
  ghost predicate UniqueIds(table: set<Row>) {
    forall a, b :: a in table && b in table && a.id == b.id ==> a == b
  }

  function Selected(table: set<Row>, f: Filter, cursor: Option<Cursor>): set<Row> {
    set r | r in table && Matches(f, r) && After(cursor, r)
  }

  // ---- Sorting ----------------------------------------------------------------------

  ghost predicate IsFirst(rows: set<Row>, r: Row) {
    r in rows && forall x :: x in rows && x != r ==> Less(r, x)
  }

  lemma {:induction false} FirstExists(rows: set<Row>)
    requires rows != {} && UniqueIds(rows)
    ensures exists r :: IsFirst(rows, r)
    decreases |rows|
  {
    var r :| r in rows;
    if rows == {r} {
      assert IsFirst(rows, r);
    } else {
      FirstExists(rows - {r});
      var m :| IsFirst(rows - {r}, m);
      var first := if Less(r, m) then r else m;
      forall x | x in rows && x != first ensures Less(first, x) {
        assert x == r || x == m || Less(m, x);
      }
      assert IsFirst(rows, first);
    }
  }

  predicate Sorted(rows: seq<Row>) {
    forall i, j :: 0 <= i < j < |rows| ==> Less(rows[i], rows[j])
  }

  ghost function Ordered(rows: set<Row>): (s: seq<Row>)
    requires UniqueIds(rows)
    ensures Sorted(s)
    ensures forall r :: r in s <==> r in rows
    decreases |rows|
  {
    if rows == {} then []
    else
      FirstExists(rows);
      var r :| IsFirst(rows, r);
      [r] + Ordered(rows - {r})
  }

  lemma SameEmptiness(a: seq<Row>, b: seq<Row>)
    requires forall r :: r in a <==> r in b
    ensures a == [] <==> b == []
  {
    if a != [] {
      assert a[0] in b;
    }
    if b != [] {
      assert b[0] in a;
    }
  }

  /** A sorted sequence is determined by its elements. */
  lemma {:induction false} SortedUnique(a: seq<Row>, b: seq<Row>)
    requires Sorted(a) && Sorted(b) && forall r :: r in a <==> r in b
    ensures a == b
    decreases |a|
  {
    SameEmptiness(a, b);
    if a != [] {
      assert a[0] in b && b[0] in a;
      assert a[0] == b[0];
      forall r ensures r in a[1..] <==> r in b[1..] {
        TailMember(a, r);
        TailMember(b, r);
      }
      SortedUnique(a[1..], b[1..]);
      assert a == [a[0]] + a[1..] && b == [b[0]] + b[1..];
    }
  }

  lemma TailMember(a: seq<Row>, r: Row)
    requires a != [] && Sorted(a)
    ensures r in a[1..] <==> r in a && r != a[0]
  {
    assert a == [a[0]] + a[1..];
    if r in a[1..] {
      var i :| 0 <= i < |a[1..]| && a[1..][i] == r;
      assert Less(a[0], a[i + 1]);
    }
  }

  // ---- One page ---------------------------------------------------------------------

  ghost function Query(table: set<Row>, f: Filter, cursor: Option<Cursor>): seq<Row>
    requires UniqueIds(table)
  {
    Ordered(Selected(table, f, cursor))
  }

  function Take<T>(s: seq<T>, n: nat): seq<T> {
    if n < |s| then s[..n] else s
  }

  datatype Why = QueryError | RowUnreadable | PublishRefused | ReadError

  datatype Response =
    | Response(published: nat, hasMore: bool, nextCursor: Option<ReplayCursor>)
    | Failed(why: Why)
    | BadRequest

  /** What goes wrong with a row: it cannot be scanned, or its publish reports an error, applied or
      not. */
  datatype RowFault = Fine | Unreadable | Refused(applied: bool)

  /** What the query answers: an error, or rows with their faults, after which reading may break off. */
  datatype Answer = QueryBroke | Rows(rows: seq<Row>, faults: seq<RowFault>, breaksOff: bool)

  /** The answer is one to the query with LIMIT limit + 1 over rows `all`. */
  ghost predicate Answers(answer: Answer, all: seq<Row>, limit: nat) {
    answer.Rows? ==>
      && |answer.faults| == |answer.rows| && Datable(answer.rows)
      && answer.rows <= Take(all, limit + 1)
      && (!answer.breaksOff ==> answer.rows == Take(all, limit + 1))
  }

  predicate RowFails(answer: Answer, limit: nat, i: nat)
    requires answer.Rows? && i < |answer.faults|
  {
    answer.faults[i].Unreadable? || (answer.faults[i].Refused? && i < limit)
  }

  /** Something on the page, or the row behind it, goes wrong. */
  ghost predicate Fails(answer: Answer, limit: nat) {
    || answer.QueryBroke?
    || (exists i: nat :: i < |answer.faults| && RowFails(answer, limit, i))
    || (answer.breaksOff && |answer.rows| <= limit)
  }

  function ReadCursor(wire: Option<ReplayCursor>): Option<Option<Cursor>> {
    if wire.None? then Some(None)
    else match Parse(wire.value.createdAt)
      case None => None
      case Some(t) => Some(Some(Cursor(t, wire.value.eventId)))
  }

  method NextCursor(r: Row) returns (wire: ReplayCursor)
    requires FourDigitYear(r.createdAt)
    ensures ReadCursor(Some(wire)) == Some(Some(CursorAt(r)))
  {
    FormatRoundTrip(r.createdAt);
    wire := ReplayCursor(Format(r.createdAt), r.id);
  }

  predicate Datable(rows: seq<Row>) {
    forall i :: 0 <= i < |rows| ==> FourDigitYear(rows[i].createdAt)
  }

  /** What one request sent and answered: on success exactly the page, with a cursor that reads
      back as the last row of the page if and only if rows are left; on an error a prefix. */
  ghost predicate PageResult(rows: seq<Row>, limit: nat, sent: seq<Row>, resp: Response)
    requires limit >= 1
  {
    match resp
    case Response(published, hasMore, next) =>
      && sent == Take(rows, limit) && published == |sent| && hasMore == (|rows| > limit)
      && ReadCursor(next) == Some(if hasMore then Some(CursorAt(rows[limit - 1])) else None)
    case Failed(_) => sent <= rows && |sent| <= limit
    case BadRequest => sent == []
  }

  /** What a request asks for, if its timestamps can be read. */
  function FilterOf(req: ReplayRequest): Option<Filter> {
    match Parse(req.from)
    case None => None
    case Some(from) =>
      (match Parse(req.to)
       case None => None
       case Some(to) => Some(Filter(from, to, req.source, req.eventType)))
  }

  /** The row is one that the request asks for, between its bounds and behind its cursor, told by the
      request's own texts. */
  ghost predicate AskedFor(req: ReplayRequest, r: Row) {
    && Parse(req.from).Some? && Parse(req.to).Some?
    && Parse(req.from).value <= r.createdAt <= Parse(req.to).value
    && (req.source == "" || r.source == req.source) && (req.eventType == "" || r.eventType == req.eventType)
    && (req.cursor.Some? ==>
          && Parse(req.cursor.value.createdAt).Some?
          && var t := Parse(req.cursor.value.createdAt).value;
             r.createdAt > t || (r.createdAt == t && r.id > req.cursor.value.eventId))
  }

  /** How many rows a request may publish. */
  ghost predicate IsLimit(limit: int, n: nat) {
    && (limit <= 0 ==> n == 1000)
    && (1 <= limit <= 5000 ==> n == limit)
    && (limit > 5000 ==> n == 5000)
  }

  lemma SelectedAsked(table: set<Row>, req: ReplayRequest, r: Row)
    requires FilterOf(req).Some? && ReadCursor(req.cursor).Some?
    ensures r in Selected(table, FilterOf(req).value, ReadCursor(req.cursor).value) <==> r in table && AskedFor(req, r)
  {
  }

  /** What a page holds, told by the request: rows it asks for, in order, none left out before the
      last, and all of them if there is no more. */
  ghost predicate PageAnswers(table: set<Row>, req: ReplayRequest, sent: seq<Row>, n: nat) {
    && |sent| <= n
    && (forall r :: r in sent ==> r in table && AskedFor(req, r))
    && (forall i, j :: 0 <= i < j < |sent| ==>
          sent[i].createdAt < sent[j].createdAt
          || (sent[i].createdAt == sent[j].createdAt && sent[i].id < sent[j].id))
    && (forall r, i :: 0 <= i < |sent| && r in table && AskedFor(req, r) && r !in sent ==>
          sent[i].createdAt < r.createdAt || (sent[i].createdAt == r.createdAt && sent[i].id < r.id))
  }

  lemma PrefixAnswers(table: set<Row>, req: ReplayRequest, sent: seq<Row>, n: nat)
    requires UniqueIds(table) && FilterOf(req).Some? && ReadCursor(req.cursor).Some? && |sent| <= n
    requires sent <= Query(table, FilterOf(req).value, ReadCursor(req.cursor).value)
    ensures PageAnswers(table, req, sent, n)
    ensures sent == Query(table, FilterOf(req).value, ReadCursor(req.cursor).value) ==>
              forall r :: r in table && AskedFor(req, r) ==> r in sent
  {
    var rows := Query(table, FilterOf(req).value, ReadCursor(req.cursor).value);
    forall r ensures r in rows <==> r in table && AskedFor(req, r) {
      SelectedAsked(table, req, r);
    }
    forall r | r in sent ensures r in rows {
      var k :| 0 <= k < |sent| && sent[k] == r;
      assert rows[k] == r;
    }
    forall i, j | 0 <= i < j < |sent| ensures Less(sent[i], sent[j]) {
      assert sent[i] == rows[i] && sent[j] == rows[j];
    }
    forall r, i | 0 <= i < |sent| && r in rows && r !in sent ensures Less(sent[i], r) {
      BeyondPrefix(rows, sent, i, r);
    }
  }

  lemma BeyondPrefix(rows: seq<Row>, sent: seq<Row>, i: nat, r: Row)
    requires Sorted(rows) && sent <= rows && i < |sent| && r in rows && r !in sent
    ensures Less(sent[i], r)
  {
    var k :| 0 <= k < |rows| && rows[k] == r;
    assert forall m :: 0 <= m < |sent| ==> sent[m] == rows[m];
    assert Less(rows[i], rows[k]);
  }

  /** newReplayHandler for a decoded request. */
  method ReplayPage(ghost table: set<Row>, req: ReplayRequest, answer: Answer)
    returns (sent: seq<Row>, resp: Response, ghost n: nat)
    requires UniqueIds(table)
    requires FilterOf(req).Some? && ReadCursor(req.cursor).Some? ==>
               Answers(answer, Query(table, FilterOf(req).value, ReadCursor(req.cursor).value), ClampLimit(req.limit))
    ensures resp.BadRequest? <==>
            || Parse(req.from).None? || Parse(req.to).None?
            || (req.cursor.Some? && Parse(req.cursor.value.createdAt).None?)
    ensures resp.BadRequest? ==> sent == []
    ensures IsLimit(req.limit, n)
    ensures !resp.BadRequest? ==>
              && PageAnswers(table, req, sent, n)
              && PageResult(Query(table, FilterOf(req).value, ReadCursor(req.cursor).value), n, sent, resp)
              && (resp.Failed? <==> Fails(answer, n))
    ensures resp.Response? ==> resp.published == |sent| && (resp.hasMore ==> |sent| == n)
    ensures resp.Response? ==>
              (resp.hasMore <==> exists r :: r in table && AskedFor(req, r) && r !in sent)
  {
    var max := ClampLimit(req.limit);
    n := max;
    if FilterOf(req).None? || ReadCursor(req.cursor).None? {
      return [], BadRequest, n;
    }
    ghost var rows := Query(table, FilterOf(req).value, ReadCursor(req.cursor).value);
    if answer.QueryBroke? {
      sent, resp := [], Failed(QueryError);
    } else {
      sent, resp := PublishRows(rows, max, answer);
    }
    PrefixAnswers(table, req, sent, n);
    if resp.Response? && resp.hasMore {
      NextIsMissing(table, req, sent);
    }
  }

  lemma NextIsMissing(table: set<Row>, req: ReplayRequest, sent: seq<Row>)
    requires UniqueIds(table) && FilterOf(req).Some? && ReadCursor(req.cursor).Some?
    requires var rows := Query(table, FilterOf(req).value, ReadCursor(req.cursor).value);
             sent <= rows && |sent| < |rows|
    ensures exists r :: r in table && AskedFor(req, r) && r !in sent
  {
    var rows := Query(table, FilterOf(req).value, ReadCursor(req.cursor).value);
    var r := rows[|sent|];
    assert r in rows;
    SelectedAsked(table, req, r);
    forall k | 0 <= k < |sent| ensures sent[k] != r {
      assert Less(rows[k], rows[|sent|]);
    }
  }

  ghost predicate NoneFails(answer: Answer, limit: nat, i: nat)
    requires answer.Rows? && i <= |answer.faults|
  {
    forall k: nat :: k < i ==> !RowFails(answer, limit, k)
  }

  /** The row loop, and the answer made from what it published. */
  method PublishRows(ghost all: seq<Row>, limit: nat, answer: Answer) returns (sent: seq<Row>, resp: Response)
    requires limit >= 1 && answer.Rows? && Answers(answer, all, limit)
    ensures !resp.BadRequest? && PageResult(all, limit, sent, resp)
    ensures resp.Failed? <==> Fails(answer, limit)
  {
    var why, hasMore;
    sent, hasMore, why := PublishLoop(all, limit, answer);
    if why.Some? {
      return sent, Failed(why.value);
    }
    PageDone(all, limit, answer, sent, hasMore);
    if hasMore {
      var wire := NextCursor(sent[|sent| - 1]);
      resp := Response(|sent|, true, Some(wire));
    } else {
      resp := Response(|sent|, false, None);
    }
  }

  method PublishLoop(ghost all: seq<Row>, limit: nat, answer: Answer)
    returns (sent: seq<Row>, hasMore: bool, why: Option<Why>)
    requires limit >= 1 && answer.Rows? && Answers(answer, all, limit)
    ensures why.Some? <==> Fails(answer, limit)
    ensures sent <= answer.rows && |sent| <= limit
    ensures why.None? && hasMore ==> |sent| == limit < |answer.rows|
    ensures why.None? && !hasMore ==> sent == answer.rows && !answer.breaksOff
  {
    sent, hasMore := [], false;
    var i := 0;
    while i < |answer.rows|
      invariant 0 <= i <= |answer.rows| && i <= limit && !hasMore && sent == answer.rows[..i]
      invariant NoneFails(answer, limit, i)
    {
      if answer.faults[i].Unreadable? {
        assert RowFails(answer, limit, i);
        return sent, false, Some(RowUnreadable);
      }
      if i >= limit {
        hasMore := true;
        break;
      }
      if answer.faults[i].Refused? {
        assert RowFails(answer, limit, i);
        if answer.faults[i].applied {
          sent := sent + [answer.rows[i]];
        }
        return sent, false, Some(PublishRefused);
      }
      sent := sent + [answer.rows[i]];
      i := i + 1;
    }
    if answer.breaksOff && !hasMore {
      return sent, false, Some(ReadError);
    }
    why := None;
  }

  /** The loop ended at the row behind the page, or with the last row. */
  lemma PageDone(all: seq<Row>, limit: nat, answer: Answer, sent: seq<Row>, hasMore: bool)
    requires limit >= 1 && answer.Rows? && Answers(answer, all, limit) && sent <= answer.rows && |sent| <= limit
    requires hasMore ==> |sent| == limit < |answer.rows|
    requires !hasMore ==> sent == answer.rows && !answer.breaksOff
    ensures sent == Take(all, limit) && hasMore == (|all| > limit) && Datable(sent)
    ensures hasMore ==> sent[limit - 1] == all[limit - 1]
  {
  }

  // ---- Following the cursor ---------------------------------------------------------

  /** One request of the client, against the table as it is then. A failed one published the
      first `k` rows of its page and is repeated from the same cursor. */
  datatype Request = Request(table: set<Row>, failed: Option<nat>)

  /** Everything published, the rows of the successful pages alone, and whether the last page
      said that there is no more. */
  datatype Outcome = Outcome(published: seq<Row>, pages: seq<Row>, finished: bool)

  ghost predicate Valid(reqs: seq<Request>) {
    && (forall k :: 0 <= k < |reqs| ==> UniqueIds(reqs[k].table))
    && (forall k, l :: 0 <= k < l < |reqs| ==> reqs[k].table <= reqs[l].table)
  }

  lemma ValidTail(reqs: seq<Request>)
    requires Valid(reqs) && reqs != []
    ensures Valid(reqs[1..])
  {
    var rest := reqs[1..];
    assert forall k :: 0 <= k < |rest| ==> rest[k] == reqs[k + 1];
  }

  ghost function Follow(reqs: seq<Request>, f: Filter, limit: nat, cursor: Option<Cursor>): Outcome
    requires Valid(reqs) && limit >= 1
    decreases |reqs|
  {
    if reqs == [] then Outcome([], [], false)
    else
      ValidTail(reqs);
      var rows := Query(reqs[0].table, f, cursor);
      var page := Take(rows, limit);
      if reqs[0].failed.Some? then
        var rest := Follow(reqs[1..], f, limit, cursor);
        Outcome(Take(page, reqs[0].failed.value) + rest.published, rest.pages, rest.finished)
      else if |rows| <= limit then Outcome(page, page, true)
      else
        var rest := Follow(reqs[1..], f, limit, Some(CursorAt(page[limit - 1])));
        Outcome(page + rest.published, page + rest.pages, rest.finished)
  }

  /** A request answered by the handler is one step of Follow, whatever the client does next. */
  lemma PageStep(req: Request, rest: seq<Request>, f: Filter, limit: nat, cursor: Option<Cursor>,
                 sent: seq<Row>, resp: Response)
    requires Valid([req] + rest) && Valid(rest) && UniqueIds(req.table) && limit >= 1 && !resp.BadRequest?
    requires PageResult(Query(req.table, f, cursor), limit, sent, resp)
    requires req.failed == if resp.Failed? then Some(|sent|) else None
    ensures var out := Follow([req] + rest, f, limit, cursor);
            match resp
            case Response(_, hasMore, next) =>
              var onward := if hasMore then Follow(rest, f, limit, ReadCursor(next).value) else Outcome([], [], true);
              out == Outcome(sent + onward.published, sent + onward.pages, onward.finished)
            case _ =>
              var again := Follow(rest, f, limit, cursor);
              out == Outcome(sent + again.published, again.pages, again.finished)
  {
    var reqs := [req] + rest;
    assert reqs[1..] == rest;
    var rows := Query(req.table, f, cursor);
    if resp.Failed? {
      assert Take(Take(rows, limit), |sent|) == sent;
    }
  }

  /** The cut after a page separates exactly the rows up to it from those behind its cursor. */
  lemma CutAt(table: set<Row>, f: Filter, cursor: Option<Cursor>, n: nat, r: Row)
    requires UniqueIds(table) && 1 <= n <= |Query(table, f, cursor)|
    ensures var rows := Query(table, f, cursor);
            var next := Some(CursorAt(rows[n - 1]));
            && (r in rows[..n] ==> !After(next, r))
            && (r in Selected(table, f, cursor) && r !in rows[..n] ==> After(next, r))
            && (After(next, r) ==> After(cursor, r))
  {
    var rows := Query(table, f, cursor);
    assert rows[n - 1] in rows;
    if r in rows[..n] {
      var i :| 0 <= i < n && rows[i] == r;
      assert i < n - 1 ==> Less(rows[i], rows[n - 1]);
    } else if r in rows {
      var i :| 0 <= i < |rows| && rows[i] == r;
      assert i >= n;
      assert Less(rows[n - 1], rows[i]);
    }
  }

  ghost predicate AllAfter(cursor: Option<Cursor>, rows: seq<Row>) {
    forall i :: 0 <= i < |rows| ==> After(cursor, rows[i])
  }

  lemma {:induction false} FollowSorted(reqs: seq<Request>, f: Filter, limit: nat, cursor: Option<Cursor>)
    requires Valid(reqs) && limit >= 1
    ensures Sorted(Follow(reqs, f, limit, cursor).pages) && AllAfter(cursor, Follow(reqs, f, limit, cursor).pages)
    decreases |reqs|
  {
    if reqs != [] {
      ValidTail(reqs);
      var rows := Query(reqs[0].table, f, cursor);
      PageAfter(reqs[0].table, f, cursor, limit);
      if reqs[0].failed.Some? {
        FollowSorted(reqs[1..], f, limit, cursor);
      } else if |rows| > limit {
        var next := Some(CursorAt(rows[limit - 1]));
        FollowSorted(reqs[1..], f, limit, next);
        var rest := Follow(reqs[1..], f, limit, next).pages;
        SortedConcat(rows[..limit], rest, next);
        forall i | 0 <= i < |rest| ensures After(cursor, rest[i]) {
          CutAt(reqs[0].table, f, cursor, limit, rest[i]);
        }
      }
    }
  }

  lemma PageAfter(table: set<Row>, f: Filter, cursor: Option<Cursor>, limit: nat)
    requires UniqueIds(table)
    ensures AllAfter(cursor, Take(Query(table, f, cursor), limit)) && Sorted(Take(Query(table, f, cursor), limit))
  {
    var rows := Query(table, f, cursor);
    forall i | 0 <= i < |rows| ensures After(cursor, rows[i]) {
      assert rows[i] in rows;
    }
  }

  lemma SortedConcat(a: seq<Row>, b: seq<Row>, next: Option<Cursor>)
    requires Sorted(a) && Sorted(b) && a != [] && next == Some(CursorAt(a[|a| - 1])) && AllAfter(next, b)
    ensures Sorted(a + b)
  {
    var s := a + b;
    forall i, j | 0 <= i < j < |s| ensures Less(s[i], s[j]) {
      if i < |a| && j >= |a| {
        assert After(next, b[j - |a|]);
        assert i < |a| - 1 ==> Less(a[i], a[|a| - 1]);
      }
    }
  }

  /** Nothing visible at the start is skipped, whatever is inserted or fails meanwhile. */
  lemma {:induction false} FollowComplete(reqs: seq<Request>, f: Filter, limit: nat, cursor: Option<Cursor>, r: Row)
    requires Valid(reqs) && limit >= 1 && Follow(reqs, f, limit, cursor).finished
    requires r in reqs[0].table && Matches(f, r) && After(cursor, r)
    ensures r in Follow(reqs, f, limit, cursor).pages
    decreases |reqs|
  {
    ValidTail(reqs);
    var rows := Query(reqs[0].table, f, cursor);
    assert r in rows;
    if reqs[0].failed.Some? {
      assert r in reqs[1].table;
      FollowComplete(reqs[1..], f, limit, cursor, r);
    } else if |rows| > limit && r !in rows[..limit] {
      CutAt(reqs[0].table, f, cursor, limit, r);
      assert r in reqs[1].table;
      FollowComplete(reqs[1..], f, limit, Some(CursorAt(rows[limit - 1])), r);
    }
  }

  /** What a run of requests publishes comes from its first page or from the rest. */
  lemma FollowSplit(reqs: seq<Request>, f: Filter, limit: nat, cursor: Option<Cursor>, r: Row)
    returns (next: Option<Cursor>)
    requires Valid(reqs) && limit >= 1 && reqs != [] && Valid(reqs[1..])
    requires r in Follow(reqs, f, limit, cursor).published || r in Follow(reqs, f, limit, cursor).pages
    ensures || r in Query(reqs[0].table, f, cursor)
            || r in Follow(reqs[1..], f, limit, next).published || r in Follow(reqs[1..], f, limit, next).pages
  {
    var rows := Query(reqs[0].table, f, cursor);
    next := if reqs[0].failed.Some? || |rows| <= limit then cursor else Some(CursorAt(rows[limit - 1]));
  }

  /** Nothing is published that does not match, or was not in the table by the last request. */
  lemma {:induction false} FollowSound(reqs: seq<Request>, f: Filter, limit: nat, cursor: Option<Cursor>, r: Row)
    requires Valid(reqs) && limit >= 1 && reqs != []
    requires r in Follow(reqs, f, limit, cursor).published || r in Follow(reqs, f, limit, cursor).pages
    ensures r in reqs[|reqs| - 1].table && Matches(f, r)
    decreases |reqs|
  {
    ValidTail(reqs);
    var next := FollowSplit(reqs, f, limit, cursor, r);
    if r in Query(reqs[0].table, f, cursor) {
      assert r in reqs[0].table;
    } else {
      FollowSound(reqs[1..], f, limit, next, r);
    }
  }

  lemma {:induction false} PagesPublished(reqs: seq<Request>, f: Filter, limit: nat, cursor: Option<Cursor>, r: Row)
    requires Valid(reqs) && limit >= 1 && r in Follow(reqs, f, limit, cursor).pages
    ensures r in Follow(reqs, f, limit, cursor).published
    decreases |reqs|
  {
    ValidTail(reqs);
    var rows := Query(reqs[0].table, f, cursor);
    if reqs[0].failed.Some? {
      PagesPublished(reqs[1..], f, limit, cursor, r);
    } else if |rows| > limit && r !in rows[..limit] {
      PagesPublished(reqs[1..], f, limit, Some(CursorAt(rows[limit - 1])), r);
    }
  }

  /** Following next_cursor to the end publishes every matching event that was visible at the
      start, the successful pages list each event once and in order, and repeated pages add only
      repetitions. */
  lemma PagesCoverScan(reqs: seq<Request>, f: Filter, limit: int)
    requires Valid(reqs) && reqs != [] && Follow(reqs, f, ClampLimit(limit), None).finished
    ensures var out := Follow(reqs, f, ClampLimit(limit), None);
            && Sorted(out.pages)
            && (forall r :: r in reqs[0].table && Matches(f, r) ==> r in out.pages && r in out.published)
            && (forall r :: r in out.published ==> r in reqs[|reqs| - 1].table && Matches(f, r))
  {
    var n := ClampLimit(limit);
    FollowSorted(reqs, f, n, None);
    forall r | r in reqs[0].table && Matches(f, r)
      ensures r in Follow(reqs, f, n, None).pages && r in Follow(reqs, f, n, None).published {
      FollowComplete(reqs, f, n, None, r);
      PagesPublished(reqs, f, n, None, r);
    }
    forall r | r in Follow(reqs, f, n, None).published ensures r in reqs[|reqs| - 1].table && Matches(f, r) {
      FollowSound(reqs, f, n, None, r);
    }
  }

  /** With the table at rest the pages are exactly one full scan. */
  lemma PagesRefineScan(reqs: seq<Request>, f: Filter, limit: int)
    requires Valid(reqs) && reqs != [] && Follow(reqs, f, ClampLimit(limit), None).finished
    requires reqs[|reqs| - 1].table == reqs[0].table
    ensures Follow(reqs, f, ClampLimit(limit), None).pages == Query(reqs[0].table, f, None)
  {
    var n := ClampLimit(limit);
    var pages, scan := Follow(reqs, f, n, None).pages, Query(reqs[0].table, f, None);
    PagesCoverScan(reqs, f, limit);
    forall r ensures r in pages <==> r in scan {
      if r in pages {
        FollowSound(reqs, f, n, None, r);
      }
    }
    SortedUnique(pages, scan);
  }

  lemma SplitMember(rows: seq<Row>, n: nat, r: Row)
    requires Sorted(rows) && n <= |rows|
    ensures r in rows[n..] <==> r in rows && r !in rows[..n]
  {
    assert rows == rows[..n] + rows[n..];
    if r in rows[n..] {
      var j :| n <= j < |rows| && rows[j] == r;
      assert forall i :: 0 <= i < n ==> Less(rows[i], rows[j]);
    }
  }

  /** The next page starts exactly where this one stops. */
  lemma NextQuery(table: set<Row>, f: Filter, cursor: Option<Cursor>, n: nat)
    requires UniqueIds(table) && 1 <= n <= |Query(table, f, cursor)|
    ensures var rows := Query(table, f, cursor);
            Query(table, f, Some(CursorAt(rows[n - 1]))) == rows[n..]
  {
    var rows := Query(table, f, cursor);
    var next := Query(table, f, Some(CursorAt(rows[n - 1])));
    forall r ensures r in next <==> r in rows[n..] {
      CutAt(table, f, cursor, n, r);
      SplitMember(rows, n, r);
      assert r in rows <==> r in Selected(table, f, cursor);
      assert r in next <==> r in Selected(table, f, Some(CursorAt(rows[n - 1])));
    }
    SortedUnique(next, rows[n..]);
  }

  /** How many rows `n` pages hold. */
  function Capacity(n: nat, limit: nat): nat {
    if n == 0 then 0 else limit + Capacity(n - 1, limit)
  }

  lemma {:induction false} CapacityIsProduct(n: nat, limit: nat)
    ensures Capacity(n, limit) == n * limit
  {
    if n > 0 {
      CapacityIsProduct(n - 1, limit);
      assert n * limit == (n - 1) * limit + limit;
    }
  }

  /** The client asks again and again over one table, and no request fails. */
  ghost predicate AtRest(reqs: seq<Request>, table: set<Row>) {
    forall k :: 0 <= k < |reqs| ==> reqs[k] == Request(table, None)
  }

  lemma AtRestTail(reqs: seq<Request>, table: set<Row>)
    requires AtRest(reqs, table) && reqs != []
    ensures reqs[0] == Request(table, None) && AtRest(reqs[1..], table)
  {
    var rest := reqs[1..];
    assert forall k :: 0 <= k < |rest| ==> rest[k] == reqs[k + 1];
  }

  ghost function Count(table: set<Row>, f: Filter, cursor: Option<Cursor>): nat
    requires UniqueIds(table)
  {
    |Query(table, f, cursor)|
  }

  ghost predicate Finished(reqs: seq<Request>, f: Filter, limit: nat, cursor: Option<Cursor>)
    requires limit >= 1
  {
    Valid(reqs) && Follow(reqs, f, limit, cursor).finished
  }

  /** One page further there are `limit` rows fewer. */
  lemma FollowStep(reqs: seq<Request>, table: set<Row>, f: Filter, limit: nat, cursor: Option<Cursor>)
    returns (next: Option<Cursor>)
    requires reqs != [] && Valid(reqs) && AtRest(reqs, table) && UniqueIds(table) && limit >= 1
    ensures Valid(reqs[1..]) && AtRest(reqs[1..], table)
    ensures Count(table, f, cursor) <= limit ==> Finished(reqs, f, limit, cursor)
    ensures Count(table, f, cursor) > limit ==>
              && Count(table, f, next) == Count(table, f, cursor) - limit
              && (Finished(reqs, f, limit, cursor) <==> Finished(reqs[1..], f, limit, next))
  {
    AtRestTail(reqs, table);
    ValidTail(reqs);
    var rows := Query(table, f, cursor);
    next := cursor;
    if |rows| > limit {
      next := Some(CursorAt(rows[limit - 1]));
      NextQuery(table, f, cursor, limit);
    }
  }

  /** The client is done after at most `n` pages of `limit` rows. */
  function DoneWithin(n: nat, count: nat, limit: nat): bool {
    n > 0 && (count <= limit || DoneWithin(n - 1, count - limit, limit))
  }

  lemma {:induction false} DoneIff(n: nat, count: nat, limit: nat)
    ensures DoneWithin(n, count, limit) <==> n > 0 && count <= Capacity(n, limit)
  {
    if n > 0 && count > limit {
      DoneIff(n - 1, count - limit, limit);
    }
  }

  lemma {:induction false} PagesFinish(reqs: seq<Request>, table: set<Row>, f: Filter, limit: nat,
                                       cursor: Option<Cursor>, count: nat)
    requires Valid(reqs) && UniqueIds(table) && limit >= 1 && AtRest(reqs, table) && count == Count(table, f, cursor)
    ensures Finished(reqs, f, limit, cursor) <==> DoneWithin(|reqs|, count, limit)
    decreases |reqs|
  {
    if reqs != [] {
      var next := FollowStep(reqs, table, f, limit, cursor);
      if count > limit {
        PagesFinish(reqs[1..], table, f, limit, next, count - limit);
      }
    }
  }

  /** Over a table at rest, without failures, as many requests as the scan has pages are enough,
      and with fewer the client is told that there is more. */
  lemma PagesFinishIff(reqs: seq<Request>, table: set<Row>, f: Filter, limit: nat, cursor: Option<Cursor>)
    requires Valid(reqs) && UniqueIds(table) && limit >= 1 && AtRest(reqs, table)
    ensures Follow(reqs, f, limit, cursor).finished <==>
            reqs != [] && |Query(table, f, cursor)| <= |reqs| * limit
  {
    PagesFinish(reqs, table, f, limit, cursor, Count(table, f, cursor));
    DoneIff(|reqs|, Count(table, f, cursor), limit);
    CapacityIsProduct(|reqs|, limit);
  }
}
