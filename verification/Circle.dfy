/** The circle writer and the two walkers that check it. */
module Circle {

  /** Vertex ids are the numbers their decimal texts stand for. */
  type Store = map<nat, nat>

  datatype Row = Row(key: nat, value: nat)

  datatype ResultCode = OK | ERR_FAILED

  // ---- The store -----------------------------------------------------------------

  function Put(store: Store, rows: seq<Row>): Store
    decreases rows
  {
    if rows == [] then store else Put(store[rows[0].key := rows[0].value], rows[1..])
  }

  /** What one request does: an accepted insert stores the whole batch, a failed one any part of it. */
  datatype Reply = Accepted | Rejected(stored: set<int>)

  function Part(rows: seq<Row>, stored: set<int>, from: nat): (part: seq<Row>)
    requires from <= |rows|
    decreases |rows| - from
  {
    if from == |rows| then []
    else (if from in stored then [rows[from]] else []) + Part(rows, stored, from + 1)
  }

  /** A request as it went over the wire, and how it was answered. */
  datatype Request = Request(batch: seq<Row>, accepted: bool)

  /** The answers that are left when `used` of them have been given. */
  function Remaining(replies: seq<Reply>, used: nat): (rest: seq<Reply>) {
    if used <= |replies| then replies[used..] else []
  }

  class GraphClient {
    var store: Store
    // what the server will answer, in order; when it runs out, it rejects
    var replies: seq<Reply>
    // all requests so far
    ghost var log: seq<Request>

    constructor (store: Store, replies: seq<Reply>)
      ensures this.store == store && this.replies == replies && log == []
    {
      this.store, this.replies, log := store, replies, [];
    }

    /** INSERT VERTEX with a list of rows. */
    method Execute(batch: seq<Row>) returns (ok: bool)
      modifies this
      ensures log == old(log) + [Request(batch, ok)] && replies == Remaining(old(replies), 1)
      ensures ok <==> old(replies) != [] && old(replies)[0].Accepted?
      ensures ok ==> store == Put(old(store), batch)
      ensures !ok ==> exists stored :: store == Put(old(store), Part(batch, stored, 0))
    {
      var reply := if replies == [] then Rejected({}) else replies[0];
      if replies != [] {
        replies := replies[1..];
      }
      match reply {
        case Accepted =>
          store := Put(store, batch);
          ok := true;
        case Rejected(stored) =>
          store := Put(store, Part(batch, stored, 0));
          ok := false;
      }
      log := log + [Request(batch, ok)];
    }
  }

  // ---- The circle -------------------------------------------------------------------

  function Next(n: nat, i: nat): nat {
    if i == n then 1 else i + 1
  }

  /** Rows from..n of the circle on 1..n. */
  function Rows(n: nat, from: nat): (rows: seq<Row>)
    requires 1 <= from <= n + 1
    ensures |rows| == n + 1 - from
    decreases n + 1 - from
  {
    if from == n + 1 then [] else [Row(from, Next(n, from))] + Rows(n, from + 1)
  }

  lemma {:induction false} RowAt(n: nat, from: nat, k: nat)
    requires 1 <= from <= n + 1 && k < n + 1 - from
    ensures Rows(n, from)[k] == Row(from + k, Next(n, from + k))
    decreases k
  {
    if k > 0 {
      RowAt(n, from + 1, k - 1);
    }
  }

  function Flatten(batches: seq<seq<Row>>): seq<Row> {
    if batches == [] then [] else batches[0] + Flatten(batches[1..])
  }

  /** Every row is one of the circle on 1..n. */
  predicate CircleRows(n: nat, rows: seq<Row>) {
    forall k :: 0 <= k < |rows| ==> 1 <= rows[k].key <= n && rows[k].value == Next(n, rows[k].key)
  }

  /** The store differs from `before` only in keys that now hold their circle value. */
  ghost predicate Between(n: nat, before: Store, after: Store) {
    forall key :: key in before || key in after ==>
      || (key in before && key in after && after[key] == before[key])
      || (1 <= key <= n && key in after && after[key] == Next(n, key))
  }

  /** The keys 1..upTo hold the circle. */
  ghost predicate Holds(n: nat, upTo: nat, store: Store) {
    forall key :: 1 <= key <= upTo ==> key in store && store[key] == Next(n, key)
  }

  lemma {:induction false} PutBetween(n: nat, before: Store, store: Store, rows: seq<Row>)
    requires CircleRows(n, rows) && Between(n, before, store)
    ensures Between(n, before, Put(store, rows))
    decreases rows
  {
    if rows != [] {
      var next := store[rows[0].key := rows[0].value];
      assert Between(n, before, next);
      PutBetween(n, before, next, rows[1..]);
    }
  }

  lemma {:induction false} PutHolds(n: nat, upTo: nat, store: Store, rows: seq<Row>)
    requires CircleRows(n, rows) && Holds(n, upTo, store)
    ensures Holds(n, upTo, Put(store, rows))
    decreases rows
  {
    if rows != [] {
      PutHolds(n, upTo, store[rows[0].key := rows[0].value], rows[1..]);
    }
  }

  /** Storing consecutive rows extends the part of the circle that is there. */
  lemma {:induction false} PutExtends(n: nat, upTo: nat, store: Store, rows: seq<Row>)
    requires upTo + |rows| <= n && Holds(n, upTo, store)
    requires forall k :: 0 <= k < |rows| ==> rows[k] == Row(upTo + 1 + k, Next(n, upTo + 1 + k))
    ensures Holds(n, upTo + |rows|, Put(store, rows))
    decreases rows
  {
    if rows != [] {
      PutExtends(n, upTo + 1, store[rows[0].key := rows[0].value], rows[1..]);
    }
  }

  lemma {:induction false} PartRows(n: nat, rows: seq<Row>, stored: set<int>, from: nat)
    requires CircleRows(n, rows) && from <= |rows|
    ensures CircleRows(n, Part(rows, stored, from))
    decreases |rows| - from
  {
    if from < |rows| {
      PartRows(n, rows, stored, from + 1);
    }
  }

  // ---- The writer -----------------------------------------------------------------------

  /** The rows of the circle that follow the first `done`. */
  predicate Consecutive(n: nat, done: nat, batch: seq<Row>) {
    && done + |batch| <= n
    && forall k :: 0 <= k < |batch| ==> batch[k] == Row(done + 1 + k, Next(n, done + 1 + k))
  }

  lemma ConsecutiveIsSlice(n: nat, done: nat, batch: seq<Row>)
    requires n >= 1 && Consecutive(n, done, batch)
    ensures batch == Rows(n, 1)[done..done + |batch|]
  {
    forall k | 0 <= k < |batch|
      ensures batch[k] == Rows(n, 1)[done + k]
    {
      RowAt(n, 1, done + k);
    }
  }

  lemma ConsecutiveNext(n: nat, done: nat, batch: seq<Row>)
    requires Consecutive(n, done, batch) && done + |batch| < n
    ensures Consecutive(n, done, batch + [Row(done + |batch| + 1, Next(n, done + |batch| + 1))])
  {
  }

  lemma NothingYet(n: nat, done: nat)
    requires done <= n
    ensures Consecutive(n, done, [])
  {
  }

  // ---- Which batches there are to be sent --------------------------------------------------

  /** The rows behind the first `done`, in pieces of `b`; a single row that would be left over goes into
      the last piece. */
  function PiecesFrom(n: nat, b: nat, done: nat): (pieces: seq<seq<Row>>)
    requires n >= 1 && b >= 1 && done <= n
    decreases n - done
  {
    if n - done > b + 1 then [Rows(n, 1)[done..done + b]] + PiecesFrom(n, b, done + b)
    else [Rows(n, 1)[done..]]
  }

  /** With pieces of 0 rows one empty piece is sent ahead of all rows, unless there is one row only. */
  function Pieces(n: nat, b: nat): (pieces: seq<seq<Row>>)
    requires n >= 1
  {
    if b > 0 then PiecesFrom(n, b, 0)
    else if n > 1 then [[], Rows(n, 1)]
    else [Rows(n, 1)]
  }

  lemma FlattenOne(piece: seq<Row>)
    ensures Flatten([piece]) == piece
  {
    assert Flatten([piece]) == piece + Flatten([]);
  }

  lemma {:induction false} PiecesFromJoin(n: nat, b: nat, done: nat)
    requires n >= 1 && b >= 1 && done < n
    ensures var ps := PiecesFrom(n, b, done);
            && 1 <= |ps| <= n - done && Flatten(ps) == Rows(n, 1)[done..]
            && (forall k :: 0 <= k < |ps| - 1 ==> |ps[k]| == b) && 1 <= |ps[|ps| - 1]| <= b + 1
    decreases n - done
  {
    var rows := Rows(n, 1);
    if n - done > b + 1 {
      PiecesFromJoin(n, b, done + b);
      assert rows[done..done + b] + rows[done + b..] == rows[done..];
    } else {
      FlattenOne(rows[done..]);
    }
  }

  /** The pieces joined are the rows of the circle, once each and in order; all but the last have `b` rows,
      and the last has at least one and, unless `b` is 0, at most one more than `b`. */
  lemma PiecesJoin(n: nat, b: nat)
    requires n >= 1
    ensures var ps := Pieces(n, b);
            && 1 <= |ps| <= n && Flatten(ps) == Rows(n, 1)
            && (forall k :: 0 <= k < |ps| - 1 ==> |ps[k]| == b)
            && 1 <= |ps[|ps| - 1]| && (b > 0 ==> |ps[|ps| - 1]| <= b + 1)
  {
    var rows := Rows(n, 1);
    if b > 0 {
      PiecesFromJoin(n, b, 0);
      assert rows[0..] == rows;
    } else {
      FlattenOne(rows);
      assert [[], rows][1..] == [rows] && [] + rows == rows;
    }
  }

  lemma {:induction false} FlattenLast(pieces: seq<seq<Row>>)
    requires pieces != []
    ensures |pieces[|pieces| - 1]| <= |Flatten(pieces)|
  {
    if |pieces| > 1 {
      FlattenLast(pieces[1..]);
    }
  }

  lemma FlattenStep(pieces: seq<seq<Row>>)
    requires pieces != []
    ensures Flatten(pieces) == pieces[0] + Flatten(pieces[1..])
  {
  }

  lemma {:induction false} FlattenPrefix(pieces: seq<seq<Row>>, j: nat)
    requires j <= |pieces|
    ensures Flatten(pieces[..j]) <= Flatten(pieces)
    ensures j < |pieces| ==> |Flatten(pieces[..j])| + |pieces[|pieces| - 1]| <= |Flatten(pieces)|
  {
    if j == 0 {
      assert Flatten(pieces[..0]) == [];
      if pieces != [] {
        FlattenLast(pieces);
      }
    } else {
      hide Flatten;
      FlattenPrefix(pieces[1..], j - 1);
      FlattenStep(pieces);
      FlattenStep(pieces[..j]);
      assert pieces[..j][1..] == pieces[1..][..j - 1];
    }
  }

  /** Fewer pieces than all of them leave rows out. */
  lemma AllOrFewer(n: nat, b: nat, j: nat)
    requires n >= 1 && j <= |Pieces(n, b)|
    ensures Flatten(Pieces(n, b)[..j]) <= Rows(n, 1)
    ensures Flatten(Pieces(n, b)[..j]) == Rows(n, 1) <==> j == |Pieces(n, b)|
  {
    PiecesJoin(n, b);
    FlattenPrefix(Pieces(n, b), j);
    assert Pieces(n, b)[..|Pieces(n, b)|] == Pieces(n, b);
  }

  // ---- What is sent, given what will be answered ------------------------------------------------

  /** How many rejections come before the first acceptance, but `limit` at most. */
  function Failures(replies: seq<Reply>, limit: nat): (k: nat)
    ensures k <= limit
  {
    if limit == 0 || (replies != [] && replies[0].Accepted?) then 0
    else 1 + Failures(Remaining(replies, 1), limit - 1)
  }

  /** A batch rejected so many times, and then perhaps accepted. */
  function Attempted(batch: seq<Row>, failures: nat, accepted: bool): (log: seq<Request>) {
    seq(failures, _ => Request(batch, false)) + if accepted then [Request(batch, true)] else []
  }

  /** All requests for the batches in order, each sent up to `limit` times, until one is given up. */
  function Conversation(batches: seq<seq<Row>>, replies: seq<Reply>, limit: nat): (log: seq<Request>) {
    if batches == [] then []
    else
      var k := Failures(replies, limit);
      Attempted(batches[0], k, k < limit)
      + if k < limit then Conversation(batches[1..], Remaining(replies, k + 1), limit) else []
  }

  /** How many of the batches come through. */
  function Delivered(batches: seq<seq<Row>>, replies: seq<Reply>, limit: nat): (count: nat)
    ensures count <= |batches|
  {
    if batches == [] then 0
    else
      var k := Failures(replies, limit);
      if k < limit then 1 + Delivered(batches[1..], Remaining(replies, k + 1), limit) else 0
  }

  function AcceptedIn(log: seq<Request>): (batches: seq<seq<Row>>) {
    if log == [] then []
    else (if log[0].accepted then [log[0].batch] else []) + AcceptedIn(log[1..])
  }

  lemma {:induction false} AcceptedOfAttempt(batch: seq<Row>, k: nat, accepted: bool, rest: seq<Request>)
    ensures AcceptedIn(Attempted(batch, k, accepted) + rest) == (if accepted then [batch] else []) + AcceptedIn(rest)
  {
    var log := Attempted(batch, k, accepted) + rest;
    if k > 0 {
      AcceptedOfAttempt(batch, k - 1, accepted, rest);
      assert log[1..] == Attempted(batch, k - 1, accepted) + rest;
    } else if accepted {
      assert log[1..] == rest;
    } else {
      assert log == rest;
    }
  }

  /** The first batch, and what follows it. */
  lemma ConversationStep(batches: seq<seq<Row>>, replies: seq<Reply>, limit: nat)
    requires batches != []
    ensures var k := Failures(replies, limit);
            if k < limit then
              && Conversation(batches, replies, limit)
                 == Attempted(batches[0], k, true) + Conversation(batches[1..], Remaining(replies, k + 1), limit)
              && Delivered(batches, replies, limit) == 1 + Delivered(batches[1..], Remaining(replies, k + 1), limit)
            else
              && k == limit
              && Conversation(batches, replies, limit) == Attempted(batches[0], limit, false)
              && Delivered(batches, replies, limit) == 0
  {
    hide Attempted, Failures;
    var k := Failures(replies, limit);
    assert Attempted(batches[0], k, false) + [] == Attempted(batches[0], k, false);
  }

  lemma NothingAccepted()
    ensures AcceptedIn([]) == []
  {
  }

  lemma NothingLeft(replies: seq<Reply>, limit: nat)
    ensures Conversation([], replies, limit) == [] && Delivered([], replies, limit) == 0
  {
  }

  /** Exactly the delivered batches are accepted, each once and in order. */
  lemma {:induction false} AcceptedOnce(batches: seq<seq<Row>>, replies: seq<Reply>, limit: nat)
    ensures AcceptedIn(Conversation(batches, replies, limit)) == batches[..Delivered(batches, replies, limit)]
  {
    hide Attempted, Failures, Conversation, Delivered, AcceptedIn;
    if batches == [] {
      NothingLeft(replies, limit);
      NothingAccepted();
    } else {
      ConversationStep(batches, replies, limit);
      NothingAccepted();
      var k := Failures(replies, limit);
      if k < limit {
        var rest := Remaining(replies, k + 1);
        AcceptedOfAttempt(batches[0], k, true, Conversation(batches[1..], rest, limit));
        AcceptedOnce(batches[1..], rest, limit);
        var d := Delivered(batches[1..], rest, limit);
        assert [batches[0]] + batches[1..][..d] == batches[..1 + d];
      } else {
        AcceptedOfAttempt(batches[0], limit, false, []);
        assert Attempted(batches[0], limit, false) + [] == Attempted(batches[0], limit, false);
      }
    }
  }

  /** The requests end with a batch that was rejected `limit` times, which came first or right after an
      acceptance. */
  ghost predicate GaveUp(log: seq<Request>, batch: seq<Row>, limit: nat) {
    exists front ::
      && log == front + Attempted(batch, limit, false)
      && (front == [] || front[|front| - 1].accepted)
  }

  lemma GaveUpLater(batch: seq<Row>, k: nat, log: seq<Request>, last: seq<Row>, limit: nat)
    requires GaveUp(log, last, limit)
    ensures GaveUp(Attempted(batch, k, true) + log, last, limit)
  {
    var front :| log == front + Attempted(last, limit, false) && (front == [] || front[|front| - 1].accepted);
    var all := Attempted(batch, k, true) + front;
    assert Attempted(batch, k, true) + log == all + Attempted(last, limit, false);
    assert all[|all| - 1] == if front == [] then Request(batch, true) else front[|front| - 1];
  }

  lemma GaveUpFirst(batch: seq<Row>, limit: nat)
    ensures GaveUp(Attempted(batch, limit, false), batch, limit)
  {
    assert Attempted(batch, limit, false) == [] + Attempted(batch, limit, false);
  }

  /** Giving up takes that many rejections, of the first batch that was not delivered. */
  lemma {:induction false} GivesUpLate(batches: seq<seq<Row>>, replies: seq<Reply>, limit: nat)
    requires Delivered(batches, replies, limit) < |batches|
    ensures GaveUp(Conversation(batches, replies, limit), batches[Delivered(batches, replies, limit)], limit)
  {
    hide Attempted, Failures, Conversation, Delivered, GaveUp;
    ConversationStep(batches, replies, limit);
    var k := Failures(replies, limit);
    if k < limit {
      var rest := Remaining(replies, k + 1);
      GivesUpLate(batches[1..], rest, limit);
      var last := batches[Delivered(batches, replies, limit)];
      GaveUpLater(batches[0], k, Conversation(batches[1..], rest, limit), last, limit);
    } else {
      GaveUpFirst(batches[0], limit);
    }
  }

  /** If every request will be accepted, everything is delivered at the first attempt. */
  lemma {:induction false} AcceptedDelivers(batches: seq<seq<Row>>, replies: seq<Reply>, limit: nat)
    requires limit > 0 && |batches| <= |replies| && forall k :: 0 <= k < |batches| ==> replies[k].Accepted?
    ensures Delivered(batches, replies, limit) == |batches|
  {
    if batches != [] {
      AcceptedDelivers(batches[1..], Remaining(replies, 1), limit);
    }
  }

  /** The first `n` answers are acceptances. */
  predicate AnswersAll(n: nat, replies: seq<Reply>) {
    n <= |replies| && forall k :: 0 <= k < n ==> replies[k].Accepted?
  }

  lemma AllDelivered(n: nat, b: nat, replies: seq<Reply>, limit: nat)
    requires n >= 1 && limit > 0 && AnswersAll(n, replies)
    ensures Delivered(Pieces(n, b), replies, limit) == |Pieces(n, b)|
  {
    PiecesJoin(n, b);
    AcceptedDelivers(Pieces(n, b), replies, limit);
  }

  lemma FailureMore(replies: seq<Reply>, limit: nat, k: nat)
    requires k < limit && Failures(replies, limit) == k + Failures(Remaining(replies, k), limit - k)
    ensures var rest := Remaining(replies, k);
            && Remaining(rest, 1) == Remaining(replies, k + 1)
            && (if rest != [] && rest[0].Accepted? then Failures(replies, limit) == k
                else Failures(replies, limit) == k + 1 + Failures(Remaining(rest, 1), limit - k - 1))
  {
  }

  lemma OneMoreFailure(batch: seq<Row>, k: nat)
    ensures Attempted(batch, k, false) + [Request(batch, false)] == Attempted(batch, k + 1, false)
    ensures Attempted(batch, k, false) + [Request(batch, true)] == Attempted(batch, k, true)
    ensures Attempted(batch, 0, false) == []
  {
  }

  lemma NoAttemptLeft(replies: seq<Reply>)
    ensures Failures(replies, 0) == 0
  {
  }

  lemma StoredBatch(n: nat, done: nat, before: Store, store: Store, batch: seq<Row>)
    requires Consecutive(n, done, batch) && Between(n, before, store) && Holds(n, done, store)
    ensures Between(n, before, Put(store, batch)) && Holds(n, done + |batch|, Put(store, batch))
  {
    PutBetween(n, before, store, batch);
    PutExtends(n, done, store, batch);
  }

  lemma StoredPart(n: nat, done: nat, before: Store, store: Store, batch: seq<Row>, stored: set<int>)
    requires Consecutive(n, done, batch) && Between(n, before, store) && Holds(n, done, store)
    ensures Between(n, before, Put(store, Part(batch, stored, 0))) && Holds(n, done, Put(store, Part(batch, stored, 0)))
  {
    PartRows(n, batch, stored, 0);
    PutBetween(n, before, store, Part(batch, stored, 0));
    PutHolds(n, done, store, Part(batch, stored, 0));
  }

  lemma NothingStored(n: nat, store: Store)
    ensures Between(n, store, store) && Holds(n, 0, store)
  {
  }

  // ---- The writer half way -----------------------------------------------------------------

  /** The pieces that are still to be sent, when `sent` of them have been. */
  ghost function Todo(n: nat, b: nat, done: nat, sent: nat): (pieces: seq<seq<Row>>)
    requires n >= 1 && done <= n
  {
    if b > 0 then PiecesFrom(n, b, done)
    else if sent == 0 then Pieces(n, 0)
    else [Rows(n, 1)]
  }

  /** With `have` rows gathered for the next piece. */
  ghost predicate Gathering(b: nat, done: nat, have: nat, sent: nat) {
    if b > 0 then have <= b else done == 0 && (sent == 0 <==> have == 0) && sent <= 1
  }

  /** What was sent so far and what the pieces still call for make up what all pieces call for. */
  ghost predicate Told(pieces: seq<seq<Row>>, replies0: seq<Reply>, limit: nat, log0: seq<Request>,
                       sent: seq<seq<Row>>, todo: seq<seq<Row>>, replies: seq<Reply>, log: seq<Request>) {
    && pieces == sent + todo
    && log + Conversation(todo, replies, limit) == log0 + Conversation(pieces, replies0, limit)
    && |sent| + Delivered(todo, replies, limit) == Delivered(pieces, replies0, limit)
  }

  lemma Associates<T>(a: seq<T>, b: seq<T>, c: seq<T>)
    ensures a + (b + c) == a + b + c
  {
  }

  /** The first piece to be sent has been, up to its acceptance or in vain. */
  lemma ToldMore(pieces: seq<seq<Row>>, replies0: seq<Reply>, limit: nat, log0: seq<Request>,
                 sent: seq<seq<Row>>, piece: seq<Row>, todo: seq<seq<Row>>, replies: seq<Reply>, log: seq<Request>)
    requires Told(pieces, replies0, limit, log0, sent, [piece] + todo, replies, log)
    ensures var k := Failures(replies, limit);
            var log' := log + Attempted(piece, k, k < limit);
            if k < limit then
              Told(pieces, replies0, limit, log0, sent + [piece], todo, Remaining(replies, k + 1), log')
            else
              log' == log0 + Conversation(pieces, replies0, limit) && |sent| == Delivered(pieces, replies0, limit)
  {
    hide Attempted, Failures, Conversation, Delivered;
    var all, k := [piece] + todo, Failures(replies, limit);
    assert all[0] == piece && all[1..] == todo;
    ConversationStep(all, replies, limit);
    if k < limit {
      Associates(log, Attempted(piece, k, true), Conversation(todo, Remaining(replies, k + 1), limit));
      Associates(sent, [piece], todo);
    }
  }

  /** The writer at the top of its loop: `done` rows are sent in `sent`, and `have` more are gathered. */
  ghost predicate Underway(n: nat, b: nat, limit: nat, replies0: seq<Reply>, log0: seq<Request>,
                           sent: seq<seq<Row>>, done: nat, have: nat, replies: seq<Reply>, log: seq<Request>)
    requires n >= 1
  {
    && done <= n && Gathering(b, done, have, |sent|)
    && Told(Pieces(n, b), replies0, limit, log0, sent, Todo(n, b, done, |sent|), replies, log)
  }

  /** The writer through: the answers decided what was sent, and how much of it came through. */
  ghost predicate Through(n: nat, b: nat, limit: nat, replies0: seq<Reply>, log0: seq<Request>,
                          sent: seq<seq<Row>>, log: seq<Request>)
    requires n >= 1
  {
    && sent == Pieces(n, b)[..Delivered(Pieces(n, b), replies0, limit)]
    && log == log0 + Conversation(Pieces(n, b), replies0, limit)
  }

  lemma StartsUnderway(n: nat, b: nat, limit: nat, replies: seq<Reply>, log: seq<Request>)
    requires n >= 1
    ensures Underway(n, b, limit, replies, log, [], 0, 0, replies, log)
  {
    hide Conversation, Delivered;
  }

  lemma GathersMore(n: nat, b: nat, limit: nat, replies0: seq<Reply>, log0: seq<Request>,
                    sent: seq<seq<Row>>, done: nat, have: nat, replies: seq<Reply>, log: seq<Request>)
    requires n >= 1 && Underway(n, b, limit, replies0, log0, sent, done, have, replies, log) && have != b
    ensures Underway(n, b, limit, replies0, log0, sent, done, have + 1, replies, log)
  {
    hide Told, Todo, Pieces;
  }

  /** A piece is full, and there are at least two more rows. */
  lemma PieceReady(n: nat, b: nat, done: nat, batch: seq<Row>, sent: nat)
    requires n >= 1 && Consecutive(n, done, batch) && Gathering(b, done, |batch|, sent)
    requires |batch| == b && done + b + 1 < n
    ensures Todo(n, b, done, sent) == [batch] + Todo(n, b, done + b, sent + 1)
  {
    ConsecutiveIsSlice(n, done, batch);
  }

  /** All rows have been gathered: the last piece. */
  lemma LastPieceReady(n: nat, b: nat, done: nat, batch: seq<Row>, sent: nat)
    requires n >= 1 && Consecutive(n, done, batch) && |batch| > 0 && done + |batch| == n
    requires Gathering(b, done, |batch| - 1, sent)
    ensures Todo(n, b, done, sent) == [batch]
  {
    ConsecutiveIsSlice(n, done, batch);
    assert Rows(n, 1)[done..n] == Rows(n, 1)[done..];
  }

  lemma ToldIsPrefix(pieces: seq<seq<Row>>, replies0: seq<Reply>, limit: nat, log0: seq<Request>,
                     sent: seq<seq<Row>>, todo: seq<seq<Row>>, replies: seq<Reply>, log: seq<Request>)
    requires Told(pieces, replies0, limit, log0, sent, todo, replies, log)
    ensures pieces[..|sent|] == sent
  {
  }

  lemma PieceSent(n: nat, b: nat, limit: nat, replies0: seq<Reply>, log0: seq<Request>,
                  sent: seq<seq<Row>>, done: nat, batch: seq<Row>, replies: seq<Reply>, log: seq<Request>)
    requires n >= 1 && Underway(n, b, limit, replies0, log0, sent, done, |batch|, replies, log)
    requires Consecutive(n, done, batch) && |batch| == b && done + b + 1 < n
    ensures var k := Failures(replies, limit);
            var log' := log + Attempted(batch, k, k < limit);
            if k < limit then
              Underway(n, b, limit, replies0, log0, sent + [batch], done + b, 1, Remaining(replies, k + 1), log')
            else Through(n, b, limit, replies0, log0, sent, log') && sent != Pieces(n, b)
  {
    hide Attempted, Failures, Conversation, Delivered, Pieces, Todo, Consecutive;
    PieceReady(n, b, done, batch, |sent|);
    ToldMore(Pieces(n, b), replies0, limit, log0, sent, batch, Todo(n, b, done + b, |sent| + 1), replies, log);
    ToldIsPrefix(Pieces(n, b), replies0, limit, log0, sent, Todo(n, b, done, |sent|), replies, log);
  }

  lemma LastSent(n: nat, b: nat, limit: nat, replies0: seq<Reply>, log0: seq<Request>,
                 sent: seq<seq<Row>>, done: nat, batch: seq<Row>, replies: seq<Reply>, log: seq<Request>)
    requires n >= 1 && |batch| > 0 && Underway(n, b, limit, replies0, log0, sent, done, |batch| - 1, replies, log)
    requires Consecutive(n, done, batch) && done + |batch| == n
    ensures var k := Failures(replies, limit);
            Through(n, b, limit, replies0, log0, if k < limit then sent + [batch] else sent,
                    log + Attempted(batch, k, k < limit))
    ensures Failures(replies, limit) < limit ==> sent + [batch] == Pieces(n, b)
    ensures Failures(replies, limit) == limit ==> |sent| < |Pieces(n, b)|
  {
    hide Attempted, Failures, Conversation, Delivered, Pieces, Todo, Consecutive;
    LastPieceReady(n, b, done, batch, |sent|);
    assert [batch] + [] == [batch];
    var k := Failures(replies, limit);
    ToldMore(Pieces(n, b), replies0, limit, log0, sent, batch, [], replies, log);
    ToldIsPrefix(Pieces(n, b), replies0, limit, log0, sent, [batch], replies, log);
    if k < limit {
      var log' := log + Attempted(batch, k, true);
      NothingLeft(Remaining(replies, k + 1), limit);
      assert log' + [] == log' && sent + [batch] + [] == sent + [batch];
      assert Pieces(n, b)[..|Pieces(n, b)|] == Pieces(n, b);
    }
  }

  /** What the writer has to say at the end. */
  lemma ThroughMeans(n: nat, b: nat, limit: nat, replies0: seq<Reply>, log0: seq<Request>,
                     sent: seq<seq<Row>>, log: seq<Request>)
    requires n >= 1 && Through(n, b, limit, replies0, log0, sent, log)
    ensures var pieces := Pieces(n, b);
            && Flatten(sent) <= Rows(n, 1)
            && (Flatten(sent) == Rows(n, 1) <==> sent == pieces)
            && (sent != pieces ==> |sent| < |pieces|
                                   && GaveUp(Conversation(pieces, replies0, limit), pieces[|sent|], limit))
            && (limit > 0 && AnswersAll(n, replies0) ==> sent == pieces)
  {
    hide Conversation, Delivered, Pieces, Rows, Flatten, GaveUp, AnswersAll;
    if limit > 0 && AnswersAll(n, replies0) {
      AllDelivered(n, b, replies0, limit);
    }
    var pieces := Pieces(n, b);
    AllOrFewer(n, b, |sent|);
    assert pieces[..|pieces|] == pieces;
    if |sent| < |pieces| {
      GivesUpLate(pieces, replies0, limit);
    }
  }

  class WriteCircleAction {
    const client: GraphClient
    const totalRows: nat
    const batchNum: nat
    const tries: nat

    constructor (client: GraphClient, totalRows: nat, batchNum: nat, tries: nat)
      ensures this.client == client && this.totalRows == totalRows && this.batchNum == batchNum && this.tries == tries
    {
      this.client, this.totalRows, this.batchNum, this.tries := client, totalRows, batchNum, tries;
    }

    /** The size of the circle: without rows to write, the one row 1 -> 1 is still written. */
    function Size(): (n: nat)
      ensures n >= 1 && (totalRows >= 1 ==> n == totalRows)
    {
      if totalRows == 0 then 1 else totalRows
    }

    /** The attempts at one batch: one fewer than `tries` says. */
    function Attempts(): (k: nat)
      ensures tries >= 2 <==> k > 0
    {
      if tries == 0 then 0 else tries - 1
    }

    /** Sends rows done+1..done+|batch| until they are accepted, or until the attempts are used up.
        Whatever the failed ones left behind, after OK the rows are all there. */
    method SendBatch(batch: seq<Row>, ghost done: nat, ghost before: Store) returns (rc: ResultCode)
      requires Consecutive(Size(), done, batch) && Between(Size(), before, client.store)
      requires Holds(Size(), done, client.store)
      modifies client
      ensures Between(Size(), before, client.store)
      ensures Holds(Size(), if rc == OK then done + |batch| else done, client.store)
      ensures var k := Failures(old(client.replies), Attempts());
              && (rc == OK <==> k < Attempts())
              && client.log == old(client.log) + Attempted(batch, k, rc == OK)
              && client.replies == Remaining(old(client.replies), if rc == OK then k + 1 else k)
    {
      hide Attempted, Failures, Between, Holds, Consecutive;
      var tryTimes := 1;
      OneMoreFailure(batch, 0);
      while tryTimes < tries
        invariant Between(Size(), before, client.store)
        invariant Holds(Size(), done, client.store)
        invariant tryTimes == 1 || 1 < tryTimes <= tries
        invariant client.log == old(client.log) + Attempted(batch, tryTimes - 1, false)
        invariant client.replies == Remaining(old(client.replies), tryTimes - 1)
        invariant tryTimes <= tries ==>
          Failures(old(client.replies), Attempts()) == tryTimes - 1 + Failures(client.replies, tries - tryTimes)
      {
        ghost var s := client.store;
        FailureMore(old(client.replies), Attempts(), tryTimes - 1);
        OneMoreFailure(batch, tryTimes - 1);
        var ok := client.Execute(batch);
        if ok {
          StoredBatch(Size(), done, before, s, batch);
          return OK;
        }
        ghost var stored :| client.store == Put(s, Part(batch, stored, 0));
        StoredPart(Size(), done, before, s, batch, stored);
        tryTimes := tryTimes + 1;
      }
      NoAttemptLeft(client.replies);
      return ERR_FAILED;
    }

    /** Sends the pieces of the circle one after the other, each until it is accepted, and gives up with the
        first that never is: the requests are exactly those that the answers to come call for.  OK means that
        every row was accepted once, and then the store holds the n-circle, whatever it held before and
        whatever failed attempts stored; other keys are never touched. */
    method DoRun() returns (rc: ResultCode, ghost batches: seq<seq<Row>>)
      modifies client
      ensures var pieces := Pieces(Size(), batchNum);
              && batches == pieces[..Delivered(pieces, old(client.replies), Attempts())]
              && client.log == old(client.log) + Conversation(pieces, old(client.replies), Attempts())
              && (rc == OK <==> batches == pieces)
              && (rc != OK ==> |batches| < |pieces|
                               && GaveUp(Conversation(pieces, old(client.replies), Attempts()),
                                         pieces[|batches|], Attempts()))
      ensures rc == OK <==> Flatten(batches) == Rows(Size(), 1)
      ensures rc != OK ==> Flatten(batches) <= Rows(Size(), 1)
      ensures tries >= 2 && AnswersAll(Size(), old(client.replies)) ==> rc == OK
      ensures Between(Size(), old(client.store), client.store)
      ensures rc == OK ==> Holds(Size(), Size(), client.store)
    {
      hide Consecutive, Between, Holds, Flatten, Rows, Conversation, Delivered, Pieces, Attempted, Failures, GaveUp;
      hide Underway, AnswersAll;
      ghost var n, b, before, limit := Size(), batchNum, client.store, Attempts();
      ghost var replies0, log0 := client.replies, client.log;
      ghost var done: nat := 0;
      var batch: seq<Row> := [];
      var row := 1;
      batches := [];
      NothingStored(n, before);
      NothingYet(n, 0);
      StartsUnderway(n, b, limit, replies0, log0);
      while row < totalRows
        invariant 1 <= row <= n && done + |batch| == row - 1 && Consecutive(n, done, batch)
        invariant Underway(n, b, limit, replies0, log0, batches, done, |batch|, client.replies, client.log)
        invariant Between(n, before, client.store) && Holds(n, done, client.store)
      {
        if |batch| == batchNum {
          PieceSent(n, b, limit, replies0, log0, batches, done, batch, client.replies, client.log);
          var res := SendBatch(batch, done, before);
          if res != OK {
            ThroughMeans(n, b, limit, replies0, log0, batches, client.log);
            return res, batches;
          }
          batches := batches + [batch];
          done := done + |batch|;
          batch := [];
          NothingYet(n, done);
        } else {
          GathersMore(n, b, limit, replies0, log0, batches, done, |batch|, client.replies, client.log);
        }
        ConsecutiveNext(n, done, batch);
        batch := batch + [Row(row, row + 1)];
        row := row + 1;
      }
      ConsecutiveNext(n, done, batch);
      batch := batch + [Row(row, 1)];
      LastSent(n, b, limit, replies0, log0, batches, done, batch, client.replies, client.log);
      rc := SendBatch(batch, done, before);
      if rc == OK {
        batches := batches + [batch];
      }
      ThroughMeans(n, b, limit, replies0, log0, batches, client.log);
    }
  }

  // ---- The walkers ------------------------------------------------------------------------

  /** `Follow(store, start, k)`: where k fetches from `start` lead, if each finds a row. */
  datatype Position = Lost | At(id: nat)

  function Follow(store: Store, start: nat, k: nat): Position {
    if k == 0 then At(start)
    else match Follow(store, start, k - 1)
      case Lost => Lost
      case At(id) => if id in store then At(store[id]) else Lost
  }

  /** The walk from `start` comes back to it after n steps and not before. */
  ghost predicate ReturnsAfter(store: Store, start: nat, n: nat) {
    && n >= 1
    && Follow(store, start, n) == At(start)
    && forall k :: 1 <= k < n ==> Follow(store, start, k).At? && Follow(store, start, k) != At(start)
  }

  class Walker {
    const store: Store
    const start: nat
    const totalRows: nat
    // which fetches are answered within the retries
    const answered: nat -> bool

    constructor (store: Store, start: nat, totalRows: nat, answered: nat -> bool)
      ensures this.store == store && this.start == start && this.totalRows == totalRows && this.answered == answered
    {
      this.store, this.start, this.totalRows, this.answered := store, start, totalRows, answered;
    }

    /** FETCH, or LOOKUP on the index: nothing when all retries fail or when there is no row. */
    method SendCommand(id: nat, count: nat) returns (res: Position)
      ensures res == if answered(count) && id in store then At(store[id]) else Lost
    {
      if answered(count) && id in store {
        return At(store[id]);
      }
      return Lost;
    }

    /** OK exactly when the walk is answered all the way and closes after `totalRows` steps. */
    method DoRun() returns (rc: ResultCode)
      ensures rc == OK <==>
              ReturnsAfter(store, start, totalRows) && forall k :: 1 <= k <= totalRows ==> answered(k)
    {
      var id := start;
      var count := 1;
      while count <= totalRows
        invariant 1 <= count <= totalRows + 1
        invariant Follow(store, start, count - 1) == At(id)
        invariant forall k :: 1 <= k < count ==> answered(k)
        invariant forall k :: 1 <= k < count ==> Follow(store, start, k).At? && Follow(store, start, k) != At(start)
        decreases totalRows - count
      {
        var res := SendCommand(id, count);
        if res.Lost? {
          assert id !in store ==> Follow(store, start, count) == Lost;
          return ERR_FAILED;
        }
        id := res.id;
        assert Follow(store, start, count) == At(id);
        if id == start {
          break;
        }
        count := count + 1;
      }
      if id != start {
        return ERR_FAILED;
      }
      return if count == totalRows then OK else ERR_FAILED;
    }
  }
}
