// internal/server/resource.go: the keyset cursor pager behind every collection.
module Pager {
  import opened Wrappers
  import opened RowOrder

  // A creation time as it appears in a row or a cursor: an instant, or text that does not parse.
  datatype Stamp = Stamp(at: int) | Garbled(text: string)

  // A row of the list: its id when that is a UUID, its created_at when it has one, and the rest.
  datatype Row = Row(id: Option<Id>, created: Option<Stamp>, body: string)

  datatype Cursor = Cursor(kind: string, bank: string, filter: string, created: Stamp, id: Option<Id>)

  // The cursor parameter: absent, not signed by this service, or the payload that was signed.
  datatype Token = Absent | Forged | Signed(cursor: Cursor)
  datatype SizeParam = NoSize | NotANumber | Number(n: int)

  datatype Reply = BadPageSize | BadCursor | InternalError | Page(rows: seq<Row>, next: Option<Cursor>)

  datatype Key = Key(at: int, id: Id)

  const DEFAULT_PAGE_SIZE := 50
  const MAX_PAGE_SIZE := 200

  predicate GoodSize(size: SizeParam) {
    size.NoSize? || (size.Number? && 1 <= size.n <= MAX_PAGE_SIZE)
  }

  function Limit(size: SizeParam): (r: nat)
    requires GoodSize(size)
    ensures 1 <= r <= MAX_PAGE_SIZE
  {
    if size.NoSize? then DEFAULT_PAGE_SIZE else size.n
  }

  // collectionKey succeeds, and the time it returns parses.
  predicate HasKey(row: Row) {
    row.id.Some? && row.created.Some?
  }

  predicate WellKeyed(row: Row) {
    HasKey(row) && row.created.value.Stamp?
  }

  function KeyOf(row: Row): Key
    requires WellKeyed(row)
  {
    Key(row.created.value.at, row.id.value)
  }

  predicate Below(a: Key, b: Key) {
    a.at < b.at || (a.at == b.at && a.id < b.id)
  }

  predicate Accepts(cursor: Cursor, kind: string, bank: string, filter: string) {
    cursor.kind == kind && cursor.bank == bank && cursor.filter == filter && cursor.id.Some? && cursor.created.Stamp?
  }

  // The first position from k on whose row comes after the cursor; None when a row on the way has no key.
  function StartFrom(data: seq<Row>, after: Key, k: nat): (r: Option<nat>)
    requires k <= |data|
    ensures r.Some? ==> k <= r.value <= |data|
    decreases |data| - k
  {
    if k == |data| then Some(k)
    else if !WellKeyed(data[k]) then None
    else if Below(KeyOf(data[k]), after) then Some(k)
    else StartFrom(data, after, k + 1)
  }

  function PageFrom(data: seq<Row>, start: nat, limit: nat, kind: string, bank: string, filter: string): Reply
    requires start <= |data| && limit >= 1
  {
    var end := if start + limit > |data| then |data| else start + limit;
    if end == |data| || start == end then Page(data[start..end], None)
    else
      var last := data[end-1];
      if !HasKey(last) then InternalError
      else Page(data[start..end], Some(Cursor(kind, bank, filter, last.created.value, last.id)))
  }

  function Answer(data: seq<Row>, kind: string, bank: string, filter: string, size: SizeParam, token: Token): Reply {
    if !GoodSize(size) then BadPageSize
    else if token.Absent? then PageFrom(data, 0, Limit(size), kind, bank, filter)
    else if token.Forged? || !Accepts(token.cursor, kind, bank, filter) then BadCursor
    else
      var start := StartFrom(data, Key(token.cursor.created.at, token.cursor.id.value), 0);
      if start.None? then InternalError else PageFrom(data, start.value, Limit(size), kind, bank, filter)
  }

  method Collection(data: seq<Row>, kind: string, bank: string, filter: string, size: SizeParam, token: Token)
    returns (reply: Reply)
    ensures reply == Answer(data, kind, bank, filter, size, token)
  {
    var limit := DEFAULT_PAGE_SIZE;
    if !size.NoSize? {
      if size.NotANumber? || size.n < 1 || size.n > MAX_PAGE_SIZE { return BadPageSize; }
      limit := size.n;
    }
    var start := 0;
    if !token.Absent? {
      if token.Forged? || !Accepts(token.cursor, kind, bank, filter) { return BadCursor; }
      var after := Key(token.cursor.created.at, token.cursor.id.value);
      while start < |data|
        invariant start <= |data|
        invariant StartFrom(data, after, 0) == StartFrom(data, after, start)
      {
        var row := data[start];
        if !WellKeyed(row) { return InternalError; }
        if row.created.value.at < after.at || (row.created.value.at == after.at && row.id.value < after.id) { break; }
        start := start + 1;
      }
    }
    var end := start + limit;
    if end > |data| { end := |data|; }
    var page := data[start..end];
    var next: Option<Cursor> := None;
    if end < |data| && |page| > 0 {
      var last := page[|page|-1];
      assert last == data[end-1];
      if !HasKey(last) { return InternalError; }
      next := Some(Cursor(kind, bank, filter, last.created.value, last.id));
    }
    reply := Page(page, next);
  }

  // ----- lists in keyset order -----

  // ORDER BY created_at DESC, id DESC
  predicate Descending(rows: seq<Row>) {
    (forall k :: 0 <= k < |rows| ==> WellKeyed(rows[k])) &&
    forall j, k :: 0 <= j < k < |rows| ==> Below(KeyOf(rows[k]), KeyOf(rows[j]))
  }

  // Rows that are still to come: all of them before the first page, afterwards those after the cursor.
  predicate Ahead(row: Row, from: Token)
    requires WellKeyed(row) && (from.Signed? ==> from.cursor.created.Stamp? && from.cursor.id.Some?)
  {
    from.Signed? ==> Below(KeyOf(row), Key(from.cursor.created.at, from.cursor.id.value))
  }

  predicate Issued(token: Token, kind: string, bank: string, filter: string) {
    token.Absent? || (token.Signed? && Accepts(token.cursor, kind, bank, filter))
  }

  lemma {:induction false} StartSplits(data: seq<Row>, after: Key, k: nat)
    requires Descending(data) && k <= |data|
    ensures var r := StartFrom(data, after, k);
      r.Some? && (forall j :: k <= j < r.value ==> !Below(KeyOf(data[j]), after)) &&
      forall j :: r.value <= j < |data| ==> Below(KeyOf(data[j]), after)
    decreases |data| - k
  {
    if k < |data| && !Below(KeyOf(data[k]), after) { StartSplits(data, after, k + 1); }
  }

  // One page: rows of the list, in order, exactly the first ones ahead of the cursor; and a next
  // cursor exactly when rows are left, pointing at the last row of the page.
  lemma {:induction false} OnePage(data: seq<Row>, kind: string, bank: string, filter: string, size: SizeParam,
        token: Token) returns (start: nat, end: nat)
    requires Descending(data) && GoodSize(size) && Issued(token, kind, bank, filter)
    ensures start <= end <= |data|
    ensures var asked := if size.NoSize? then 50 else size.n;
      if |data| - start <= asked then end == |data| else end - start == asked
    ensures forall j :: 0 <= j < |data| ==> (Ahead(data[j], token) <==> start <= j)
    ensures var r := Answer(data, kind, bank, filter, size, token);
      r.Page? && r.rows == data[start..end] && (r.next.None? <==> end == |data|) &&
      (r.next.Some? ==>
        start < end && Issued(Signed(r.next.value), kind, bank, filter) &&
        Key(r.next.value.created.at, r.next.value.id.value) == KeyOf(data[end-1]))
  {
    start := 0;
    if token.Signed? {
      var after := Key(token.cursor.created.at, token.cursor.id.value);
      StartSplits(data, after, 0);
      start := StartFrom(data, after, 0).value;
    }
    end := if start + Limit(size) > |data| then |data| else start + Limit(size);
  }

  predicate Foreign(token: Token, kind: string, bank: string, filter: string) {
    token.Forged? ||
    (token.Signed? &&
      (token.cursor.kind != kind || token.cursor.bank != bank || token.cursor.filter != filter ||
       token.cursor.created.Garbled? || token.cursor.id.None?))
  }

  // The other answers: a size that is no number from 1 to 200, then a cursor that this service did not
  // sign or that was made for another collection, bank or filter, or whose time or id does not parse.
  lemma {:induction false} BadRequestsAreRefused(data: seq<Row>, kind: string, bank: string, filter: string,
        size: SizeParam, token: Token)
    ensures var r := Answer(data, kind, bank, filter, size, token);
      (r == BadPageSize <==> size.NotANumber? || (size.Number? && (size.n < 1 || size.n > 200))) &&
      (r == BadCursor <==> r != BadPageSize && Foreign(token, kind, bank, filter))
  {
  }

  // ----- a traversal: one request after another, each on the list as it is then -----

  datatype Request = Request(data: seq<Row>, size: SizeParam)

  predicate Proper(requests: seq<Request>) {
    forall k :: 0 <= k < |requests| ==> Descending(requests[k].data) && GoodSize(requests[k].size)
  }

  // The rows a client collects by following next_cursor from `token`.
  function Collected(requests: seq<Request>, kind: string, bank: string, filter: string, token: Token): seq<Row> {
    if requests == [] then []
    else
      var r := Answer(requests[0].data, kind, bank, filter, requests[0].size, token);
      if !r.Page? then []
      else r.rows + (if r.next.None? then [] else Collected(requests[1..], kind, bank, filter, Signed(r.next.value)))
  }

  // The traversal uses exactly these requests and its last answer has no next cursor.
  predicate ReachesTheEnd(requests: seq<Request>, kind: string, bank: string, filter: string, token: Token) {
    requests != [] &&
    var r := Answer(requests[0].data, kind, bank, filter, requests[0].size, token);
    r.Page? && (if r.next.None? then |requests| == 1
                else ReachesTheEnd(requests[1..], kind, bank, filter, Signed(r.next.value)))
  }

  // Nothing is delivered twice: what is collected is itself in strict keyset order, ahead of the cursor.
  lemma {:induction false} CollectedDescends(requests: seq<Request>, kind: string, bank: string, filter: string,
        token: Token)
    requires Proper(requests) && Issued(token, kind, bank, filter)
    ensures var rows := Collected(requests, kind, bank, filter, token);
      Descending(rows) && AllAhead(rows, token)
  {
    hide Answer, Descending, Ahead, AllAhead, Proper, Issued, WellKeyed, GoodSize;
    if requests == [] {
      NothingDescends(token, kind, bank, filter);
    } else {
      var data := requests[0].data;
      ProperParts(requests);
      var start, end := OnePage(data, kind, bank, filter, requests[0].size, token);
      TokenIsReadable(token, kind, bank, filter);
      PageDescends(data, start, end, token);
      var r := Answer(data, kind, bank, filter, requests[0].size, token);
      if r.next.Some? {
        CollectedDescends(requests[1..], kind, bank, filter, Signed(r.next.value));
        Joined(data[start..end], Collected(requests[1..], kind, bank, filter, Signed(r.next.value)), token,
            Signed(r.next.value));
      } else {
        assert data[start..end] + [] == data[start..end];
      }
    }
  }

  lemma {:induction false} NothingDescends(token: Token, kind: string, bank: string, filter: string)
    requires Issued(token, kind, bank, filter)
    ensures Descending([]) && AllAhead([], token)
  {
  }

  lemma {:induction false} TokenIsReadable(token: Token, kind: string, bank: string, filter: string)
    requires Issued(token, kind, bank, filter)
    ensures token.Signed? ==> token.cursor.created.Stamp? && token.cursor.id.Some?
  {
  }

  lemma {:induction false} ProperParts(requests: seq<Request>)
    requires Proper(requests) && requests != []
    ensures Descending(requests[0].data) && GoodSize(requests[0].size) && Proper(requests[1..])
  {
  }

  lemma {:induction false} PageDescends(data: seq<Row>, start: nat, end: nat, token: Token)
    requires Descending(data) && start <= end <= |data|
    requires token.Signed? ==> token.cursor.created.Stamp? && token.cursor.id.Some?
    requires forall j :: 0 <= j < |data| ==> (Ahead(data[j], token) <==> start <= j)
    ensures Descending(data[start..end]) && AllAhead(data[start..end], token)
  {
  }

  predicate AllAhead(rows: seq<Row>, token: Token) {
    (token.Signed? ==> token.cursor.created.Stamp? && token.cursor.id.Some?) &&
    forall k :: 0 <= k < |rows| ==> WellKeyed(rows[k]) && Ahead(rows[k], token)
  }

  lemma {:induction false} Joined(a: seq<Row>, b: seq<Row>, from: Token, rest: Token)
    requires a != [] && Descending(a) && Descending(b) && AllAhead(a, from) && AllAhead(b, rest)
    requires rest.Signed? && Key(rest.cursor.created.at, rest.cursor.id.value) == KeyOf(a[|a|-1])
    ensures Descending(a + b) && AllAhead(a + b, from)
  {
    var s := a + b;
    forall j, k | 0 <= j < k < |s| ensures Below(KeyOf(s[k]), KeyOf(s[j])) {
      if j < |a| <= k && j < |a| - 1 { assert Below(KeyOf(a[|a|-1]), KeyOf(a[j])); }
      if j < |a| <= k { assert Ahead(b[k-|a|], rest); }
    }
    forall k | 0 <= k < |s| ensures Ahead(s[k], from) {
      assert Ahead(a[|a|-1], from);
      if k >= |a| { assert Ahead(b[k-|a|], rest); }
    }
  }

  // An item is its immutable (created_at, id); the rest of its row may change between requests.
  predicate Holds(rows: seq<Row>, key: Key) {
    exists k :: 0 <= k < |rows| && WellKeyed(rows[k]) && KeyOf(rows[k]) == key
  }

  predicate KeyAhead(key: Key, from: Token)
    requires from.Signed? ==> from.cursor.created.Stamp? && from.cursor.id.Some?
  {
    from.Signed? ==> Below(key, Key(from.cursor.created.at, from.cursor.id.value))
  }

  // Nothing is missed: an item that is in every list the traversal saw is delivered, whatever else
  // of its row changed from one list to the next.
  lemma {:induction false} NothingIsMissed(requests: seq<Request>, kind: string, bank: string, filter: string,
        token: Token, key: Key)
    requires Proper(requests) && Issued(token, kind, bank, filter)
    requires ReachesTheEnd(requests, kind, bank, filter, token)
    requires KeyAhead(key, token) && forall k :: 0 <= k < |requests| ==> Holds(requests[k].data, key)
    ensures Holds(Collected(requests, kind, bank, filter, token), key)
  {
    var data := requests[0].data;
    var start, end := OnePage(data, kind, bank, filter, requests[0].size, token);
    var r := Answer(data, kind, bank, filter, requests[0].size, token);
    var rows := Collected(requests, kind, bank, filter, token);
    var j :| 0 <= j < |data| && WellKeyed(data[j]) && KeyOf(data[j]) == key;
    assert Ahead(data[j], token);
    if j < end {
      assert rows[j-start] == data[j];
    } else {
      assert Below(KeyOf(data[j]), KeyOf(data[end-1]));
      var rest := Collected(requests[1..], kind, bank, filter, Signed(r.next.value));
      NothingIsMissed(requests[1..], kind, bank, filter, Signed(r.next.value), key);
      var k :| 0 <= k < |rest| && WellKeyed(rest[k]) && KeyOf(rest[k]) == key;
      assert rows[|r.rows|+k] == rest[k];
    }
  }

  // Nothing is invented.
  lemma {:induction false} NothingIsInvented(requests: seq<Request>, kind: string, bank: string, filter: string,
        token: Token, row: Row)
    requires Proper(requests) && Issued(token, kind, bank, filter) && row in Collected(requests, kind, bank, filter,
        token)
    ensures exists k :: 0 <= k < |requests| && row in requests[k].data
  {
    var data := requests[0].data;
    var start, end := OnePage(data, kind, bank, filter, requests[0].size, token);
    var r := Answer(data, kind, bank, filter, requests[0].size, token);
    if row in r.rows {
      assert row in requests[0].data;
    } else {
      NothingIsInvented(requests[1..], kind, bank, filter, Signed(r.next.value), row);
      var k :| 0 <= k < |requests[1..]| && row in requests[1..][k].data;
      assert row in requests[k+1].data;
    }
  }

  // How often an item is delivered.
  function Times(rows: seq<Row>, key: Key): nat {
    if rows == [] then 0
    else (if WellKeyed(rows[0]) && KeyOf(rows[0]) == key then 1 else 0) + Times(rows[1..], key)
  }

  lemma {:induction false} DescendingHasOnce(rows: seq<Row>, key: Key)
    requires Descending(rows)
    ensures Times(rows, key) == if Holds(rows, key) then 1 else 0
  {
    if rows != [] {
      DescendingHasOnce(rows[1..], key);
      if Holds(rows[1..], key) {
        var k :| 0 <= k < |rows[1..]| && WellKeyed(rows[1..][k]) && KeyOf(rows[1..][k]) == key;
        assert rows[k+1] == rows[1..][k] && Below(KeyOf(rows[k+1]), KeyOf(rows[0]));
      } else {
        forall k | 0 < k < |rows| ensures KeyOf(rows[k]) != key { assert rows[1..][k-1] == rows[k]; }
      }
    }
  }

  // A complete traversal of changing lists, with any mix of page sizes, delivers every item that was
  // there throughout exactly once, and no item twice.
  lemma {:induction false} TraversalIsExact(requests: seq<Request>, kind: string, bank: string, filter: string,
        key: Key)
    requires Proper(requests) && ReachesTheEnd(requests, kind, bank, filter, Absent)
    ensures var times := Times(Collected(requests, kind, bank, filter, Absent), key);
      times <= 1 && ((forall k :: 0 <= k < |requests| ==> Holds(requests[k].data, key)) ==> times == 1)
  {
    CollectedDescends(requests, kind, bank, filter, Absent);
    DescendingHasOnce(Collected(requests, kind, bank, filter, Absent), key);
    if forall k :: 0 <= k < |requests| ==> Holds(requests[k].data, key) {
      NothingIsMissed(requests, kind, bank, filter, Absent, key);
    }
  }

  // On a list that does not change, the pages concatenate to the list.
  lemma {:induction false} FixedListIsReassembled(requests: seq<Request>, data: seq<Row>, kind: string, bank: string,
        filter: string)
    requires Proper(requests) && ReachesTheEnd(requests, kind, bank, filter, Absent)
    requires forall k :: 0 <= k < |requests| ==> requests[k].data == data
    ensures Collected(requests, kind, bank, filter, Absent) == data
  {
    var rows := Collected(requests, kind, bank, filter, Absent);
    CollectedDescends(requests, kind, bank, filter, Absent);
    assert Descending(requests[0].data);
    forall row | row in rows ensures row in data { NothingIsInvented(requests, kind, bank, filter, Absent, row); }
    forall row | row in data ensures row in rows {
      var k :| 0 <= k < |data| && data[k] == row;
      assert Holds(data, KeyOf(row));
      NothingIsMissed(requests, kind, bank, filter, Absent, KeyOf(row));
      var j :| 0 <= j < |rows| && WellKeyed(rows[j]) && KeyOf(rows[j]) == KeyOf(row);
      assert rows[j] in data;
      OneRowPerKey(data, rows[j], row);
    }
    DescendingIsUnique(rows, data);
  }

  lemma {:induction false} OneRowPerKey(data: seq<Row>, a: Row, b: Row)
    requires Descending(data) && a in data && b in data && KeyOf(a) == KeyOf(b)
    ensures a == b
  {
    var i :| 0 <= i < |data| && data[i] == a;
    var j :| 0 <= j < |data| && data[j] == b;
    assert forall x, y :: 0 <= x < y < |data| ==> KeyOf(data[x]) != KeyOf(data[y]);
  }

  lemma {:induction false} DescendingIsUnique(a: seq<Row>, b: seq<Row>)
    requires Descending(a) && Descending(b) && forall row :: row in a <==> row in b
    ensures a == b
  {
    assert b == [] || b[0] in a;
    if a != [] {
      assert a[0] in b && b[0] in a;
      SameHead(a, b);
      forall row | row in a[1..] ensures row in b[1..] { RestOf(a, b, row); }
      forall row | row in b[1..] ensures row in a[1..] { RestOf(b, a, row); }
      DescendingIsUnique(a[1..], b[1..]);
    }
  }

  lemma {:induction false} SameHead(a: seq<Row>, b: seq<Row>)
    requires Descending(a) && Descending(b) && a != [] && b != [] && a[0] in b && b[0] in a
    ensures a[0] == b[0]
  {
    var i :| 0 <= i < |b| && b[i] == a[0];
    var j :| 0 <= j < |a| && a[j] == b[0];
    assert i > 0 ==> Below(KeyOf(b[i]), KeyOf(b[0]));
    assert j > 0 ==> Below(KeyOf(a[j]), KeyOf(a[0]));
  }

  lemma {:induction false} RestOf(a: seq<Row>, b: seq<Row>, row: Row)
    requires Descending(a) && a != [] && b != [] && a[0] == b[0] && row in a[1..]
    requires forall x :: x in a ==> x in b
    ensures row in b[1..]
  {
    var j :| 0 <= j < |a[1..]| && a[1..][j] == row;
    assert a[j+1] == row && Below(KeyOf(a[j+1]), KeyOf(a[0]));
    assert row in b;
    var i :| 0 <= i < |b| && b[i] == row;
    assert b[1..][i-1] == row;
  }

  predicate OnList(requests: seq<Request>, data: seq<Row>) {
    forall k :: 0 <= k < |requests| ==> requests[k].data == data
  }

  // On a fixed list following next cursors ends: within as many requests as there are rows left, and
  // one for an empty rest, whatever page sizes are asked for.
  lemma {:induction false} TraversalEnds(requests: seq<Request>, data: seq<Row>, kind: string, bank: string,
        filter: string, token: Token, from: nat) returns (n: nat)
    requires Proper(requests) && OnList(requests, data) && Issued(token, kind, bank, filter) && Descending(data)
    requires from <= |data| && forall j :: 0 <= j < |data| ==> (Ahead(data[j], token) <==> from <= j)
    requires |requests| >= |data| - from + 1
    ensures n <= |data| - from + 1 && n <= |requests| && ReachesTheEnd(requests[..n], kind, bank, filter, token)
    decreases |requests|
  {
    hide Answer, Descending, Ahead;
    assert requests[0].data == data;
    var start, end := OnePage(data, kind, bank, filter, requests[0].size, token);
    SameStart(data, token, from, start);
    var r := Answer(data, kind, bank, filter, requests[0].size, token);
    n := 1;
    if r.next.Some? {
      ProperParts(requests);
      AheadOfLast(data, Signed(r.next.value), end);
      var more := TraversalEnds(requests[1..], data, kind, bank, filter, Signed(r.next.value), end);
      n := more + 1;
      assert requests[..n][1..] == requests[1..][..more];
    }
    assert requests[..n][0] == requests[0];
  }

  lemma {:induction false} AheadOfLast(data: seq<Row>, token: Token, end: nat)
    requires Descending(data) && 0 < end <= |data|
    requires token.Signed? && token.cursor.created.Stamp? && token.cursor.id.Some?
    requires Key(token.cursor.created.at, token.cursor.id.value) == KeyOf(data[end-1])
    ensures forall j :: 0 <= j < |data| ==> (Ahead(data[j], token) <==> end <= j)
  {
    forall j | 0 <= j < |data| ensures Ahead(data[j], token) <==> end <= j {
      if j < end - 1 { assert Below(KeyOf(data[end-1]), KeyOf(data[j])); }
      if j >= end { assert Below(KeyOf(data[j]), KeyOf(data[end-1])); }
    }
  }

  lemma {:induction false} SameStart(data: seq<Row>, token: Token, a: nat, b: nat)
    requires Descending(data) && a <= |data| && b <= |data|
    requires token.Signed? ==> token.cursor.created.Stamp? && token.cursor.id.Some?
    requires forall j :: 0 <= j < |data| ==> (Ahead(data[j], token) <==> a <= j)
    requires forall j :: 0 <= j < |data| ==> (Ahead(data[j], token) <==> b <= j)
    ensures a == b
  {
    assert a < |data| ==> (Ahead(data[a], token) <==> b <= a);
    assert b < |data| ==> (Ahead(data[b], token) <==> a <= b);
  }

  // From the first request on: at most |data| + 1 requests reach the end.
  lemma {:induction false} FixedListTraversalEnds(requests: seq<Request>, data: seq<Row>, kind: string, bank: string,
        filter: string)
    requires Proper(requests) && OnList(requests, data) && Descending(data) && |requests| >= |data| + 1
    ensures exists n :: 0 <= n <= |data| + 1 && ReachesTheEnd(requests[..n], kind, bank, filter, Absent)
  {
    var n := TraversalEnds(requests, data, kind, bank, filter, Absent, 0);
  }
}
