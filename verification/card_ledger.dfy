// The cards table is the replay of the history table.
module CardLedger {
  import opened Wrappers
  import opened RowOrder
  import opened Lifecycle
  import opened Tables
  import opened CardTransactions

  datatype Head = Head(status: Status, version: nat)

  // Replays one row: a card is born by pending -> issued, and afterwards every row must start at
  // the card's current status and follow an edge of the lifecycle graph.
  function Advance(heads: map<Id, Head>, row: HistoryRow): Option<map<Id, Head>> {
    if row.card !in heads then
      if row.previous == Pending && row.next == Issued then Some(heads[row.card := Head(Issued, 1)]) else None
    else
      var h := heads[row.card];
      if row.previous == h.status && Legal(row.previous, row.next)
      then Some(heads[row.card := Head(row.next, h.version + 1)]) else None
  }

  function Replay(history: seq<HistoryRow>): Option<map<Id, Head>> {
    if history == [] then Some(map[])
    else
      var before := Replay(history[..|history|-1]);
      if before.None? then None else Advance(before.value, history[|history|-1])
  }

  function Heads(cards: map<Id, Card>): map<Id, Head> {
    map c | c in cards :: Head(cards[c].status, cards[c].version)
  }

  predicate LedgerOk(cards: map<Id, Card>, history: seq<HistoryRow>) {
    Replay(history) == Some(Heads(cards))
  }

  lemma {:induction false} ReplayAppend(history: seq<HistoryRow>, row: HistoryRow)
    ensures Replay(history + [row]) ==
      (if Replay(history).None? then None else Advance(Replay(history).value, row))
  {
    assert (history + [row])[..|history|] == history;
  }

  lemma {:induction false} PostKeepsLedger(db: Db, card: Id, operation: Id, to: Status)
    requires LedgerOk(db.cards, db.history)
    requires card in db.cards && Legal(db.cards[card].status, to)
    ensures var d := Post(db, card, operation, db.cards[card].status, to); LedgerOk(d.cards, d.history)
  {
    var d := Post(db, card, operation, db.cards[card].status, to);
    ReplayAppend(db.history, HistoryRow(card, operation, db.cards[card].status, to));
    assert Heads(d.cards) == Heads(db.cards)[card := Head(to, db.cards[card].version + 1)];
  }

  lemma {:induction false} InsertCardKeepsLedger(db: Db, card: Id, operation: Id, action: Action,
        predecessor: Option<Id>)
    requires LedgerOk(db.cards, db.history)
    ensures var t := InsertCard(db, card, operation, action, predecessor);
      t.Commit? ==> LedgerOk(t.db.cards, t.db.history)
  {
    var t := InsertCard(db, card, operation, action, predecessor);
    if t.Commit? {
      ReplayAppend(db.history, HistoryRow(card, operation, Pending, Issued));
      assert Heads(t.db.cards) == Heads(db.cards)[card := Head(Issued, 1)];
    }
  }

  lemma {:induction false} SameHeads(cards: map<Id, Card>, other: map<Id, Card>, history: seq<HistoryRow>)
    requires LedgerOk(cards, history)
    requires cards.Keys == other.Keys
    requires forall c :: c in cards ==> cards[c].status == other[c].status && cards[c].version == other[c].version
    ensures LedgerOk(other, history)
  {
    assert Heads(cards) == Heads(other);
  }

  // ----- what the replay says about each card's own history -----

  function RowsOf(history: seq<HistoryRow>, card: Id): seq<HistoryRow> {
    if history == [] then []
    else
      var n := |history| - 1;
      RowsOf(history[..n], card) + (if history[n].card == card then [history[n]] else [])
  }

  // A chain: born pending -> issued, each later row starts where the one before ended, and every
  // later row follows a lifecycle edge.
  predicate Chain(rows: seq<HistoryRow>) {
    rows != [] && rows[0].previous == Pending && rows[0].next == Issued &&
    forall k :: 1 <= k < |rows| ==> rows[k].previous == rows[k-1].next && Legal(rows[k].previous, rows[k].next)
  }

  lemma {:induction false} ReplayGivesChains(history: seq<HistoryRow>, card: Id)
    requires Replay(history).Some?
    ensures var heads := Replay(history).value; var rows := RowsOf(history, card);
      if card in heads
      then Chain(rows) && |rows| == heads[card].version && rows[|rows|-1].next == heads[card].status
      else rows == []
  {
    if history != [] {
      var n := |history| - 1;
      ReplayGivesChains(history[..n], card);
    }
  }

  // The converse: a history whose per-card rows are chains replays.
  lemma {:induction false} ChainsReplay(history: seq<HistoryRow>)
    requires forall k :: 0 <= k < |history| ==> Chain(RowsOf(history, history[k].card))
    ensures Replay(history).Some?
  {
    if history != [] {
      var n := |history| - 1;
      var last := history[n];
      forall k | 0 <= k < n ensures Chain(RowsOf(history[..n], history[..n][k].card)) {
        var c := history[k].card;
        assert Chain(RowsOf(history, c));
        OwnRow(history[..n], k);
        ChainPrefix(RowsOf(history, c), |RowsOf(history[..n], c)|);
        assert RowsOf(history[..n], c) == RowsOf(history, c)[..|RowsOf(history[..n], c)|];
      }
      ChainsReplay(history[..n]);
      ReplayGivesChains(history[..n], last.card);
      var rows, before := RowsOf(history, last.card), RowsOf(history[..n], last.card);
      assert rows == before + [last];
      assert Chain(rows);
      if before != [] { assert rows[|before|] == last && rows[|before|-1] == before[|before|-1]; }
    }
  }

  lemma {:induction false} OwnRow(history: seq<HistoryRow>, k: nat)
    requires k < |history|
    ensures RowsOf(history, history[k].card) != []
  {
    var n := |history| - 1;
    if k < n { OwnRow(history[..n], k); }
  }

  lemma {:induction false} ChainPrefix(rows: seq<HistoryRow>, k: nat)
    requires Chain(rows) && 0 < k <= |rows|
    ensures Chain(rows[..k])
  {
  }

  // The statuses a card went through from its issue on, the ends of its rows, are a walk.
  lemma {:induction false} ChainIsAWalk(rows: seq<HistoryRow>)
    requires Chain(rows)
    ensures Walk(seq(|rows|, k requires 0 <= k < |rows| => rows[k].next))
  {
  }
}
