// Replacement links between cards.
module ReplacementForest {
  import opened Wrappers
  import opened RowOrder
  import opened Lifecycle
  import opened Tables
  import opened CardLedger

  // Position of a card's first history row: its age. |history| when it has none.
  function FirstRow(history: seq<HistoryRow>, card: Id): (r: nat)
    ensures r <= |history|
  {
    if history == [] then 0
    else
      var n := |history| - 1;
      var f := FirstRow(history[..n], card);
      if f < n || history[n].card == card then f else n + 1
  }

  predicate Underway(s: Status) {
    s != Pending && s != Issued
  }

  // Each link points at an older card that has left issuance.
  predicate LinksOk(cards: map<Id, Card>, history: seq<HistoryRow>) {
    forall c :: c in cards && cards[c].predecessor.Some? ==>
      var p := cards[c].predecessor.value;
      p in cards && FirstRow(history, p) < FirstRow(history, c) && Underway(cards[p].status)
  }

  // At most one replacement of a card is still waiting to be activated.
  predicate OneIssued(cards: map<Id, Card>) {
    forall c, d :: c in cards && d in cards && c != d && cards[c].status == Issued && cards[d].status == Issued ==>
      cards[c].predecessor.None? || cards[c].predecessor != cards[d].predecessor
  }

  predicate ForestOk(cards: map<Id, Card>, history: seq<HistoryRow>) {
    LinksOk(cards, history) && OneIssued(cards)
  }

  lemma {:induction false} KnownCardsHaveRows(history: seq<HistoryRow>, card: Id)
    requires Replay(history).Some?
    ensures card in Replay(history).value <==> FirstRow(history, card) < |history|
  {
    if history != [] { KnownCardsHaveRows(history[..|history|-1], card); }
  }

  lemma {:induction false} FirstRowStays(history: seq<HistoryRow>, more: seq<HistoryRow>, card: Id)
    requires FirstRow(history, card) < |history|
    ensures FirstRow(history + more, card) == FirstRow(history, card)
  {
    var all := history + more;
    if more == [] {
      assert all == history;
    } else {
      assert all[..|all|-1] == history + more[..|more|-1];
      FirstRowStays(history, more[..|more|-1], card);
    }
  }

  // A step that only moves cards forward keeps the forest.
  predicate MovesForward(cards: map<Id, Card>, cards': map<Id, Card>) {
    cards.Keys == cards'.Keys &&
    forall c :: c in cards ==>
      cards'[c].predecessor == cards[c].predecessor &&
      (cards'[c].status == cards[c].status || Underway(cards'[c].status))
  }

  lemma {:induction false} ForwardKeepsForest(cards: map<Id, Card>, history: seq<HistoryRow>, cards': map<Id, Card>,
        more: seq<HistoryRow>)
    requires ForestOk(cards, history) && LedgerOk(cards, history) && MovesForward(cards, cards')
    ensures ForestOk(cards', history + more)
  {
    forall c | c in cards
      ensures FirstRow(history + more, c) == FirstRow(history, c)
    {
      KnownCardsHaveRows(history, c);
      FirstRowStays(history, more, c);
    }
  }

  lemma {:induction false} InsertKeepsForest(cards: map<Id, Card>, history: seq<HistoryRow>, card: Id, row: HistoryRow,
        predecessor: Option<Id>)
    requires ForestOk(cards, history) && LedgerOk(cards, history)
    requires card !in cards && row.card == card
    requires predecessor.Some? ==>
      predecessor.value in cards && Underway(cards[predecessor.value].status) &&
      forall c :: c in cards && cards[c].predecessor == predecessor ==> cards[c].status != Issued
    ensures ForestOk(cards[card := Card(Issued, 1, predecessor, None)], history + [row])
  {
    forall c | c in cards
      ensures FirstRow(history + [row], c) == FirstRow(history, c) < |history|
    {
      KnownCardsHaveRows(history, c);
      FirstRowStays(history, [row], c);
    }
    KnownCardsHaveRows(history, card);
    assert (history + [row])[..|history|] == history;
    assert FirstRow(history + [row], card) == |history|;
  }

  // Following predecessor links from a card.
  predicate LinkPath(cards: map<Id, Card>, path: seq<Id>) {
    path != [] && (forall k :: 0 <= k < |path| ==> path[k] in cards) &&
    forall k :: 0 < k < |path| ==> cards[path[k-1]].predecessor == Some(path[k])
  }

  lemma {:induction false} LinksGetOlder(cards: map<Id, Card>, history: seq<HistoryRow>, path: seq<Id>)
    requires ForestOk(cards, history) && LinkPath(cards, path) && |path| > 1
    ensures FirstRow(history, path[|path|-1]) < FirstRow(history, path[0])
  {
    var n := |path| - 1;
    assert cards[path[n-1]].predecessor == Some(path[n]);
    if n > 1 { LinksGetOlder(cards, history, path[..n]); }
  }

  // No card is its own ancestor.
  lemma {:induction false} Acyclic(cards: map<Id, Card>, history: seq<HistoryRow>, path: seq<Id>)
    requires ForestOk(cards, history) && LinkPath(cards, path) && |path| > 1
    ensures path[0] != path[|path|-1]
  {
    LinksGetOlder(cards, history, path);
  }
}
