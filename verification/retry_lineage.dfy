// Batches that retry other batches.
module RetryLineage {
  import opened Wrappers
  import opened RowOrder
  import opened Tables
  import opened BatchRefinement

  // What a retry copies from its source.
  predicate SameWork(batches: map<Id, Batch>, items: map<Id, BatchItem>, a: Id, b: Id) {
    a in batches && b in batches &&
    batches[a].target == batches[b].target && batches[a].reason == batches[b].reason &&
    batches[a].itemCount == batches[b].itemCount &&
    CardsOfBatch(items, a) == CardsOfBatch(items, b)
  }

  predicate LineageOk(batches: map<Id, Batch>, items: map<Id, BatchItem>) {
    forall b :: b in batches && batches[b].retryOf.Some? ==> SameWork(batches, items, b, batches[b].retryOf.value)
  }

  // A chain of retries, newest first.
  predicate RetryPath(batches: map<Id, Batch>, path: seq<Id>) {
    path != [] && (forall k :: 0 <= k < |path| ==> path[k] in batches) &&
    forall k :: 0 < k < |path| ==> batches[path[k-1]].retryOf == Some(path[k])
  }

  // However long the chain, the newest retry does the root draft's work.
  lemma {:induction false} RetriesDoTheRootsWork(batches: map<Id, Batch>, items: map<Id, BatchItem>, path: seq<Id>)
    requires LineageOk(batches, items) && RetryPath(batches, path)
    ensures SameWork(batches, items, path[0], path[|path|-1])
  {
    var n := |path| - 1;
    if n > 0 {
      RetriesDoTheRootsWork(batches, items, path[..n]);
      assert batches[path[n-1]].retryOf == Some(path[n]);
      assert SameWork(batches, items, path[n-1], path[n]);
    }
  }

  // Rows that keep their request and items that keep their membership keep the lineage.
  predicate SameRequests(batches: map<Id, Batch>, batches': map<Id, Batch>) {
    batches.Keys == batches'.Keys &&
    forall b :: b in batches ==>
      batches'[b].target == batches[b].target && batches'[b].reason == batches[b].reason &&
      batches'[b].itemCount == batches[b].itemCount && batches'[b].retryOf == batches[b].retryOf
  }

  predicate SameMembership(items: map<Id, BatchItem>, items': map<Id, BatchItem>) {
    items.Keys == items'.Keys &&
    forall i :: i in items ==>
      items'[i].batch == items[i].batch && items'[i].card == items[i].card && items'[i].operation == items[i].operation
  }

  lemma {:induction false} SameMembersSameCards(items: map<Id, BatchItem>, items': map<Id, BatchItem>, b: Id)
    requires SameMembership(items, items')
    ensures CardsOfBatch(items', b) == CardsOfBatch(items, b)
  {
    forall i | i in items && items[i].batch == b ensures items[i].card in CardsOfBatch(items', b) {
      assert i in items' && items'[i].batch == b && items'[i].card == items[i].card;
    }
    forall i | i in items' && items'[i].batch == b ensures items'[i].card in CardsOfBatch(items, b) {
      assert i in items && items[i].batch == b && items'[i].card == items[i].card;
    }
  }

  lemma {:induction false} UpdatesKeepLineage(batches: map<Id, Batch>, items: map<Id, BatchItem>, batches': map<Id,
        Batch>,
        items': map<Id, BatchItem>)
    requires LineageOk(batches, items) && SameRequests(batches, batches') && SameMembership(items, items')
    ensures LineageOk(batches', items')
  {
    forall b | b in batches' && batches'[b].retryOf.Some?
      ensures SameWork(batches', items', b, batches'[b].retryOf.value)
    {
      var s := batches'[b].retryOf.value;
      assert SameWork(batches, items, b, s);
      SameMembersSameCards(items, items', b);
      SameMembersSameCards(items, items', s);
    }
  }
}
