// Option, and the order a SQL "ORDER BY key, id" puts rows in.
module Wrappers {
  datatype Option<+T> = None | Some(value: T)
}

module RowOrder {
  // Row identifiers. A UUID is a 128-bit number and its canonical text sorts as that number.
  type Id = nat

  // `keys` maps each selected row to the value of its first ORDER BY column; the id breaks ties.
  predicate Before(keys: map<Id, int>, a: Id, b: Id)
    requires a in keys && b in keys
  {
    keys[a] < keys[b] || (keys[a] == keys[b] && a < b)
  }

  predicate First(keys: map<Id, int>, a: Id) {
    a in keys && forall b :: b in keys && b != a ==> Before(keys, a, b)
  }

  lemma {:induction false} FirstExists(keys: map<Id, int>)
    requires keys.Keys != {}
    ensures exists a :: First(keys, a)
    decreases |keys.Keys|
  {
    var x :| x in keys;
    var rest := keys - {x};
    assert rest.Keys == keys.Keys - {x};
    if rest.Keys == {} {
      assert forall b :: b in keys && b != x ==> b in rest.Keys;
      assert First(keys, x);
    } else {
      FirstExists(rest);
      var y :| First(rest, y);
      assert forall b :: b in keys && b != x ==> b in rest && keys[b] == rest[b];
      if Before(keys, x, y) {
        assert First(keys, x);
      } else {
        assert First(keys, y);
      }
    }
  }

  // ORDER BY key, id LIMIT 1
  function Least(keys: map<Id, int>): (r: Id)
    requires keys.Keys != {}
    ensures First(keys, r)
  {
    FirstExists(keys);
    var a :| First(keys, a);
    a
  }

  predicate Ascending(keys: map<Id, int>, s: seq<Id>)
    requires forall x :: x in s ==> x in keys
  {
    forall i, j :: 0 <= i < j < |s| ==> Before(keys, s[i], s[j])
  }

  // ORDER BY key, id
  function Ordered(keys: map<Id, int>): (r: seq<Id>)
    ensures forall x :: x in r <==> x in keys
    ensures |r| == |keys.Keys|
    ensures Ascending(keys, r)
    decreases |keys.Keys|
  {
    if keys.Keys == {} then []
    else
      var head := Least(keys);
      var rest := keys - {head};
      assert rest.Keys == keys.Keys - {head};
      var tail := Ordered(rest);
      AscendingCons(keys, head, tail);
      [head] + tail
  }

  lemma {:induction false} AscendingCons(keys: map<Id, int>, head: Id, tail: seq<Id>)
    requires First(keys, head)
    requires forall x :: x in tail <==> x in keys && x != head
    requires Ascending(keys - {head}, tail)
    ensures Ascending(keys, [head] + tail)
  {
    var s := [head] + tail;
    forall i, j | 0 <= i < j < |s| ensures Before(keys, s[i], s[j]) {
      assert s[j] == tail[j-1] && tail[j-1] in tail;
      if i > 0 {
        assert s[i] == tail[i-1] && tail[i-1] in tail;
        assert Before(keys - {head}, tail[i-1], tail[j-1]);
      }
    }
  }
}
