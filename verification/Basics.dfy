/** Names, options and arrangements of finite sets, shared by all modules. */
module Basics {

  /** Go strings are byte sequences, so names are too. */
  type byte = x: int | 0 <= x < 256
  type Name = seq<byte>

  datatype Option<+T> = None | Some(value: T)

  function Max(a: nat, b: nat): nat {
    if a < b then b else a
  }

  /******* Arrangements of a set *******/

  predicate Distinct<T(==)>(s: seq<T>) {
    forall i, j :: 0 <= i < j < |s| ==> s[i] != s[j]
  }

  ghost predicate OrderOf<T(!new)>(order: seq<T>, keys: set<T>) {
    Distinct(order) && forall k :: k in order <==> k in keys
  }

  /** Some arrangement of a set of names. */
  ghost function SomeOrder(keys: set<Name>): (order: seq<Name>)
    ensures OrderOf(order, keys)
  {
    if keys == {} then []
    else
      var k :| k in keys;
      SomeOrder(keys - {k}) + [k]
  }

  lemma {:induction false} OrderSize<T(!new)>(order: seq<T>, keys: set<T>)
    requires OrderOf(order, keys)
    ensures |order| == |keys|
  {
    if order == [] {
      assert keys == {};
    } else {
      var k := order[|order| - 1];
      OrderSize(order[..|order| - 1], keys - {k});
    }
  }

  /** The elements that remain when one is dropped. */
  lemma DroppedAt<T>(s: seq<T>, i: nat, j: nat)
    requires i < |s| && j + 1 < |s|
    ensures (s[..i] + s[i + 1..])[j] == s[if j < i then j else j + 1]
  {
  }

  lemma StillIn<T>(s: seq<T>, j: nat, x: T)
    requires j < |s| && x in s && x != s[j]
    ensures x in s[..j] + s[j + 1..]
  {
    var l :| 0 <= l < |s| && s[l] == x;
    assert (s[..j] + s[j + 1..])[if l < j then l else l - 1] == x;
  }

  /** Dropping a key from an arrangement arranges the other keys. */
  lemma OrderWithout<T(!new)>(order: seq<T>, keys: set<T>, j: nat)
    requires OrderOf(order, keys) && j < |order|
    ensures OrderOf(order[..j] + order[j + 1..], keys - {order[j]})
  {
    var rest := order[..j] + order[j + 1..];
    forall k | k in keys && k != order[j] ensures k in rest {
      assert k in order;
      StillIn(order, j, k);
    }
    forall k | k in rest ensures k in keys && k != order[j] {
      assert k in order;
    }
  }
}
