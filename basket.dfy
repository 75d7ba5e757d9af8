/** The cart store: an ordered list of products in which no two share an id. */
module Basket {
  import opened Types

  /** `item.price ?? 0`: a product that is not for sale counts as 0. */
  function PriceOrZero(p: Product): int {
    match p.price
    case Some(v) => v
    case None => 0
  }

  /** `items.some(item => item.id === id)` */
  predicate HasId(s: seq<Product>, id: string) {
    exists i :: 0 <= i < |s| && s[i].id == id
  }

  /** The cart invariant: no two items share an id. */
  predicate DistinctIds(s: seq<Product>) {
    forall i, j :: 0 <= i < j < |s| ==> s[i].id != s[j].id
  }

  function IdsOf(s: seq<Product>): set<string> {
    set i | 0 <= i < |s| :: s[i].id
  }

  /** The list after `addProduct(p)`: unchanged if an item already has `p`'s
      id, otherwise `p` pushed at the end. */
  function Added(s: seq<Product>, p: Product): seq<Product> {
    if HasId(s, p.id) then s else s + [p]
  }

  /** `items.filter(item => item.id !== id)` */
  function WithoutId(s: seq<Product>, id: string): seq<Product> {
    if s == [] then [] else (if s[0].id == id then [] else [s[0]]) + WithoutId(s[1..], id)
  }

  /** `items.reduce((sum, item) => sum + (item.price ?? 0), acc)`: a left fold. */
  function ReducePrices(s: seq<Product>, acc: int): int {
    if s == [] then acc else ReducePrices(s[1..], acc + PriceOrZero(s[0]))
  }

  /** The sum of the items' prices, a missing price counting as 0. */
  function SumPrices(s: seq<Product>): int {
    if s == [] then 0 else PriceOrZero(s[0]) + SumPrices(s[1..])
  }

  /** The fold that computes the total is the sum of the prices. */
  lemma {:induction false} ReduceIsSum(s: seq<Product>, acc: int)
    ensures ReducePrices(s, acc) == acc + SumPrices(s)
  {
    if s != [] {
      ReduceIsSum(s[1..], acc + PriceOrZero(s[0]));
    }
  }

  lemma {:induction false} SumPricesAppend(a: seq<Product>, b: seq<Product>)
    ensures SumPrices(a + b) == SumPrices(a) + SumPrices(b)
  {
    if a == [] {
      assert a + b == b;
    } else {
      assert (a + b)[1..] == a[1..] + b;
      SumPricesAppend(a[1..], b);
    }
  }

  /** A new product lands at the end; the earlier items stay as they were. */
  lemma AddedAbsent(s: seq<Product>, p: Product)
    requires !HasId(s, p.id)
    ensures |Added(s, p)| == |s| + 1
    ensures Added(s, p)[|s|] == p && Added(s, p)[..|s|] == s
  {
  }

  /** Adding the same product twice is adding it once. */
  lemma AddedIdempotent(s: seq<Product>, p: Product)
    ensures Added(Added(s, p), p) == Added(s, p)
  {
    if !HasId(s, p.id) {
      assert (s + [p])[|s|].id == p.id;
    }
  }

  /** Adding keeps the ids distinct. */
  lemma AddedKeepsDistinct(s: seq<Product>, p: Product)
    requires DistinctIds(s)
    ensures DistinctIds(Added(s, p))
  {
  }

  /** Adding raises the total by the new product's price, and only when it is new. */
  lemma AddedTotal(s: seq<Product>, p: Product)
    ensures SumPrices(Added(s, p)) == SumPrices(s) + (if HasId(s, p.id) then 0 else PriceOrZero(p))
  {
    if !HasId(s, p.id) {
      SumPricesAppend(s, [p]);
    }
  }

  /** The filter leaves no item with the id and keeps only items of the list. */
  lemma {:induction false} WithoutIdContents(s: seq<Product>, id: string)
    ensures |WithoutId(s, id)| <= |s|
    ensures !HasId(WithoutId(s, id), id)
    ensures forall x :: x in WithoutId(s, id) ==> x in s
  {
    if s != [] {
      WithoutIdContents(s[1..], id);
      var r := WithoutId(s, id);
      var rest := WithoutId(s[1..], id);
      if s[0].id != id {
        assert r == [s[0]] + rest;
        forall i | 0 <= i < |r| ensures r[i].id != id && r[i] in s {
          if i > 0 { assert r[i] == rest[i - 1] && rest[i - 1] in s[1..]; }
        }
      }
    }
  }

  /** The filter drops every copy of an item with the id and keeps every
      copy of the others. */
  lemma {:induction false} WithoutIdCounts(s: seq<Product>, id: string)
    ensures forall x :: multiset(WithoutId(s, id))[x] == if x.id == id then 0 else multiset(s)[x]
  {
    if s != [] {
      WithoutIdCounts(s[1..], id);
      assert s == [s[0]] + s[1..];
      assert multiset(s) == multiset{s[0]} + multiset(s[1..]);
    }
  }

  /** Filtering keeps the relative order: it distributes over concatenation. */
  lemma {:induction false} WithoutIdAppend(a: seq<Product>, b: seq<Product>, id: string)
    ensures WithoutId(a + b, id) == WithoutId(a, id) + WithoutId(b, id)
  {
    if a == [] {
      assert a + b == b;
    } else {
      var head := if a[0].id == id then [] else [a[0]];
      assert (a + b)[0] == a[0] && (a + b)[1..] == a[1..] + b;
      WithoutIdAppend(a[1..], b, id);
      calc {
        WithoutId(a + b, id);
        head + WithoutId(a[1..] + b, id);
        head + (WithoutId(a[1..], id) + WithoutId(b, id));
        (head + WithoutId(a[1..], id)) + WithoutId(b, id);
      }
    }
  }

  /** Removing an id that no item has changes nothing. */
  lemma {:induction false} WithoutIdAbsent(s: seq<Product>, id: string)
    requires !HasId(s, id)
    ensures WithoutId(s, id) == s
  {
    if s != [] {
      assert !HasId(s[1..], id) by {
        forall i | 0 <= i < |s[1..]| ensures s[1..][i].id != id {
          assert s[1..][i] == s[i + 1];
        }
      }
      WithoutIdAbsent(s[1..], id);
      assert s[0].id != id;
      assert s == [s[0]] + s[1..];
    }
  }

  /** The tail of a list with distinct ids has distinct ids, none of them the head's. */
  lemma DistinctIdsTail(s: seq<Product>)
    requires DistinctIds(s) && s != []
    ensures DistinctIds(s[1..]) && !HasId(s[1..], s[0].id)
  {
    var tail := s[1..];
    forall i, j | 0 <= i < j < |tail| ensures tail[i].id != tail[j].id {
      assert tail[i] == s[i + 1] && tail[j] == s[j + 1];
    }
    forall i | 0 <= i < |tail| ensures tail[i].id != s[0].id {
      assert tail[i] == s[i + 1];
    }
  }

  lemma PrependKeepsDistinct(x: Product, s: seq<Product>)
    requires DistinctIds(s) && forall y :: y in s ==> y.id != x.id
    ensures DistinctIds([x] + s)
  {
    var r := [x] + s;
    forall i, j | 0 <= i < j < |r| ensures r[i].id != r[j].id {
      assert r[j] == s[j - 1] && r[j] in s;
      if i > 0 {
        assert r[i] == s[i - 1];
      }
    }
  }

  /** Removing keeps the ids distinct. */
  lemma {:induction false} WithoutIdKeepsDistinct(s: seq<Product>, id: string)
    requires DistinctIds(s)
    ensures DistinctIds(WithoutId(s, id))
  {
    if s != [] {
      var tail := s[1..];
      DistinctIdsTail(s);
      WithoutIdKeepsDistinct(tail, id);
      var rest := WithoutId(tail, id);
      if s[0].id != id {
        WithoutIdContents(tail, id);
        forall x | x in rest ensures x.id != s[0].id {
          var j :| 0 <= j < |tail| && tail[j] == x;
        }
        PrependKeepsDistinct(s[0], rest);
      }
    }
  }

  /** Adding a new product and then removing it restores the list. */
  lemma AddThenRemove(s: seq<Product>, p: Product)
    requires !HasId(s, p.id)
    ensures WithoutId(Added(s, p), p.id) == s
  {
    WithoutIdAppend(s, [p], p.id);
    WithoutIdAbsent(s, p.id);
    assert [p][1..] == [];
  }

  /** Removing one of the cart's products lowers the total by exactly its price. */
  lemma {:induction false} RemovedTotal(s: seq<Product>, k: nat)
    requires DistinctIds(s) && k < |s|
    ensures SumPrices(WithoutId(s, s[k].id)) == SumPrices(s) - PriceOrZero(s[k])
  {
    var id := s[k].id;
    var tail := s[1..];
    DistinctIdsTail(s);
    if k == 0 {
      WithoutIdAbsent(tail, id);
      assert WithoutId(s, id) == tail;
    } else {
      assert tail[k - 1] == s[k];
      RemovedTotal(tail, k - 1);
      var rest := WithoutId(tail, id);
      assert s[0].id != id;
      assert WithoutId(s, id) == [s[0]] + rest;
      assert ([s[0]] + rest)[1..] == rest;
    }
  }

  /** With distinct ids, the number of items is the number of products in the cart. */
  lemma {:induction false} DistinctIdsCount(s: seq<Product>)
    ensures DistinctIds(s) ==> |IdsOf(s)| == |s|
  {
    if s != [] && DistinctIds(s) {
      var tail := s[1..];
      DistinctIdsTail(s);
      DistinctIdsCount(tail);
      assert IdsOf(s) == {s[0].id} + IdsOf(tail) by {
        forall x | x in IdsOf(s) ensures x in {s[0].id} + IdsOf(tail) {
          var i :| 0 <= i < |s| && s[i].id == x;
          if i > 0 { assert tail[i - 1] == s[i]; }
        }
        forall x | x in IdsOf(tail) ensures x in IdsOf(s) {
          var i :| 0 <= i < |tail| && tail[i].id == x;
          assert s[i + 1] == tail[i];
        }
      }
    }
  }

  class BasketModel {
    /** The items in the cart, in the order they were added. */
    var items: seq<Product>

    ghost predicate Valid()
      reads this
    {
      DistinctIds(items)
    }

    constructor ()
      ensures items == [] && Valid()
    {
      items := [];
    }

    /** The `items` setter: replaces the list as given, without the duplicate check. */
    method SetItems(data: seq<Product>)
      modifies this
      ensures items == data
      ensures Valid() <==> DistinctIds(data)
    {
      items := data;
    }

    /** The number of items; when the invariant holds, the number of distinct products. */
    function GetCount(): (n: nat)
      reads this
      ensures n == |items|
      ensures Valid() ==> n == |IdsOf(items)|
    {
      DistinctIdsCount(items);
      |items|
    }

    /** The sum of the items' prices, a missing price counting as 0. */
    function GetTotal(): (t: int)
      reads this
      ensures t == SumPrices(items)
    {
      ReduceIsSum(items, 0);
      ReducePrices(items, 0)
    }

    /** Appends `p` unless an item with its id is already in the cart. */
    method AddProduct(p: Product)
      modifies this
      ensures items == Added(old(items), p)
      ensures old(Valid()) ==> Valid()
    {
      ghost var wasValid := Valid();
      if !HasId(items, p.id) {
        items := items + [p];
      }
      if wasValid {
        AddedKeepsDistinct(old(items), p);
      }
    }

    /** Drops every item with `p`'s id, keeping the others in order. */
    method RemoveProduct(p: Product)
      modifies this
      ensures items == WithoutId(old(items), p.id)
      ensures old(Valid()) ==> Valid()
    {
      ghost var wasValid := Valid();
      items := WithoutId(items, p.id);
      if wasValid {
        WithoutIdKeepsDistinct(old(items), p.id);
      }
    }

    /** Empties the cart. */
    method Clear()
      modifies this
      ensures items == [] && Valid()
      ensures GetCount() == 0 && GetTotal() == 0
    {
      items := [];
    }
  }
}
