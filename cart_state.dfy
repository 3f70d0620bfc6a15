/** The cart's line items and the three list updates of the cart hook:
    increment, decrement and add-to-cart, each a function of the current
    list, together with the invariants they keep. */
module CartState {

  /** One cart line. `price` is carried along unchanged and never computed on. */
  datatype Product = Product(id: string, title: string, imageUrl: string, price: real, quantity: int)

  /** Some entry of `s` has identifier `id`. */
  predicate HasId(s: seq<Product>, id: string)
  {
    exists j :: 0 <= j < |s| && s[j].id == id
  }

  /** `j` is the first position of `s` whose entry has identifier `id`. */
  predicate FirstWith(s: seq<Product>, id: string, j: int)
  {
    0 <= j < |s| && s[j].id == id && forall i :: 0 <= i < j ==> s[i].id != id
  }

  /** No two entries share an identifier. */
  predicate UniqueIds(s: seq<Product>)
  {
    forall i, j :: 0 <= i < j < |s| ==> s[i].id != s[j].id
  }

  /** Every entry has quantity at least one. */
  predicate PositiveQuantities(s: seq<Product>)
  {
    forall j :: 0 <= j < |s| ==> s[j].quantity >= 1
  }

  /** The cart invariant: unique identifiers and positive quantities. */
  predicate ValidCart(s: seq<Product>)
  {
    UniqueIds(s) && PositiveQuantities(s)
  }

  /** `r` is `s` with the first entry of identifier `id` given its quantity
      plus `delta`; that entry keeps its other fields, and every other
      position is untouched. */
  predicate AdjustedAt(s: seq<Product>, r: seq<Product>, id: string, delta: int)
  {
    |r| == |s| &&
    forall j {:trigger r[j]} :: 0 <= j < |s| ==>
      r[j] == if FirstWith(s, id, j) then s[j].(quantity := s[j].quantity + delta) else s[j]
  }

  /** The list's `findIndex(product => product.id === id)`: the first
      matching position, or -1 when there is none. */
  function FindIndex(s: seq<Product>, id: string): (r: int)
    ensures r == -1 <==> !HasId(s, id)
    ensures r != -1 ==> FirstWith(s, id, r)
  {
    if |s| == 0 then -1
    else if s[0].id == id then 0
    else
      var k := FindIndex(s[1..], id);
      assert forall j :: 0 < j < |s| ==> s[j] == s[1..][j - 1];
      if k == -1 then -1 else k + 1
  }

  /** The list's `filter(product => product.id !== id)`. */
  function Without(s: seq<Product>, id: string): (r: seq<Product>)
    ensures forall x :: x in r <==> x in s && x.id != id
    ensures !HasId(r, id)
    ensures |r| <= |s|
  {
    if |s| == 0 then []
    else if s[0].id != id then [s[0]] + Without(s[1..], id)
    else Without(s[1..], id)
  }

  /** The list's `filter(item => item.id === id)`. */
  function Matching(s: seq<Product>, id: string): (r: seq<Product>)
    ensures forall x :: x in r <==> x in s && x.id == id
    ensures |r| > 0 <==> HasId(s, id)
  {
    if |s| == 0 then []
    else if s[0].id == id then [s[0]] + Matching(s[1..], id)
    else Matching(s[1..], id)
  }

  /** `increment(id)`: the first entry with `id` gets quantity + 1. */
  function Increment(s: seq<Product>, id: string): (r: seq<Product>)
    requires HasId(s, id)
    ensures AdjustedAt(s, r, id, 1)
  {
    var k := FindIndex(s, id);
    s[k := s[k].(quantity := s[k].quantity + 1)]
  }

  /** `decrement(id)`: an entry of quantity 1 is filtered out (with every
      other entry of that id); otherwise its quantity drops by one in place. */
  function Decrement(s: seq<Product>, id: string): (r: seq<Product>)
    requires HasId(s, id)
    ensures forall k {:trigger FirstWith(s, id, k)} :: FirstWith(s, id, k) ==>
      (s[k].quantity == 1 ==> r == Without(s, id) && !HasId(r, id)) &&
      (s[k].quantity != 1 ==> AdjustedAt(s, r, id, -1))
  {
    var k := FindIndex(s, id);
    if s[k].quantity == 1 then Without(s, id)
    else s[k := s[k].(quantity := s[k].quantity - 1)]
  }

  /** `addToCart(product)`: an existing id is incremented and keeps its stored
      fields; a new id is appended with quantity 1, whatever `p.quantity` was. */
  function AddToCart(s: seq<Product>, p: Product): (r: seq<Product>)
    ensures HasId(s, p.id) ==> AdjustedAt(s, r, p.id, 1)
    ensures !HasId(s, p.id) ==>
      |r| == |s| + 1 && r[..|s|] == s && r[|s|] == p.(quantity := 1)
  {
    var existing := Matching(s, p.id);
    if |existing| > 0 then Increment(s, existing[0].id)
    else s + [p.(quantity := 1)]
  }

  /** Total number of units in the cart. The source never totals quantities;
      this is a measure the model uses to state how much each operation changes. */
  function TotalQuantity(s: seq<Product>): (r: int)
  {
    if |s| == 0 then 0 else s[0].quantity + TotalQuantity(s[1..])
  }

  // ----- Filtering keeps the order of what remains -----

  lemma {:induction false} WithoutConcat(a: seq<Product>, b: seq<Product>, id: string)
    ensures Without(a + b, id) == Without(a, id) + Without(b, id)
  {
    if |a| == 0 {
      assert a + b == b;
    } else {
      assert (a + b)[1..] == a[1..] + b;
      WithoutConcat(a[1..], b, id);
    }
  }

  lemma {:induction false} WithoutAbsent(s: seq<Product>, id: string)
    requires !HasId(s, id)
    ensures Without(s, id) == s
  {
    if |s| > 0 {
      assert !HasId(s[1..], id) by {
        forall j | 0 <= j < |s[1..]| ensures s[1..][j].id != id {
          assert s[1..][j] == s[j + 1];
        }
      }
      WithoutAbsent(s[1..], id);
      assert s == [s[0]] + s[1..];
    }
  }

  /** Unique identifiers stay unique in the tail, which lacks the head's id. */
  lemma TailUnique(s: seq<Product>)
    requires UniqueIds(s) && |s| > 0
    ensures UniqueIds(s[1..])
    ensures !HasId(s[1..], s[0].id)
  {
    assert forall j :: 0 <= j < |s| - 1 ==> s[1..][j] == s[j + 1];
  }

  /** With unique identifiers, filtering out the id of position `k` removes
      exactly that position and keeps the rest in order. */
  lemma {:induction false} WithoutUniqueAt(s: seq<Product>, k: int)
    requires UniqueIds(s) && 0 <= k < |s|
    ensures Without(s, s[k].id) == s[..k] + s[k + 1..]
  {
    var t := s[1..];
    TailUnique(s);
    if k == 0 {
      WithoutAbsent(t, s[0].id);
      assert s[..0] + s[1..] == t;
    } else {
      assert t[k - 1] == s[k];
      assert s[0].id != s[k].id;
      WithoutUniqueAt(t, k - 1);
      RemoveAtCons(s, k);
    }
  }

  /** Removing position `k > 0` commutes with taking the head off. */
  lemma RemoveAtCons(s: seq<Product>, k: int)
    requires 0 < k < |s|
    ensures s[..k] + s[k + 1..] == [s[0]] + (s[1..][..k - 1] + s[1..][k..])
  {
    assert s[1..][..k - 1] == s[1..k];
    assert s[1..][k..] == s[k + 1..];
  }

  // ----- The three operations keep the cart invariant -----

  lemma AdjustedKeepsUnique(s: seq<Product>, r: seq<Product>, id: string, delta: int)
    requires AdjustedAt(s, r, id, delta)
    ensures forall j :: 0 <= j < |s| ==> r[j].id == s[j].id
    ensures UniqueIds(r) <==> UniqueIds(s)
  {
    assert forall j :: 0 <= j < |s| ==> r[j].id == s[j].id;
  }

  lemma IncrementPreservesValid(s: seq<Product>, id: string)
    requires ValidCart(s) && HasId(s, id)
    ensures ValidCart(Increment(s, id))
  {
    AdjustedKeepsUnique(s, Increment(s, id), id, 1);
  }

  lemma RemoveAtPreservesValid(s: seq<Product>, k: int)
    requires ValidCart(s) && 0 <= k < |s|
    ensures ValidCart(s[..k] + s[k + 1..])
  {
    var r := s[..k] + s[k + 1..];
    assert forall j :: 0 <= j < |r| ==> r[j] == s[if j < k then j else j + 1];
  }

  lemma DecrementPreservesValid(s: seq<Product>, id: string)
    requires ValidCart(s) && HasId(s, id)
    ensures ValidCart(Decrement(s, id))
  {
    var k := FindIndex(s, id);
    if s[k].quantity == 1 {
      WithoutUniqueAt(s, k);
      RemoveAtPreservesValid(s, k);
    } else {
      AdjustedKeepsUnique(s, Decrement(s, id), id, -1);
    }
  }

  lemma AddToCartPreservesValid(s: seq<Product>, p: Product)
    requires ValidCart(s)
    ensures ValidCart(AddToCart(s, p))
  {
    var r := AddToCart(s, p);
    if HasId(s, p.id) {
      AdjustedKeepsUnique(s, r, p.id, 1);
    } else {
      assert forall j :: 0 <= j < |s| ==> r[j] == r[..|s|][j];
    }
  }

  // ----- How the operations relate to one another -----

  /** Adding a product already in the cart is exactly `increment` of its id:
      no entry is added and the stored fields are not replaced. */
  lemma AddExistingIsIncrement(s: seq<Product>, p: Product)
    requires HasId(s, p.id)
    ensures AddToCart(s, p) == Increment(s, p.id)
    ensures |AddToCart(s, p)| == |s|
    ensures forall j :: 0 <= j < |s| ==>
      var e := AddToCart(s, p)[j];
      e.id == s[j].id && e.title == s[j].title && e.imageUrl == s[j].imageUrl && e.price == s[j].price
  {
    var existing := Matching(s, p.id);
    assert existing[0] in existing;
  }

  /** With unique identifiers, decrementing an entry of quantity 1 removes
      exactly that position. */
  lemma DecrementLastRemoves(s: seq<Product>, id: string, k: int)
    requires UniqueIds(s) && FirstWith(s, id, k) && s[k].quantity == 1
    ensures Decrement(s, id) == s[..k] + s[k + 1..]
  {
    WithoutUniqueAt(s, k);
  }

  /** Incrementing and then decrementing the same id restores the cart. */
  lemma DecrementUndoesIncrement(s: seq<Product>, id: string)
    requires HasId(s, id) && s[FindIndex(s, id)].quantity >= 1
    ensures HasId(Increment(s, id), id)
    ensures Decrement(Increment(s, id), id) == s
  {
    var k := FindIndex(s, id);
    var r := Increment(s, id);
    assert r[k].id == id;
    assert FirstWith(r, id, k);
    var d := Decrement(r, id);
    assert FindIndex(r, id) == k;
    assert |d| == |s|;
    forall j | 0 <= j < |s| ensures d[j] == s[j] {
    }
  }

  // ----- Each operation changes the number of units by exactly one -----

  lemma {:induction false} TotalQuantityAdjusted(s: seq<Product>, r: seq<Product>, id: string, delta: int)
    requires HasId(s, id) && AdjustedAt(s, r, id, delta)
    ensures TotalQuantity(r) == TotalQuantity(s) + delta
  {
    if s[0].id == id {
      assert FirstWith(s, id, 0);
      assert r[1..] == s[1..] by {
        forall j | 0 <= j < |s| - 1 ensures r[1..][j] == s[1..][j] {
          assert !FirstWith(s, id, j + 1);
        }
      }
    } else {
      assert r[0] == s[0];
      assert HasId(s[1..], id) by {
        var j :| 0 <= j < |s| && s[j].id == id;
        assert s[1..][j - 1] == s[j];
      }
      assert AdjustedAt(s[1..], r[1..], id, delta) by {
        forall j | 0 <= j < |s| - 1
          ensures FirstWith(s[1..], id, j) == FirstWith(s, id, j + 1)
        {
          assert forall i :: 0 <= i < j ==> s[1..][i] == s[i + 1];
        }
      }
      TotalQuantityAdjusted(s[1..], r[1..], id, delta);
    }
  }

  lemma {:induction false} TotalQuantityConcat(a: seq<Product>, b: seq<Product>)
    ensures TotalQuantity(a + b) == TotalQuantity(a) + TotalQuantity(b)
  {
    if |a| == 0 {
      assert a + b == b;
    } else {
      assert (a + b)[1..] == a[1..] + b;
      TotalQuantityConcat(a[1..], b);
    }
  }

  lemma {:induction false} TotalQuantityRemoveAt(s: seq<Product>, k: int)
    requires 0 <= k < |s|
    ensures TotalQuantity(s[..k] + s[k + 1..]) == TotalQuantity(s) - s[k].quantity
  {
    if k == 0 {
      assert s[..0] + s[1..] == s[1..];
    } else {
      var t := s[1..];
      TotalQuantityRemoveAt(t, k - 1);
      var rest := t[..k - 1] + t[k..];
      assert s[..k] + s[k + 1..] == [s[0]] + rest;
      assert ([s[0]] + rest)[1..] == rest;
    }
  }

  lemma IncrementAddsOne(s: seq<Product>, id: string)
    requires HasId(s, id)
    ensures TotalQuantity(Increment(s, id)) == TotalQuantity(s) + 1
  {
    TotalQuantityAdjusted(s, Increment(s, id), id, 1);
  }

  lemma DecrementRemovesOne(s: seq<Product>, id: string)
    requires UniqueIds(s) && HasId(s, id)
    ensures TotalQuantity(Decrement(s, id)) == TotalQuantity(s) - 1
  {
    var k := FindIndex(s, id);
    if s[k].quantity == 1 {
      WithoutUniqueAt(s, k);
      TotalQuantityRemoveAt(s, k);
    } else {
      TotalQuantityAdjusted(s, Decrement(s, id), id, -1);
    }
  }

  lemma AddToCartAddsOne(s: seq<Product>, p: Product)
    ensures TotalQuantity(AddToCart(s, p)) == TotalQuantity(s) + 1
  {
    if HasId(s, p.id) {
      TotalQuantityAdjusted(s, AddToCart(s, p), p.id, 1);
    } else {
      var r := AddToCart(s, p);
      assert r == s + [p.(quantity := 1)];
      TotalQuantityConcat(s, [p.(quantity := 1)]);
      assert [p.(quantity := 1)][1..] == [];
    }
  }
}
