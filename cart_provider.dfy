/** The cart provider: the in-memory `products` list, the key-value store it
    is loaded from and written back to, and the access check of `useCart`. */
module CartProvider {
  import opened CartState

  /** The one storage slot the cart lives under. */
  const StorageKey: string := "@GoMarketplace:products"

  /** The key-value store, with the stored list held as a value rather than
      as serialised text. */
  type Storage = map<string, seq<Product>>

  datatype Option<T> = None | Some(value: T)

  datatype CartError = NotInitialised(message: string)

  datatype Result<T> = Ok(value: T) | Err(error: CartError)

  /** What a load reads from the store: the stored list, or the empty cart
      when nothing is stored. */
  function Loaded(storage: Storage): (r: seq<Product>)
    ensures StorageKey !in storage ==> r == []
    ensures StorageKey in storage ==> r == storage[StorageKey]
  {
    if StorageKey in storage then storage[StorageKey] else []
  }

  /** The store after the whole list is written to the cart's slot. */
  function Persisted(storage: Storage, products: seq<Product>): (r: Storage)
    ensures Loaded(r) == products
    ensures r.Keys == storage.Keys + {StorageKey}
    ensures forall k :: k in storage && k != StorageKey ==> r[k] == storage[k]
  {
    storage[StorageKey := products]
  }

  /** Writing back what was just loaded from a present slot changes nothing. */
  lemma PersistLoadedIsIdentity(storage: Storage)
    requires StorageKey in storage
    ensures Persisted(storage, Loaded(storage)) == storage
  {
  }

  /** `useCart`: outside a provider there is no cart, and asking for it fails. */
  function UseCart(context: Option<Provider>): (r: Result<Provider>)
    ensures r.Err? <==> context.None?
    ensures r.Err? ==> r.error == NotInitialised("useCart must be used within a CartProvider")
    ensures r.Ok? ==> r.value == context.value
  {
    match context
    case None => Err(NotInitialised("useCart must be used within a CartProvider"))
    case Some(c) => Ok(c)
  }

  class Provider {
    var products: seq<Product>
    var storage: Storage

    /** The slot holds exactly the in-memory list. */
    ghost predicate Synced()
      reads this
    {
      StorageKey in storage && storage[StorageKey] == products
    }

    /** Mounting the provider: the list starts empty; the store is whatever
        the device already holds. */
    constructor (store: Storage)
      ensures products == [] && storage == store
    {
      products := [];
      storage := store;
    }

    /** The effect that runs whenever `products` changes: write the whole
        list to the slot. */
    method UpdateProducts()
      modifies this
      ensures products == old(products)
      ensures storage == Persisted(old(storage), products)
      ensures Synced()
    {
      storage := storage[StorageKey := products];
    }

    /** `setProducts` followed by the persist effect it triggers. */
    method SetProducts(next: seq<Product>)
      modifies this
      ensures products == next
      ensures storage == Persisted(old(storage), next)
      ensures Synced()
    {
      products := next;
      UpdateProducts();
    }

    method LoadProducts()
      modifies this
      ensures products == Loaded(old(storage))
      ensures storage == Persisted(old(storage), products)
      ensures StorageKey in old(storage) ==> storage == old(storage)
      ensures Synced()
    {
      if StorageKey in storage {
        SetProducts(storage[StorageKey]);
        PersistLoadedIsIdentity(old(storage));
        return;
      }
      SetProducts([]);
    }

    method Increment(id: string)
      requires HasId(products, id)
      modifies this
      ensures products == CartState.Increment(old(products), id)
      ensures AdjustedAt(old(products), products, id, 1)
      ensures ValidCart(old(products)) ==> ValidCart(products)
      ensures storage == Persisted(old(storage), products)
      ensures Synced()
    {
      var current := products;
      var indexProduct := FindIndex(current, id);
      var newArray := new Product[|current|](i requires 0 <= i < |current| => current[i]);
      var updated := newArray[indexProduct].(quantity := newArray[indexProduct].quantity + 1);
      newArray[indexProduct] := updated;
      assert newArray[..] == current[indexProduct := updated];
      if ValidCart(current) {
        IncrementPreservesValid(current, id);
      }
      SetProducts(newArray[..]);
    }

    method Decrement(id: string)
      requires HasId(products, id)
      modifies this
      ensures products == CartState.Decrement(old(products), id)
      ensures ValidCart(old(products)) ==> ValidCart(products)
      ensures storage == Persisted(old(storage), products)
      ensures Synced()
    {
      var current := products;
      var indexProduct := FindIndex(current, id);
      var newArray := new Product[|current|](i requires 0 <= i < |current| => current[i]);
      assert newArray[..] == current;
      if ValidCart(current) {
        DecrementPreservesValid(current, id);
      }
      if newArray[indexProduct].quantity == 1 {
        assert CartState.Decrement(current, id) == Without(current, id);
        SetProducts(Without(newArray[..], id));
        return;
      }
      var updated := newArray[indexProduct].(quantity := newArray[indexProduct].quantity - 1);
      assert CartState.Decrement(current, id) == current[indexProduct := updated];
      newArray[indexProduct] := updated;
      assert newArray[..] == current[indexProduct := updated];
      SetProducts(newArray[..]);
    }

    method AddToCart(product: Product)
      modifies this
      ensures products == CartState.AddToCart(old(products), product)
      ensures ValidCart(old(products)) ==> ValidCart(products)
      ensures storage == Persisted(old(storage), products)
      ensures Synced()
    {
      var current := products;
      if ValidCart(current) {
        AddToCartPreservesValid(current, product);
      }
      var productExit := Matching(current, product.id);
      if |productExit| > 0 {
        assert productExit[0] in productExit;
        Increment(productExit[0].id);
        return;
      }
      var newProduct := product.(quantity := 1);
      SetProducts(current + [newProduct]);
    }
  }

  /** A session: mount over an empty store, load, add a product twice, then
      decrement it twice. The cart ends empty and the slot holds the empty list. */
  method AddTwiceRemoveTwice(p: Product) returns (final: seq<Product>, stored: seq<Product>)
    ensures final == [] && stored == []
  {
    var cart := new Provider(map[]);
    cart.LoadProducts();
    cart.AddToCart(p);
    assert cart.products == [p.(quantity := 1)];
    cart.AddToCart(p);
    assert FirstWith([p.(quantity := 1)], p.id, 0);
    assert cart.products[0] == p.(quantity := 2);
    cart.Decrement(p.id);
    assert cart.products == [p.(quantity := 1)];
    cart.Decrement(p.id);
    final, stored := cart.products, cart.storage[StorageKey];
  }
}
