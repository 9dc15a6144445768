/** The products page (`/produtos`): where the selected location comes from,
    the stores of that location, the products of those stores gathered one
    store at a time, and who may add a product to the cart. */
module ProductsPage {
  import opened Js
  import opened StoreListing

  /** The selected city and state. */
  datatype Location = Location(city: string, state: string)

  /** The location the page settles on: the `cidade`/`estado` URL parameters
      when both are present, else the saved `selectedCity`/`selectedState`
      when both are present, else whatever was selected before. */
  function SelectLocation(cityParam: Option<string>, stateParam: Option<string>,
                          savedCity: Option<string>, savedState: Option<string>,
                          previous: Option<Location>): (r: Option<Location>)
    ensures Truthy(cityParam) && Truthy(stateParam) ==> r == Some(Location(cityParam.value, stateParam.value))
    ensures !(Truthy(cityParam) && Truthy(stateParam)) && Truthy(savedCity) && Truthy(savedState) ==>
              r == Some(Location(savedCity.value, savedState.value))
    ensures !(Truthy(cityParam) && Truthy(stateParam)) && !(Truthy(savedCity) && Truthy(savedState)) ==>
              r == previous
  {
    if Truthy(cityParam) && Truthy(stateParam) then Some(Location(cityParam.value, stateParam.value))
    else if Truthy(savedCity) && Truthy(savedState) then Some(Location(savedCity.value, savedState.value))
    else previous
  }

  /** A selected location always has a non-empty city and state, when the
      one before it had. */
  lemma SelectedLocationIsComplete(cityParam: Option<string>, stateParam: Option<string>,
                                   savedCity: Option<string>, savedState: Option<string>,
                                   previous: Option<Location>)
    requires previous.Some? ==> previous.value.city != "" && previous.value.state != ""
    ensures var r := SelectLocation(cityParam, stateParam, savedCity, savedState, previous);
            r.Some? ==> r.value.city != "" && r.value.state != ""
  {
  }

  // ---------------------------------------------------------------- products

  /** A product as `/api/products` returns it, with the two fields the page
      adds. Prices are integer cents. */
  datatype Product = Product(id: string, name: string, price: int, available: bool,
                             storeName: string, storeId: string)

  /** `{ ...product, storeName: store.name, storeId: store.id }`. */
  function Tag(p: Product, store: ListedStore): (r: Product)
    ensures r.storeName == store.name && r.storeId == store.id
    ensures r.id == p.id && r.name == p.name && r.price == p.price && r.available == p.available
  {
    p.(storeName := store.name, storeId := store.id)
  }

  function TagAll(ps: seq<Product>, store: ListedStore): (r: seq<Product>)
    ensures |r| == |ps|
    ensures forall i :: 0 <= i < |r| ==> r[i] == Tag(ps[i], store)
  {
    seq(|ps|, i requires 0 <= i < |ps| => Tag(ps[i], store))
  }

  /** One filtered store and how the request for its products ended. */
  datatype StoreFetch = StoreFetch(store: ListedStore, reply: Reply<Option<seq<Product>>>)

  /** What one store adds: its tagged products when its request answered OK
      (none when the answer has no `products`), nothing when it did not or
      threw. */
  function Contribution(f: StoreFetch): seq<Product> {
    match f.reply
    case Success(Some(ps)) => TagAll(ps, f.store)
    case _ => []
  }

  /** The products gathered from the stores, in store order. */
  function Aggregated(fetches: seq<StoreFetch>): seq<Product> {
    if |fetches| == 0 then []
    else
      var n := |fetches| - 1;
      Aggregated(fetches[..n]) + Contribution(fetches[n])
  }

  /** The `for (const store of filteredStores)` loop that pushes each store's
      tagged products onto `allProducts`. */
  method AggregateProducts(fetches: seq<StoreFetch>) returns (allProducts: seq<Product>)
    ensures allProducts == Aggregated(fetches)
  {
    allProducts := [];
    for i := 0 to |fetches|
      invariant allProducts == Aggregated(fetches[..i])
    {
      assert fetches[..i + 1][..i] == fetches[..i];
      var store := fetches[i].store;
      match fetches[i].reply
      case Success(Some(ps)) => {
        allProducts := allProducts + TagAll(ps, store);
      }
      case _ => {
      }
    }
    assert fetches[..|fetches|] == fetches;
  }

  /** Gathering over two runs of stores is gathering over each, one after
      the other. */
  lemma {:induction false} AggregatedAppend(a: seq<StoreFetch>, b: seq<StoreFetch>)
    ensures Aggregated(a + b) == Aggregated(a) + Aggregated(b)
    decreases |b|
  {
    if |b| == 0 {
      AppendEmpty(a, b);
      AppendEmpty(Aggregated(a), Aggregated(b));
    } else {
      var n := |b| - 1;
      AppendPrefix(a, b, n);
      AggregatedAppend(a, b[..n]);
      AppendAssoc(Aggregated(a), Aggregated(b[..n]), Contribution(b[n]));
    }
  }

  /** A store whose request fails contributes nothing, and the stores before
      and after it still contribute theirs. */
  lemma FailedStoreContributesNothing(fetches: seq<StoreFetch>, k: nat)
    requires k < |fetches| && !fetches[k].reply.Success?
    ensures Aggregated(fetches) == Aggregated(fetches[..k]) + Aggregated(fetches[k + 1..])
  {
    var f, rest := fetches[k], fetches[k + 1..];
    SplitAt(fetches, k);
    AggregatedAppend(fetches[..k], [f] + rest);
    AggregatedAppend([f], rest);
    AggregatedSingle(f);
    EmptyAppend(Aggregated([f]), Aggregated(rest));
  }

  lemma AggregatedSingle(f: StoreFetch)
    ensures Aggregated([f]) == Contribution(f)
  {
    assert [f][..0] == [];
  }

  /** Every gathered product is tagged with the name and id of one of the
      stores it was gathered from. */
  lemma {:induction false} AggregatedTagged(fetches: seq<StoreFetch>, p: Product)
    requires p in Aggregated(fetches)
    ensures exists i :: 0 <= i < |fetches| && p.storeId == fetches[i].store.id && p.storeName == fetches[i].store.name
  {
    var n := |fetches| - 1;
    if p in Aggregated(fetches[..n]) {
      AggregatedTagged(fetches[..n], p);
      var i :| 0 <= i < n && p.storeId == fetches[..n][i].store.id && p.storeName == fetches[..n][i].store.name;
      assert fetches[..n][i] == fetches[i];
    } else {
      assert p.storeId == fetches[n].store.id && p.storeName == fetches[n].store.name;
    }
  }

  /** Each shown store paired with the answer to its products request. */
  function FetchesOf(stores: seq<ListedStore>, replyOf: ListedStore -> Reply<Option<seq<Product>>>): (r: seq<StoreFetch>)
    ensures |r| == |stores|
    ensures forall i :: 0 <= i < |r| ==> r[i].store == stores[i] && r[i].reply == replyOf(stores[i])
  {
    seq(|stores|, i requires 0 <= i < |stores| => StoreFetch(stores[i], replyOf(stores[i])))
  }

  /** `fetchData`: with either part of the location missing nothing happens;
      a stores answer that is not OK, or a request that throws, leaves both
      lists as they were; otherwise the filtered stores are shown and the
      products gathered from exactly those stores, in their order, replace
      the product list. `replyOf` stands for each store's products request. */
  method FetchData(city: Option<string>, state: Option<string>,
                   stores: seq<ListedStore>, products: seq<Product>,
                   storesReply: Reply<Option<seq<ListedStore>>>,
                   replyOf: ListedStore -> Reply<Option<seq<Product>>>)
    returns (stores': seq<ListedStore>, products': seq<Product>)
    ensures !Truthy(city) || !Truthy(state) || !storesReply.Success? ==> stores' == stores && products' == products
    ensures Truthy(city) && Truthy(state) && storesReply.Success? ==>
              && stores' == FilterStores(storesReply.body, city.value, state.value)
              && products' == Aggregated(FetchesOf(stores', replyOf))
    ensures stores' == StoresAfterFetch(city, state, stores, storesReply)
  {
    if !Truthy(city) || !Truthy(state) {
      return stores, products;
    }
    if !storesReply.Success? {
      return stores, products;
    }
    stores' := FilterStores(storesReply.body, city.value, state.value);
    products' := AggregateProducts(FetchesOf(stores', replyOf));
  }

  /** Every product shown after a fetch comes from one of the stores shown
      beside it, whose name and id it carries, and that store is in the
      selected city and state. */
  lemma ShownProductsComeFromShownStores(fetched: Option<seq<ListedStore>>, city: string, state: string,
                                         replyOf: ListedStore -> Reply<Option<seq<Product>>>, p: Product)
    requires p in Aggregated(FetchesOf(FilterStores(fetched, city, state), replyOf))
    ensures var shown := FilterStores(fetched, city, state);
            exists i :: 0 <= i < |shown| && p.storeId == shown[i].id && p.storeName == shown[i].name
                                         && Kept(shown[i], city, state)
  {
    var shown := FilterStores(fetched, city, state);
    var fetches := FetchesOf(shown, replyOf);
    AggregatedTagged(fetches, p);
    var i :| 0 <= i < |fetches| && p.storeId == fetches[i].store.id && p.storeName == fetches[i].store.name;
    assert fetches[i].store == shown[i];
  }

  // ---------------------------------------------------------------- ownership

  /** `isOwner(storeId)`: false without a session e-mail; otherwise the
      `isOwner` flag of the first shown store with that id, false when there
      is none. */
  function IsOwner(sessionEmail: Option<string>, stores: seq<ListedStore>, storeId: string): (r: bool)
    ensures !Truthy(sessionEmail) ==> !r
    ensures (forall i :: 0 <= i < |stores| ==> stores[i].id != storeId) ==> !r
    ensures r ==> exists i :: 0 <= i < |stores| && stores[i].id == storeId && stores[i].isOwner
  {
    if !Truthy(sessionEmail) then false
    else match Find((s: ListedStore) => s.id == storeId, stores)
      case Some(s) => s.isOwner
      case None => false
  }

  /** With an e-mail in the session, the first shown store with the id
      decides. */
  lemma IsOwnerOfFirstMatch(sessionEmail: Option<string>, stores: seq<ListedStore>, storeId: string, k: nat)
    requires Truthy(sessionEmail)
    requires k < |stores| && stores[k].id == storeId
    requires forall j :: 0 <= j < k ==> stores[j].id != storeId
    ensures IsOwner(sessionEmail, stores, storeId) == stores[k].isOwner
  {
    FindIsFirst((s: ListedStore) => s.id == storeId, stores, k);
  }

  /** The add-to-cart control of a product card. */
  datatype CartButton = NoButton | AddButton(disabled: bool)

  /** An unavailable product has no button; an available one has a button,
      disabled while its own add is in flight or when the caller owns its
      store. */
  function CartButtonOf(p: Product, addingToCart: Option<string>, owner: bool): (r: CartButton)
    ensures r.NoButton? <==> !p.available
    ensures r.AddButton? ==> (r.disabled <==> addingToCart == Some(p.id) || owner)
  {
    if !p.available then NoButton
    else AddButton(addingToCart == Some(p.id) || owner)
  }

  /** An owner never gets an enabled button for a product of their own
      store. */
  lemma OwnerCannotAdd(sessionEmail: Option<string>, stores: seq<ListedStore>, p: Product, addingToCart: Option<string>)
    requires IsOwner(sessionEmail, stores, p.storeId)
    ensures CartButtonOf(p, addingToCart, IsOwner(sessionEmail, stores, p.storeId)) != AddButton(false)
  {
  }
}
