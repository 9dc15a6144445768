/** The store listing page (`/lojas`): the stores of the selected city and
    state, filtered in the browser from the full `/api/stores` list, and how
    each card shows its delivery fee and minimum order. The products page
    runs the same filter. */
module StoreListing {
  import opened Js
  import Api
  import StoresApi

  /** A store as the browser receives it in `/api/stores`; `city` and `state`
      are read as JSON and may be null. Amounts are integer cents. */
  datatype ListedStore = ListedStore(
    id: string, name: string, city: Option<string>, state: Option<string>,
    isOwner: bool, minimumOrder: Option<int>, deliveryFee: Option<int>)

  /** `store.city?.toLowerCase().trim() === cidade.toLowerCase().trim()`
      and `store.state === estado`. */
  predicate Kept(store: ListedStore, city: string, state: string) {
    && store.city.Some?
    && Trim(Lower(store.city.value)) == Trim(Lower(city))
    && store.state == Some(state)
  }

  /** `data.stores?.filter(...) || []`: no list at all gives no stores. */
  function FilterStores(fetched: Option<seq<ListedStore>>, city: string, state: string): (r: seq<ListedStore>)
    ensures fetched.None? ==> r == []
    ensures forall i :: 0 <= i < |r| ==> Kept(r[i], city, state)
  {
    if fetched.None? then [] else Filter((s: ListedStore) => Kept(s, city, state), fetched.value)
  }

  /** A store is listed exactly when its city matches ignoring case and
      surrounding blanks and its state matches exactly; the listing keeps the
      fetched order. */
  lemma FilterStoresExact(fetched: seq<ListedStore>, city: string, state: string)
    ensures forall s :: s in FilterStores(Some(fetched), city, state) <==> s in fetched && Kept(s, city, state)
    ensures IsSubsequence(FilterStores(Some(fetched), city, state), fetched)
  {
    var p := (s: ListedStore) => Kept(s, city, state);
    forall s ensures s in Filter(p, fetched) <==> s in fetched && p(s) {
      FilterMembership(p, fetched, s);
    }
    FilterIsSubsequence(p, fetched);
  }

  /** A store without a city is never listed. */
  lemma NoCityNeverKept(fetched: seq<ListedStore>, city: string, state: string, s: ListedStore)
    requires s.city.None?
    ensures s !in FilterStores(Some(fetched), city, state)
  {
    FilterStoresExact(fetched, city, state);
  }

  /** How the search city is capitalised does not matter. */
  lemma KeptIgnoresSearchCase(store: ListedStore, city: string, state: string)
    ensures Kept(store, Upper(city), state) <==> Kept(store, city, state)
  {
    assert Lower(Upper(city)) == Lower(city) by {
      forall i | 0 <= i < |city| ensures LowerChar(UpperChar(city[i])) == LowerChar(city[i]) {
      }
    }
  }

  /** The stores shown after `fetchStores` ran for the selected location: with
      either part of the location missing nothing is fetched; an answer that
      is not OK, or a request that throws, leaves the shown list as it was. */
  function StoresAfterFetch(city: Option<string>, state: Option<string>, shown: seq<ListedStore>,
                            reply: Reply<Option<seq<ListedStore>>>): (r: seq<ListedStore>)
    ensures !Truthy(city) || !Truthy(state) ==> r == shown
    ensures Truthy(city) && Truthy(state) && reply.Success? ==> r == FilterStores(reply.body, city.value, state.value)
    ensures !reply.Success? ==> r == shown
  {
    if !Truthy(city) || !Truthy(state) then shown
    else match reply
      case Success(fetched) => FilterStores(fetched, city.value, state.value)
      case _ => shown
  }

  /** Whatever the reply, every store shown after a fetch for a location
      belongs to it, provided the list shown before did. */
  lemma ShownStoresMatchLocation(city: string, state: string, shown: seq<ListedStore>,
                                 reply: Reply<Option<seq<ListedStore>>>)
    requires forall i :: 0 <= i < |shown| ==> Kept(shown[i], city, state)
    ensures var r := StoresAfterFetch(Some(city), Some(state), shown, reply);
            forall i :: 0 <= i < |r| ==> Kept(r[i], city, state)
  {
  }

  // ---------------------------------------------------------------- store cards

  /** The text of the delivery-fee line of a card. */
  datatype FeeText = Free | Amount(cents: int)

  /** The delivery-fee line: absent for a null fee, "Grátis" for a fee of
      exactly zero, the amount otherwise. */
  function FeeLine(fee: Option<int>): (r: Option<FeeText>)
    ensures r.None? <==> fee.None?
    ensures r == Some(Free) <==> fee == Some(0)
    ensures r.Some? && r.value.Amount? ==> fee == Some(r.value.cents) && r.value.cents != 0
  {
    match fee
    case None => None
    case Some(x) => if x == 0 then Some(Free) else Some(Amount(x))
  }

  /** The minimum-order line appears only for a truthy amount, so not for
      zero. */
  function MinimumOrderLine(minimumOrder: Option<int>): (r: Option<int>)
    ensures r.Some? <==> minimumOrder.Some? && minimumOrder.value != 0
    ensures r.Some? ==> r == minimumOrder
  {
    NonZeroOrNull(minimumOrder)
  }

  /** How a store row annotated by GET `/api/stores` reaches the browser. */
  function ListedOf(o: StoresApi.OwnedStore): ListedStore {
    ListedStore(o.store.id, o.store.name, Some(o.store.city), Some(o.store.state),
                o.isOwner, o.store.minimumOrder, o.store.deliveryFee)
  }

  /** A store saved through the stores route never has a zero fee (a fee of
      0 is stored as null), so its card never reads "Grátis", whoever looks
      at it; a fee submitted as 0 shows no fee line at all. */
  lemma SavedFeeNeverFree(body: StoresApi.StoreBody, db: seq<StoresApi.Store>, current: Option<StoresApi.Store>,
                          id: string, userId: Api.UserId, caller: Option<Api.UserId>)
    requires StoresApi.StoreErrors(body, db, current) == []
    ensures StoresApi.HasRequiredFields(body)
    ensures var listed := ListedOf(StoresApi.Annotate(StoresApi.BuildStoreRecord(id, userId, body), caller));
            && FeeLine(listed.deliveryFee) != Some(Free)
            && (body.deliveryFee == Some(0) ==> FeeLine(listed.deliveryFee).None?)
  {
    StoresApi.StoreErrorsEmptyIff(body, db, current);
    StoresApi.AcceptedBodyBuildsWellFormedStore(body, db, current, id, userId);
  }
}
