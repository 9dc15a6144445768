/** The `/api/orders` route: checkout (POST) and the two reads (GET), one
    order by id or a listing. The order table is a sequence in `createdAt`
    descending order, so a new order goes in front; the store table is the
    one `StoresApi` models. */
module OrdersApi {
  import opened Js
  import opened Api
  import opened StoresApi

  /** One element of the `items` array, kept exactly as the client sent it;
      the handler never looks inside. */
  type Item = string

  /** A row of the order table. Amounts are integer cents. */
  datatype Order = Order(
    id: string, userId: UserId, storeId: string, items: seq<Item>,
    subtotal: int, deliveryFee: int, total: int, status: string,
    customerName: Option<string>, customerPhone: Option<string>,
    storeName: string, storePhone: string, paymentMethod: Option<string>,
    needsChange: bool, changeAmount: Option<int>)

  /** A checkout request body. `items` is `None` when it is missing or not an
      array; an amount is `None` when it is missing or not a number. */
  datatype CheckoutBody = CheckoutBody(
    storeId: Option<string>, items: Option<seq<Item>>,
    subtotal: Option<int>, deliveryFee: Option<int>, total: Option<int>,
    customerName: Option<string>, customerPhone: Option<string>,
    paymentMethod: Option<string>, needsChange: Option<bool>, changeAmount: Option<int>)

  /** A row of the cart table, as far as clearing it needs. */
  datatype CartRow = CartRow(id: string, userId: UserId, storeId: string)

  /** The e-mail the store is sent about a new order. */
  datatype Notification = Notification(storeEmail: string, storeName: string, order: Order, customerName: string)

  // ---------------------------------------------------------------- validation

  /** The checkout errors, in the order the handler checks them. */
  datatype CheckoutError = StoreIdRequired | ItemsRequired | InvalidSubtotal | InvalidTotal

  function CheckoutMessage(e: CheckoutError): string {
    match e
    case StoreIdRequired => "ID da loja é obrigatório"
    case ItemsRequired => "Items do pedido são obrigatórios"
    case InvalidSubtotal => "Subtotal inválido"
    case InvalidTotal => "Total inválido"
  }

  function CheckoutMessages(errors: seq<CheckoutError>): (r: seq<string>)
    ensures |r| == |errors|
    ensures forall i :: 0 <= i < |errors| ==> r[i] == CheckoutMessage(errors[i])
  {
    seq(|errors|, i requires 0 <= i < |errors| => CheckoutMessage(errors[i]))
  }

  /** `typeof x !== "number" || x <= 0`. */
  predicate NotPositive(x: Option<int>) {
    x.None? || x.value <= 0
  }

  /** When the handler reports `e`. */
  predicate CheckoutFails(e: CheckoutError, body: CheckoutBody) {
    match e
    case StoreIdRequired => !Truthy(body.storeId)
    case ItemsRequired => body.items.None? || |body.items.value| == 0
    case InvalidSubtotal => NotPositive(body.subtotal)
    case InvalidTotal => NotPositive(body.total)
  }

  /** The errors the checkout checks push, in push order. */
  function CheckoutErrors(body: CheckoutBody): seq<CheckoutError> {
    Flag(CheckoutFails(StoreIdRequired, body), StoreIdRequired)
    + Flag(CheckoutFails(ItemsRequired, body), ItemsRequired)
    + Flag(CheckoutFails(InvalidSubtotal, body), InvalidSubtotal)
    + Flag(CheckoutFails(InvalidTotal, body), InvalidTotal)
  }

  /** The validation as the handler runs it, one push at a time. */
  method ValidateCheckout(body: CheckoutBody) returns (errors: seq<CheckoutError>)
    ensures errors == CheckoutErrors(body)
  {
    errors := Push([], !Truthy(body.storeId), StoreIdRequired);
    errors := Push(errors, body.items.None? || |body.items.value| == 0, ItemsRequired);
    errors := Push(errors, body.subtotal.None? || body.subtotal.value <= 0, InvalidSubtotal);
    errors := Push(errors, body.total.None? || body.total.value <= 0, InvalidTotal);
  }

  /** Each checkout error is reported exactly when its check fails, and the
      errors come in check order, so none twice. */
  lemma CheckoutErrorsExact(body: CheckoutBody)
    ensures forall e :: e in CheckoutErrors(body) <==> CheckoutFails(e, body)
    ensures RanksIncrease(CheckoutErrors(body))
  {
    CheckoutErrorsMembership(body);
    CheckoutErrorsOrdered(body);
  }

  lemma CheckoutErrorsMembership(body: CheckoutBody)
    ensures forall e :: e in CheckoutErrors(body) <==> CheckoutFails(e, body)
  {
    var f1 := Flag(CheckoutFails(StoreIdRequired, body), StoreIdRequired);
    var f2 := Flag(CheckoutFails(ItemsRequired, body), ItemsRequired);
    var f3 := Flag(CheckoutFails(InvalidSubtotal, body), InvalidSubtotal);
    var f4 := Flag(CheckoutFails(InvalidTotal, body), InvalidTotal);
    forall e
      ensures e in CheckoutErrors(body) <==> CheckoutFails(e, body)
    {
      assert e in f1 + f2 + f3 + f4 <==> e in f1 || e in f2 || e in f3 || e in f4;
    }
  }

  lemma CheckoutErrorsOrdered(body: CheckoutBody)
    ensures RanksIncrease(CheckoutErrors(body))
  {
    var p1 := Flag(CheckoutFails(StoreIdRequired, body), StoreIdRequired);
    var p2 := p1 + Flag(CheckoutFails(ItemsRequired, body), ItemsRequired);
    var p3 := p2 + Flag(CheckoutFails(InvalidSubtotal, body), InvalidSubtotal);
    var p4 := p3 + Flag(CheckoutFails(InvalidTotal, body), InvalidTotal);
    assert RanksIncrease(p1) && RanksBelow(p1, 1) by {
      CheckoutPushKeepsOrder([], CheckoutFails(StoreIdRequired, body), StoreIdRequired);
      EmptyAppend([], p1);
    }
    assert RanksIncrease(p2) && RanksBelow(p2, 2) by {
      CheckoutPushKeepsOrder(p1, CheckoutFails(ItemsRequired, body), ItemsRequired);
    }
    assert RanksIncrease(p3) && RanksBelow(p3, 3) by {
      CheckoutPushKeepsOrder(p2, CheckoutFails(InvalidSubtotal, body), InvalidSubtotal);
    }
    assert RanksIncrease(p4) by {
      CheckoutPushKeepsOrder(p3, CheckoutFails(InvalidTotal, body), InvalidTotal);
    }
  }

  /** The position of each check in the handler. */
  function CheckoutRank(e: CheckoutError): nat {
    match e
    case StoreIdRequired => 0
    case ItemsRequired => 1
    case InvalidSubtotal => 2
    case InvalidTotal => 3
  }

  /** The errors come in check order, so none twice. */
  predicate RanksIncrease(errors: seq<CheckoutError>) {
    forall i, j :: 0 <= i < j < |errors| ==> CheckoutRank(errors[i]) < CheckoutRank(errors[j])
  }

  /** Every error comes from a check before the `n`-th. */
  predicate RanksBelow(errors: seq<CheckoutError>, n: nat) {
    forall i :: 0 <= i < |errors| ==> CheckoutRank(errors[i]) < n
  }

  /** Pushing the error of a later check keeps the errors in check order. */
  lemma CheckoutPushKeepsOrder(errors: seq<CheckoutError>, failed: bool, e: CheckoutError)
    requires RanksBelow(errors, CheckoutRank(e)) && RanksIncrease(errors)
    ensures RanksBelow(errors + Flag(failed, e), CheckoutRank(e) + 1)
    ensures RanksIncrease(errors + Flag(failed, e))
  {
    var r := errors + Flag(failed, e);
    forall i, j | 0 <= i < j < |r| ensures CheckoutRank(r[i]) < CheckoutRank(r[j]) {
      if j < |errors| {
        assert r[i] == errors[i] && r[j] == errors[j];
      } else {
        assert r[i] == errors[i] && r[j] == e;
      }
    }
  }

  /** The body passes validation, stated check by check. */
  predicate CheckoutAcceptable(body: CheckoutBody) {
    && Truthy(body.storeId)
    && body.items.Some? && |body.items.value| > 0
    && body.subtotal.Some? && body.subtotal.value > 0
    && body.total.Some? && body.total.value > 0
  }

  /** No error is reported exactly when every check passes. */
  lemma CheckoutErrorsEmptyIff(body: CheckoutBody)
    ensures CheckoutErrors(body) == [] <==> CheckoutAcceptable(body)
  {
    CheckoutErrorsExact(body);
    var errors := CheckoutErrors(body);
    if errors == [] {
      assert StoreIdRequired !in errors && ItemsRequired !in errors;
      assert InvalidSubtotal !in errors && InvalidTotal !in errors;
    } else {
      assert CheckoutFails(errors[0], body);
    }
  }

  /** The handler does not relate `total` to `subtotal` and `deliveryFee`:
      any positive amounts pass, whatever the fee. */
  lemma TotalIsNotChecked(body: CheckoutBody)
    requires Truthy(body.storeId) && body.items.Some? && |body.items.value| > 0
    requires body.subtotal.Some? && body.subtotal.value > 0
    requires body.total.Some? && body.total.value > 0
    ensures CheckoutErrors(body) == []
  {
    CheckoutErrorsEmptyIff(body);
  }

  /** A concrete body whose total is not subtotal plus fee, and which passes. */
  lemma InconsistentTotalAccepted()
    ensures var body := CheckoutBody(Some("s1"), Some(["item"]), Some(1000), Some(500), Some(1),
                                     None, None, None, None, None);
      && body.total.value != body.subtotal.value + body.deliveryFee.value
      && CheckoutErrors(body) == []
  {
    var body := CheckoutBody(Some("s1"), Some(["item"]), Some(1000), Some(500), Some(1),
                             None, None, None, None, None);
    TotalIsNotChecked(body);
  }

  // ---------------------------------------------------------------- the record

  /** `prisma.store.findUnique({ where: { id } })`. */
  function StoreById(stores: seq<Store>, id: string): (r: Option<Store>)
    ensures r.Some? ==> r.value in stores && r.value.id == id
    ensures r.None? ==> forall i :: 0 <= i < |stores| ==> stores[i].id != id
  {
    match IndexOfId(stores, id)
    case Some(k) => Some(stores[k])
    case None => None
  }

  /** The fields the record construction reads after validation. */
  predicate HasCheckoutFields(body: CheckoutBody) {
    body.storeId.Some? && body.items.Some? && body.subtotal.Some? && body.total.Some?
  }

  /** The created order: pending, owned by the caller, with the store's name
      and phone, a missing fee as 0, and a change amount only when change is
      needed. */
  function BuildOrder(id: string, userId: UserId, sessionName: Option<string>, body: CheckoutBody, store: Store): (r: Order)
    requires HasCheckoutFields(body)
    ensures r.id == id && r.userId == userId && r.status == "pending"
    ensures r.storeId == body.storeId.value && r.items == body.items.value
    ensures r.subtotal == body.subtotal.value && r.total == body.total.value
    ensures r.storeName == store.name && r.storePhone == store.phone
    ensures body.deliveryFee.None? ==> r.deliveryFee == 0
    ensures body.deliveryFee.Some? ==> r.deliveryFee == body.deliveryFee.value
    ensures r.needsChange <==> body.needsChange == Some(true)
    ensures r.changeAmount.Some? ==> r.needsChange && r.changeAmount == body.changeAmount
    ensures Truthy(body.customerName) ==> r.customerName == body.customerName
    ensures !Truthy(body.customerName) ==> r.customerName == sessionName
    ensures Truthy(body.customerPhone) <==> r.customerPhone.Some?
    ensures r.customerPhone.Some? ==> r.customerPhone == body.customerPhone
  {
    var needsChange := body.needsChange.GetOr(false);
    Order(
      id, userId, body.storeId.value, body.items.value,
      body.subtotal.value, body.deliveryFee.GetOr(0), body.total.value, "pending",
      OrElse(body.customerName, sessionName), OrElse(body.customerPhone, None),
      store.name, store.phone, body.paymentMethod,
      needsChange, if needsChange then body.changeAmount else None)
  }

  /** `customerName || session.user.name || "Cliente"`. */
  function GreetingName(customerName: Option<string>, sessionName: Option<string>): (r: string)
    ensures r != ""
    ensures Truthy(customerName) ==> r == customerName.value
    ensures !Truthy(customerName) && Truthy(sessionName) ==> r == sessionName.value
  {
    var n := OrElse(customerName, sessionName);
    if Truthy(n) then n.value else "Cliente"
  }

  /** The cart rows left after `deleteMany({ where: { userId, storeId } })`. */
  function ClearCart(carts: seq<CartRow>, userId: UserId, storeId: string): seq<CartRow> {
    Filter((c: CartRow) => !(c.userId == userId && c.storeId == storeId), carts)
  }

  /** Clearing removes the caller's rows for that store and keeps every other
      row, in order. */
  lemma ClearCartExact(carts: seq<CartRow>, userId: UserId, storeId: string)
    ensures forall c :: c in ClearCart(carts, userId, storeId) <==> c in carts && !(c.userId == userId && c.storeId == storeId)
    ensures IsSubsequence(ClearCart(carts, userId, storeId), carts)
  {
    var p := (c: CartRow) => !(c.userId == userId && c.storeId == storeId);
    forall c ensures c in Filter(p, carts) <==> c in carts && p(c) {
      FilterMembership(p, carts, c);
    }
    FilterIsSubsequence(p, carts);
  }

  // ---------------------------------------------------------------- POST

  /** What the handler writes and sends after a successful create: the
      notification goes out only when the store has an e-mail address and the
      transport does not fail; the cart is cleared unless that fails. */
  method SideEffects(carts: seq<CartRow>, store: Store, order: Order, customerName: Option<string>,
                     sessionName: Option<string>, emailFails: bool, cartFails: bool)
    returns (carts': seq<CartRow>, sent: seq<Notification>)
    ensures sent == if store.email != "" && !emailFails
                    then [Notification(store.email, store.name, order, GreetingName(customerName, sessionName))]
                    else []
    ensures carts' == if cartFails then carts else ClearCart(carts, order.userId, order.storeId)
  {
    sent := [];
    if store.email != "" {
      if !emailFails {
        sent := [Notification(store.email, store.name, order, GreetingName(customerName, sessionName))];
      }
    }
    carts' := carts;
    if !cartFails {
      carts' := ClearCart(carts, order.userId, order.storeId);
    }
  }

  /** POST: 401 without a caller, 400 with the validation errors, 404 for an
      unknown store, 500 when the insert fails; otherwise 201 with the new
      order in front of the table, whatever happens to the e-mail and the
      cart clearing afterwards. */
  method Post(stores: seq<Store>, orders: seq<Order>, carts: seq<CartRow>,
              caller: Option<UserId>, sessionName: Option<string>, body: CheckoutBody,
              newId: string, createFails: bool, emailFails: bool, cartFails: bool)
    returns (resp: Response<Order>, orders': seq<Order>, carts': seq<CartRow>, sent: seq<Notification>)
    ensures !Truthy(caller) ==> resp == Unauthorized
    ensures Truthy(caller) && CheckoutErrors(body) != [] ==>
              resp == BadRequest(CheckoutMessages(CheckoutErrors(body)))
    ensures Truthy(caller) && CheckoutErrors(body) == [] ==>
              HasCheckoutFields(body) &&
              (StoreById(stores, body.storeId.value).None? ==> resp == NotFound)
    ensures resp.Created? <==>
              Truthy(caller) && CheckoutErrors(body) == [] && StoreById(stores, body.storeId.value).Some? && !createFails
    ensures Truthy(caller) && CheckoutErrors(body) == [] && StoreById(stores, body.storeId.value).Some? && createFails ==>
              resp == ServerError
    ensures resp.Created? ==>
              var store := StoreById(stores, body.storeId.value).value;
              && resp.body == BuildOrder(newId, caller.value, sessionName, body, store)
              && orders' == [resp.body] + orders
              && carts' == (if cartFails then carts else ClearCart(carts, caller.value, body.storeId.value))
              && sent == (if store.email != "" && !emailFails
                          then [Notification(store.email, store.name, resp.body, GreetingName(body.customerName, sessionName))]
                          else [])
    ensures !resp.Created? ==> orders' == orders && carts' == carts && sent == []
  {
    if !Truthy(caller) {
      return Unauthorized, orders, carts, [];
    }
    var errors := ValidateCheckout(body);
    if |errors| > 0 {
      return BadRequest(CheckoutMessages(errors)), orders, carts, [];
    }
    CheckoutErrorsEmptyIff(body);
    var store := StoreById(stores, body.storeId.value);
    if store.None? {
      return NotFound, orders, carts, [];
    }
    if createFails {
      return ServerError, orders, carts, [];
    }
    var order := BuildOrder(newId, caller.value, sessionName, body, store.value);
    orders' := [order] + orders;
    carts', sent := SideEffects(carts, store.value, order, body.customerName, sessionName, emailFails, cartFails);
    resp := Created(order);
  }

  // ---------------------------------------------------------------- GET

  /** The reply bodies of GET: `{ order }` or `{ orders }`. */
  datatype OrdersReply = Single(order: Order) | Listing(orders: seq<Order>)

  /** `prisma.order.findUnique({ where: { id } })`. */
  function OrderById(orders: seq<Order>, id: string): (r: Option<Order>)
    ensures r.Some? ==> r.value in orders && r.value.id == id
    ensures r.None? ==> forall i :: 0 <= i < |orders| ==> orders[i].id != id
  {
    Find((o: Order) => o.id == id, orders)
  }

  /** Whether `caller` owns the store with id `storeId`. */
  predicate OwnsStore(stores: seq<Store>, caller: UserId, storeId: string) {
    StoreById(stores, storeId).Some? && StoreById(stores, storeId).value.userId == caller
  }

  /** Who may read an order: its customer or the owner of its store. */
  predicate MaySeeOrder(stores: seq<Store>, caller: UserId, order: Order) {
    order.userId == caller || OwnsStore(stores, caller, order.storeId)
  }

  /** The `where` object of `findMany`: each present field must match. */
  datatype OrderWhere = OrderWhere(userId: Option<UserId>, storeId: Option<string>)

  predicate Matches(where: OrderWhere, o: Order) {
    && (where.userId.Some? ==> o.userId == where.userId.value)
    && (where.storeId.Some? ==> o.storeId == where.storeId.value)
  }

  function FindMany(orders: seq<Order>, where: OrderWhere): (r: seq<Order>)
    ensures forall i :: 0 <= i < |r| ==> Matches(where, r[i])
  {
    Filter((o: Order) => Matches(where, o), orders)
  }

  /** GET: 401 without a caller. With an `orderId`, that order: 404 when it
      does not exist, 403 unless the caller may see it. Otherwise a listing:
      with `asStore=true` and a `storeId`, that store's orders, 403 unless the
      caller owns it; else the caller's own orders, of the given store only
      when a `storeId` is given. A query that throws (`queryFails`) answers
      500. */
  method Get(orders: seq<Order>, stores: seq<Store>, caller: Option<UserId>,
             storeId: Option<string>, asStore: Option<string>, orderId: Option<string>, queryFails: bool)
    returns (resp: Response<OrdersReply>)
    ensures !Truthy(caller) ==> resp == Unauthorized
    ensures Truthy(caller) && queryFails ==> resp == ServerError
    ensures Truthy(caller) && !queryFails && Truthy(orderId) ==>
              var found := OrderById(orders, orderId.value);
              && (found.None? ==> resp == NotFound)
              && (found.Some? && MaySeeOrder(stores, caller.value, found.value) ==> resp == Ok(Single(found.value)))
              && (found.Some? && !MaySeeOrder(stores, caller.value, found.value) ==> resp == Forbidden)
    ensures Truthy(caller) && !queryFails && !Truthy(orderId) && asStore == Some("true") && Truthy(storeId) ==>
              && (OwnsStore(stores, caller.value, storeId.value) ==>
                    resp == Ok(Listing(FindMany(orders, OrderWhere(None, storeId)))))
              && (!OwnsStore(stores, caller.value, storeId.value) ==> resp == Forbidden)
    ensures Truthy(caller) && !queryFails && !Truthy(orderId) && !(asStore == Some("true") && Truthy(storeId)) ==>
              resp == Ok(Listing(FindMany(orders, OrderWhere(caller, if Truthy(storeId) then storeId else None))))
  {
    if !Truthy(caller) {
      return Unauthorized;
    }
    if queryFails {
      return ServerError;
    }
    var me := caller.value;
    if Truthy(orderId) {
      var order := OrderById(orders, orderId.value);
      if order.None? {
        return NotFound;
      }
      if order.value.userId != me {
        var store := StoreById(stores, order.value.storeId);
        if store.None? || store.value.userId != me {
          return Forbidden;
        }
      }
      return Ok(Single(order.value));
    }
    var listed: seq<Order>;
    if asStore == Some("true") && Truthy(storeId) {
      var store := StoreById(stores, storeId.value);
      if store.None? || store.value.userId != me {
        return Forbidden;
      }
      listed := FindMany(orders, OrderWhere(None, storeId));
    } else {
      var where := OrderWhere(Some(me), None);
      if Truthy(storeId) {
        where := where.(storeId := storeId);
      }
      listed := FindMany(orders, where);
    }
    resp := Ok(Listing(listed));
  }

  /** A listing returns exactly the matching orders, in table order. */
  lemma FindManyExact(orders: seq<Order>, where: OrderWhere)
    ensures forall o :: o in FindMany(orders, where) <==> o in orders && Matches(where, o)
    ensures IsSubsequence(FindMany(orders, where), orders)
  {
    var p := (o: Order) => Matches(where, o);
    forall o ensures o in Filter(p, orders) <==> o in orders && p(o) {
      FilterMembership(p, orders, o);
    }
    FilterIsSubsequence(p, orders);
  }

  /** A customer listing holds only the caller's orders, and only those of
      the requested store when one is given. */
  lemma CustomerListingIsOwn(orders: seq<Order>, caller: UserId, storeId: Option<string>)
    ensures var listed := FindMany(orders, OrderWhere(Some(caller), if Truthy(storeId) then storeId else None));
      forall i :: 0 <= i < |listed| ==>
        listed[i].userId == caller && (Truthy(storeId) ==> listed[i].storeId == storeId.value)
  {
  }

  /** The order a checkout creates is readable by its customer and by the
      owner of its store, and by nobody else. */
  lemma CreatedOrderReaders(stores: seq<Store>, caller: UserId, sessionName: Option<string>,
                            body: CheckoutBody, id: string, store: Store, reader: UserId)
    requires HasCheckoutFields(body) && StoreById(stores, body.storeId.value) == Some(store)
    ensures MaySeeOrder(stores, reader, BuildOrder(id, caller, sessionName, body, store)) <==>
              reader == caller || reader == store.userId
  {
  }
}
