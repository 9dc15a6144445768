/** The customer's cart page: how a stored state value is displayed, the
    subtotal computed in the browser, and how the page's `cart`, `errors` and
    `updating` state react to the cart endpoints' replies. Amounts are integer
    cents. */
module CartPage {
  import opened Js
  import StateCodes

  // ---------------------------------------------------------------- state display

  /** `getStateDisplay`: a two-character non-numeric value is taken to be a UF
      already and is upper-cased; otherwise an IBGE code is translated through
      the page's code-to-UF table, and anything else is shown as it is. */
  function StateDisplay(state: string): string {
    if |state| == 2 && !IsNumericText(state) then Upper(state)
    else
      var table := StateCodes.CartCodeToUf();
      if state in table && table[state] != "" then table[state] else state
  }

  /** The three outcomes of `getStateDisplay`: a typed UF is upper-cased, a
      code of the table becomes its UF, and any other value is kept. */
  lemma StateDisplaySpec(state: string)
    ensures |state| == 2 && !IsNumericText(state) ==> StateDisplay(state) == Upper(state)
    ensures !(|state| == 2 && !IsNumericText(state)) && state in StateCodes.CartCodeToUf() ==>
              StateDisplay(state) == StateCodes.CartCodeToUf()[state]
    ensures !(|state| == 2 && !IsNumericText(state)) && state !in StateCodes.CartCodeToUf() ==>
              StateDisplay(state) == state
  {
    if state in StateCodes.CartCodeToUf() {
      CartValuesAreUfs(state);
    }
  }

  /** Every UF value of the table is two upper-case letters. */
  lemma CartValuesAreUfs(code: string)
    requires code in StateCodes.CartCodeToUf()
    ensures var uf := StateCodes.CartCodeToUf()[code];
            |uf| == 2 && 'A' <= uf[0] <= 'Z' && 'A' <= uf[1] <= 'Z'
  {
    var e := StateCodes.CartCodeEntries;
    var i := CartCodeIndex(code);
    StateCodes.CartTableIsPanelInverse();
    StateCodes.UfCodesDistinct();
    StateCodes.FromEntriesLookup(e, i);
    CartEntryIsUf(i);
  }

  lemma CartCodeIndex(code: string) returns (i: nat)
    requires code in StateCodes.CartCodeToUf()
    ensures i < |StateCodes.CartCodeEntries| && StateCodes.CartCodeEntries[i].0 == code
  {
    i :| 0 <= i < |StateCodes.CartCodeEntries| && StateCodes.CartCodeEntries[i].0 == code;
  }

  lemma CartEntryIsUf(i: nat)
    requires i < |StateCodes.CartCodeEntries|
    ensures var uf := StateCodes.CartCodeEntries[i].1;
            |uf| == 2 && 'A' <= uf[0] <= 'Z' && 'A' <= uf[1] <= 'Z'
  {
  }

  /** Each IBGE code is displayed as its UF, as the profile panel's
      `ufToStateCode` pairs them. */
  lemma StateDisplayOfCode(uf: string)
    requires uf in StateCodes.UfToStateCode()
    ensures StateDisplay(StateCodes.UfToStateCode()[uf]) == uf
  {
    var code := StateCodes.UfToStateCode()[uf];
    StateCodes.CodeOfUfRoundTrip(uf);
    StateCodes.CartTableIsPanelInverse();
    var e := StateCodes.UfCodeEntries;
    var i :| 0 <= i < |e| && e[i].0 == uf;
    StateCodes.UfCodesDistinct();
    StateCodes.FromEntriesLookup(e, i);
    CodeIsNumeric(i);
    StateDisplaySpec(code);
  }

  lemma CodeIsNumeric(i: nat)
    requires i < |StateCodes.UfCodeEntries|
    ensures IsNumericText(StateCodes.UfCodeEntries[i].1)
  {
    var code := StateCodes.UfCodeEntries[i].1;
    CodeDigits(i);
    TwoDigitsNumeric(code);
  }

  lemma CodeDigits(i: nat)
    requires i < |StateCodes.UfCodeEntries|
    ensures var code := StateCodes.UfCodeEntries[i].1;
            |code| == 2 && IsDigit(code[0]) && IsDigit(code[1])
  {
  }

  lemma TwoDigitsNumeric(code: string)
    requires |code| == 2 && IsDigit(code[0]) && IsDigit(code[1])
    ensures IsNumericText(code)
  {
    TrimNoWhitespace(code);
    assert SignedDecimal(code) by {
      assert IsDigit(code[0]);
    }
  }

  /** Displaying a displayed value changes nothing. */
  lemma StateDisplayIdempotent(state: string)
    ensures StateDisplay(StateDisplay(state)) == StateDisplay(state)
  {
    if |state| == 2 && !IsNumericText(state) {
      UpperStaysNonNumeric(state);
      UpperIdempotent(state);
      TypedUfDisplaysAsItself(Upper(state));
    } else if state in StateCodes.CartCodeToUf() {
      var uf := StateCodes.CartCodeToUf()[state];
      CartValuesAreUfs(state);
      UpperOfUf(uf);
      TypedUfDisplaysAsItself(uf);
    }
  }

  lemma UpperOfUf(uf: string)
    requires |uf| == 2 && 'A' <= uf[0] <= 'Z' && 'A' <= uf[1] <= 'Z'
    ensures Upper(uf) == uf
  {
  }

  /** A non-numeric two-character value that is already upper case is
      displayed as it is. */
  lemma TypedUfDisplaysAsItself(uf: string)
    requires |uf| == 2 && Upper(uf) == uf
    requires !IsNumericText(uf) || ('A' <= uf[0] <= 'Z' && 'A' <= uf[1] <= 'Z')
    ensures StateDisplay(uf) == uf
  {
    if IsNumericText(uf) {
      UfIsNotNumeric(uf);
    }
  }

  lemma UfIsNotNumeric(uf: string)
    requires |uf| == 2 && 'A' <= uf[0] <= 'Z'
    ensures !IsNumericText(uf)
  {
    if IsNumericText(uf) {
      NumericHasNoLetters(uf, 0);
    }
  }

  lemma UpperStaysNonNumeric(s: string)
    requires !IsNumericText(s)
    ensures !IsNumericText(Upper(s))
  {
    if exists i :: 0 <= i < |s| && IsAsciiLetter(s[i]) {
      var i :| 0 <= i < |s| && IsAsciiLetter(s[i]);
      if IsNumericText(Upper(s)) {
        NumericHasNoLetters(Upper(s), i);
      }
    } else {
      UpperKeepsNonLetters(s);
    }
  }

  // ---------------------------------------------------------------- totals

  datatype Product = Product(name: string, price: int)
  datatype CartItem = CartItem(id: string, quantity: int, product: Product)
  /** The cart as `/api/cart` returns it; `items` may be missing. */
  datatype Cart = Cart(items: Option<seq<CartItem>>)

  /** Sum of price times quantity over the lines (the `reduce`). */
  function Subtotal(items: seq<CartItem>): int {
    if items == [] then 0
    else items[0].product.price * items[0].quantity + Subtotal(items[1..])
  }

  /** `calculateTotal`: 0 when there is no cart or no item list. */
  function CalculateTotal(cart: Option<Cart>): int {
    if cart.None? || cart.value.items.None? then 0 else Subtotal(cart.value.items.value)
  }

  lemma {:induction false} SubtotalAppend(a: seq<CartItem>, b: seq<CartItem>)
    ensures Subtotal(a + b) == Subtotal(a) + Subtotal(b)
  {
    if a == [] {
      assert a + b == b;
    } else {
      assert (a + b)[0] == a[0] && (a + b)[1..] == a[1..] + b;
      SubtotalAppend(a[1..], b);
    }
  }

  /** Changing one line's quantity moves the total by that line's price times
      the change, and by nothing else. */
  lemma {:induction false} SubtotalAfterQuantityChange(items: seq<CartItem>, k: nat, q: int)
    requires k < |items|
    ensures Subtotal(items[k := items[k].(quantity := q)])
            == Subtotal(items) + items[k].product.price * (q - items[k].quantity)
  {
    if k > 0 {
      assert items[k := items[k].(quantity := q)][1..] == items[1..][k - 1 := items[k].(quantity := q)];
      SubtotalAfterQuantityChange(items[1..], k - 1, q);
    } else {
      assert items[0 := items[0].(quantity := q)][1..] == items[1..];
    }
  }

  /** With non-negative prices and quantities of at least one the total is
      non-negative. */
  lemma {:induction false} SubtotalNonNegative(items: seq<CartItem>)
    requires forall i :: 0 <= i < |items| ==> items[i].product.price >= 0 && items[i].quantity >= 1
    ensures Subtotal(items) >= 0
  {
    if items != [] {
      SubtotalNonNegative(items[1..]);
    }
  }

  /** The order summary: the subtotal line and the total line. */
  datatype Summary = Summary(subtotal: int, total: int)

  /** The summary shows `calculateTotal()` on both lines: the page adds no
      delivery fee of its own. */
  function OrderSummary(cart: Cart): (s: Summary)
    ensures s.subtotal == s.total
    ensures cart.items.Some? ==> s.total == Subtotal(cart.items.value)
    ensures cart.items.None? ==> s.total == 0
  {
    Summary(CalculateTotal(Some(cart)), CalculateTotal(Some(cart)))
  }

  // ---------------------------------------------------------------- page state

  /** The requests the page sends, recorded in order. */
  datatype Request = GetCart | PutItem(itemId: string, quantity: int) | DeleteItem(itemId: string) | DeleteCart

  /** The message a failed request leaves in `errors`. */
  function FailureMessage<T>(reply: Reply<T>, fallback: string): (m: string)
    requires !reply.Success?
    ensures reply.Rejected? && Truthy(reply.error) ==> m == reply.error.value
    ensures reply.Rejected? && !Truthy(reply.error) ==> m == fallback
    ensures reply.Threw? ==> m == "Erro interno do servidor"
  {
    if reply.Threw? then "Erro interno do servidor"
    else if Truthy(reply.error) then reply.error.value
    else fallback
  }

  class CartPageState {
    var cart: Option<Cart>
    var loading: bool
    var updating: bool
    var successMessage: string
    var errors: seq<string>
    /** Requests sent so far. */
    var sent: seq<Request>

    constructor ()
      ensures cart.None? && loading && !updating && errors == [] && sent == []
    {
      cart := None;
      loading := true;
      updating := false;
      successMessage := "";
      errors := [];
      sent := [];
    }

    /** The empty view shows iff there is no cart, no item list or no item. */
    predicate ShowsEmptyView()
      reads this
    {
      cart.None? || cart.value.items.None? || cart.value.items.value == []
    }

    /** The decrement control of a line. */
    predicate DecrementDisabled(item: CartItem)
      reads this
    {
      updating || item.quantity <= 1
    }

    /** `fetchCart`. */
    method FetchCart(reply: Reply<Option<Cart>>)
      modifies this
      ensures sent == old(sent) + [GetCart] && !loading && updating == old(updating)
      ensures reply.Success? ==> cart == reply.body && errors == old(errors)
      ensures reply.Rejected? ==> cart == old(cart) && errors == old(errors)
      ensures reply.Threw? ==> cart == old(cart) && errors == ["Erro ao carregar carrinho"]
      ensures successMessage == old(successMessage)
    {
      loading := true;
      sent := sent + [GetCart];
      if reply.Success? {
        cart := reply.body;
      } else if reply.Threw? {
        errors := ["Erro ao carregar carrinho"];
      }
      loading := false;
    }

    /** `updateQuantity`: below one nothing happens at all; otherwise a PUT is
        sent and only a successful reply replaces the cart. */
    method UpdateQuantity(itemId: string, newQuantity: int, reply: Reply<Option<Cart>>)
      modifies this
      ensures newQuantity < 1 ==>
                cart == old(cart) && errors == old(errors) && sent == old(sent)
                && updating == old(updating) && successMessage == old(successMessage)
      ensures newQuantity >= 1 ==> sent == old(sent) + [PutItem(itemId, newQuantity)] && !updating
      ensures newQuantity >= 1 && reply.Success? ==>
                cart == reply.body && errors == old(errors) && successMessage == "Quantidade atualizada!"
      ensures newQuantity >= 1 && !reply.Success? ==>
                && cart == old(cart) && errors == [FailureMessage(reply, "Erro ao atualizar quantidade")]
                && successMessage == old(successMessage)
      ensures loading == old(loading)
    {
      if newQuantity < 1 {
        return;
      }
      updating := true;
      sent := sent + [PutItem(itemId, newQuantity)];
      if reply.Success? {
        cart := reply.body;
        successMessage := "Quantidade atualizada!";
      } else {
        errors := [FailureMessage(reply, "Erro ao atualizar quantidade")];
      }
      updating := false;
    }

    /** `removeItem`, after the user answered the confirmation dialog. */
    method RemoveItem(itemId: string, confirmed: bool, reply: Reply<Option<Cart>>)
      modifies this
      ensures !confirmed ==>
                && cart == old(cart) && errors == old(errors) && sent == old(sent) && updating == old(updating)
                && successMessage == old(successMessage)
      ensures confirmed ==> sent == old(sent) + [DeleteItem(itemId)] && !updating
      ensures confirmed && reply.Success? ==>
                cart == reply.body && errors == old(errors) && successMessage == "Item removido do carrinho!"
      ensures confirmed && !reply.Success? ==>
                && cart == old(cart) && errors == [FailureMessage(reply, "Erro ao remover item")]
                && successMessage == old(successMessage)
      ensures loading == old(loading)
    {
      if !confirmed {
        return;
      }
      updating := true;
      sent := sent + [DeleteItem(itemId)];
      if reply.Success? {
        cart := reply.body;
        successMessage := "Item removido do carrinho!";
      } else {
        errors := [FailureMessage(reply, "Erro ao remover item")];
      }
      updating := false;
    }

    /** `clearCart`: a successful clear drops the cart, so the empty view
        shows; a failed one keeps it. */
    method ClearCart(confirmed: bool, reply: Reply<()>)
      modifies this
      ensures !confirmed ==>
                && cart == old(cart) && errors == old(errors) && sent == old(sent) && updating == old(updating)
                && successMessage == old(successMessage)
      ensures confirmed ==> sent == old(sent) + [DeleteCart] && !updating
      ensures confirmed && reply.Success? ==>
                cart.None? && ShowsEmptyView() && errors == old(errors) && successMessage == "Carrinho limpo!"
      ensures confirmed && !reply.Success? ==>
                && cart == old(cart) && errors == [FailureMessage(reply, "Erro ao limpar carrinho")]
                && successMessage == old(successMessage)
      ensures loading == old(loading)
    {
      if !confirmed {
        return;
      }
      updating := true;
      sent := sent + [DeleteCart];
      if reply.Success? {
        cart := None;
        successMessage := "Carrinho limpo!";
      } else {
        errors := [FailureMessage(reply, "Erro ao limpar carrinho")];
      }
      updating := false;
    }

    /** A click on the "-" control of a line, which is enabled only while no
        request is in flight and the quantity is above one: it always sends
        a PUT for one less, never a quantity below one. */
    method Decrement(item: CartItem, reply: Reply<Option<Cart>>)
      requires !DecrementDisabled(item)
      modifies this
      ensures item.quantity - 1 >= 1
      ensures sent == old(sent) + [PutItem(item.id, item.quantity - 1)] && !updating
      ensures reply.Success? ==>
                cart == reply.body && errors == old(errors) && successMessage == "Quantidade atualizada!"
      ensures !reply.Success? ==>
                && cart == old(cart) && successMessage == old(successMessage)
                && errors == [FailureMessage(reply, "Erro ao atualizar quantidade")]
      ensures loading == old(loading)
    {
      UpdateQuantity(item.id, item.quantity - 1, reply);
    }

    /** A click on the "+" control of a line, which is enabled while no request
        is in flight: it sends a PUT for one more. */
    method Increment(item: CartItem, reply: Reply<Option<Cart>>)
      requires !updating
      modifies this
      ensures item.quantity >= 0 ==> sent == old(sent) + [PutItem(item.id, item.quantity + 1)]
      ensures item.quantity < 0 ==> sent == old(sent) && cart == old(cart)
      ensures !updating
      ensures item.quantity >= 0 && reply.Success? ==>
                cart == reply.body && errors == old(errors) && successMessage == "Quantidade atualizada!"
      ensures item.quantity >= 0 && !reply.Success? ==>
                errors == [FailureMessage(reply, "Erro ao atualizar quantidade")]
      ensures item.quantity < 0 ==> errors == old(errors)
      ensures !reply.Success? ==> cart == old(cart) && successMessage == old(successMessage)
      ensures loading == old(loading)
    {
      UpdateQuantity(item.id, item.quantity + 1, reply);
    }
  }
}
