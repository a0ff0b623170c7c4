/** The cart page's event handlers (src/pages/Cart.tsx:23-70, 190-248).
    The cart itself lives in a cart container (`useCart`) whose code is not
    part of this model: the page only reads the cart it is given and decides
    which of the container's commands to call. Each call is recorded, oldest
    first, in `commands`; what the container then does is not assumed. */
module CartPage {
  import opened Wrappers
  import QuantityInput

  /** One line of the cart as the page reads it. */
  datatype LineItem = LineItem(id: string, name: string, quantity: int, unitPrice: int, totalPrice: int)

  /** The cart record handed out by the container. */
  datatype Cart = Cart(items: seq<LineItem>, totalItems: int, totalAmount: int)

  /** The container's commands the page can call. */
  datatype CartCommand =
    | UpdateQuantity(productId: string, quantity: int)
    | RemoveFromCart(productId: string)
    | ClearCart

  /** Where a successful checkout sends the user. */
  const BillingRoute: string := "/billing"

  /** The quantity guard: only positive quantities are passed on. */
  predicate AcceptsQuantity(newQuantity: int) {
    newQuantity > 0
  }

  /** Whether the minus button of a line with quantity `q` is enabled. */
  predicate MinusEnabled(q: int) {
    !(q <= 1)
  }

  /** The minus button is disabled exactly when the decremented quantity
      would be refused by the guard, so no enabled control is ever a no-op. */
  lemma MinusEnabledMatchesGuard(q: int)
    ensures MinusEnabled(q) <==> AcceptsQuantity(q - 1)
  {
  }

  /** A typed quantity is refused exactly when the text reads as a negative
      number; text that reads as nothing or as zero becomes 1 and is passed on. */
  lemma TypedQuantityGuard(text: string)
    ensures !AcceptsQuantity(QuantityInput.TypedQuantity(text)) <==>
              QuantityInput.ParseInt(text).Some? && QuantityInput.ParseInt(text).value < 0
    ensures QuantityInput.ParseInt(text).None? ==> QuantityInput.TypedQuantity(text) == 1
  {
  }

  class Page {
    /** The cart as last delivered by the container. */
    var cart: Cart
    /** The container commands the page has called, oldest first. */
    var commands: seq<CartCommand>
    /** The routes the page has scheduled navigation to, oldest first. */
    var navigations: seq<string>

    constructor (cart: Cart)
      ensures this.cart == cart && commands == [] && navigations == []
    {
      this.cart := cart;
      commands := [];
      navigations := [];
    }

    /** The container re-renders the page with its current cart. */
    method Render(cart: Cart)
      modifies this`cart
      ensures this.cart == cart
    {
      this.cart := cart;
    }

    /** `handleQuantityChange`: a quantity of 0 or less never reaches the
        container. */
    method HandleQuantityChange(productId: string, newQuantity: int) returns (invoked: bool)
      modifies this`commands
      ensures invoked <==> AcceptsQuantity(newQuantity)
      ensures commands == old(commands) + if invoked then [UpdateQuantity(productId, newQuantity)] else []
    {
      invoked := newQuantity > 0;
      if invoked {
        commands := commands + [UpdateQuantity(productId, newQuantity)];
      }
    }

    /** The minus button: disabled at quantity 1 or below, otherwise asks for
        one less. */
    method DecrementClicked(item: LineItem) returns (invoked: bool)
      modifies this`commands
      ensures invoked <==> item.quantity > 1
      ensures commands == old(commands) + if invoked then [UpdateQuantity(item.id, item.quantity - 1)] else []
    {
      invoked := false;
      if MinusEnabled(item.quantity) {
        invoked := HandleQuantityChange(item.id, item.quantity - 1);
      }
    }

    /** The plus button: always enabled, asks for one more. */
    method IncrementClicked(item: LineItem) returns (invoked: bool)
      modifies this`commands
      ensures invoked <==> item.quantity >= 0
      ensures commands == old(commands) + if invoked then [UpdateQuantity(item.id, item.quantity + 1)] else []
    {
      invoked := HandleQuantityChange(item.id, item.quantity + 1);
    }

    /** Typing into the quantity box. */
    method QuantityTyped(item: LineItem, text: string) returns (invoked: bool)
      modifies this`commands
      ensures invoked <==> !(QuantityInput.ParseInt(text).Some? && QuantityInput.ParseInt(text).value < 0)
      ensures commands == old(commands) +
                if invoked then [UpdateQuantity(item.id, QuantityInput.TypedQuantity(text))] else []
    {
      TypedQuantityGuard(text);
      invoked := HandleQuantityChange(item.id, QuantityInput.TypedQuantity(text));
    }

    /** `handleRemoveItem`: removal is passed on unconditionally. */
    method HandleRemoveItem(productId: string)
      modifies this`commands
      ensures commands == old(commands) + [RemoveFromCart(productId)]
    {
      commands := commands + [RemoveFromCart(productId)];
    }

    /** `handleClearCart`: acts only on a cart holding items. */
    method HandleClearCart() returns (invoked: bool)
      modifies this`commands
      ensures invoked <==> cart.totalItems > 0
      ensures commands == old(commands) + if invoked then [ClearCart] else []
    {
      invoked := cart.totalItems > 0;
      if invoked {
        commands := commands + [ClearCart];
      }
    }

    /** `handleCheckout`: an empty cart is refused; otherwise navigation to
        the billing page is scheduled. No container command is called. */
    method HandleCheckout() returns (proceeded: bool)
      modifies this`navigations
      ensures proceeded <==> cart.totalItems != 0
      ensures navigations == old(navigations) + if proceeded then [BillingRoute] else []
    {
      if cart.totalItems == 0 {
        return false;
      }
      proceeded := true;
      navigations := navigations + [BillingRoute];
    }
  }

  /** Client view of the guards: on a page showing an empty cart, clearing
      and checking out do nothing at all, and a refused quantity leaves the
      command log as it was. */
  method EmptyCartIsInert(p: Page, id: string, q: int)
    requires p.cart.totalItems == 0 && q <= 0
    modifies p
    ensures p.commands == old(p.commands) && p.navigations == old(p.navigations) && p.cart == old(p.cart)
  {
    var cleared := p.HandleClearCart();
    var proceeded := p.HandleCheckout();
    var updated := p.HandleQuantityChange(id, q);
    assert !cleared && !proceeded && !updated;
  }
}
