/** The cart page (src/components/Cart.tsx): the cart is fetched from the
    backend, every quantity change or removal is sent to the backend and
    followed by a full refetch, each product has its own busy flag while its
    request is in flight, and a promo code is checked but never discounts
    anything. Prices are in cents. */
module CartPage {
  import opened Common
  import opened Storage
  import opened Backend

  /** The requests the page sends. */
  datatype Request = GetCart | UpdateQuantity(productId: string, quantity: int) | RemoveItem(productId: string)

  /** The page's state apart from the promo-code input. */
  datatype CartState = CartState(
    cartData: Option<CartData>, loading: bool, error: string, updatingItems: map<string, bool>)

  const LoginToViewCart := "Please login to view your cart"
  const FetchFailed := "Failed to fetch cart items"
  const FetchNetworkError := "Network error. Please check if your server is running."
  const UpdateFailed := "Failed to update item"
  const RemoveFailed := "Failed to remove item"
  const MutationNetworkError := "Network error. Please try again."

  /** `fetchCartItems`: the state it leaves, given the token and what
      `GET /cart/get` ended with. */
  function AfterFetch(s: CartState, token: Option<string>, response: Outcome<CartResponse>): CartState {
    if token.None? then s.(loading := false, error := LoginToViewCart)
    else match response
      case Ok(body) =>
        s.(loading := false, error := "", cartData := if body.success && body.data.Some? then body.data else None)
      case NotOk(message) => s.(loading := false, error := OrElse(message, FetchFailed))
      case Thrown(_) => s.(loading := false, error := FetchNetworkError)
  }

  function FetchRequests(token: Option<string>): seq<Request> {
    if token.Some? then [GetCart] else []
  }

  /** The common shape of an update and a removal: the product's flag is
      raised, the request is sent; on success the cart is refetched, on
      failure the error is set; finally the flag is cleared. */
  function AfterMutation(s: CartState, productId: string, failure: string, token: Option<string>,
                         response: Outcome<()>, refetch: Outcome<CartResponse>): CartState
  {
    var busy := s.(updatingItems := s.updatingItems[productId := true]);
    var settled := match response
      case Ok(_) => AfterFetch(busy, token, refetch)
      case NotOk(message) => busy.(error := OrElse(message, failure))
      case Thrown(_) => busy.(error := MutationNetworkError);
    settled.(updatingItems := settled.updatingItems[productId := false])
  }

  function AfterRemove(s: CartState, productId: string, token: Option<string>,
                       response: Outcome<()>, refetch: Outcome<CartResponse>): CartState
  {
    AfterMutation(s, productId, RemoveFailed, token, response, refetch)
  }

  function RemoveRequests(productId: string, token: Option<string>, response: Outcome<()>): seq<Request> {
    [RemoveItem(productId)] + if response.Ok? then FetchRequests(token) else []
  }

  function AfterUpdate(s: CartState, productId: string, quantity: int, token: Option<string>,
                       response: Outcome<()>, refetch: Outcome<CartResponse>): CartState
  {
    if quantity <= 0 then AfterRemove(s, productId, token, response, refetch)
    else AfterMutation(s, productId, UpdateFailed, token, response, refetch)
  }

  function UpdateRequests(productId: string, quantity: int, token: Option<string>, response: Outcome<()>): seq<Request> {
    if quantity <= 0 then RemoveRequests(productId, token, response)
    else [UpdateQuantity(productId, quantity)] + if response.Ok? then FetchRequests(token) else []
  }

  /** A quantity of zero or less is a removal: the same state, the same
      requests, and no update request at all. */
  lemma NonPositiveQuantityRemoves(s: CartState, productId: string, quantity: int, token: Option<string>,
                                   response: Outcome<()>, refetch: Outcome<CartResponse>)
    requires quantity <= 0
    ensures AfterUpdate(s, productId, quantity, token, response, refetch) == AfterRemove(s, productId, token, response, refetch)
    ensures UpdateRequests(productId, quantity, token, response) == RemoveRequests(productId, token, response)
    ensures forall r :: r in UpdateRequests(productId, quantity, token, response) ==> !r.UpdateQuantity?
  {
  }

  /** After a mutation settles, that product's busy flag is cleared and no
      other product's flag has changed. */
  lemma MutationClearsOnlyItsFlag(s: CartState, productId: string, failure: string, token: Option<string>,
                                  response: Outcome<()>, refetch: Outcome<CartResponse>)
    ensures AfterMutation(s, productId, failure, token, response, refetch).updatingItems
      == s.updatingItems[productId := false]
  {
  }

  /** A successful mutation leaves the cart exactly as a full refetch would;
      a failed one keeps the cart, reports the server's message or the fixed
      default, and sends no refetch. */
  lemma MutationOutcome(s: CartState, productId: string, quantity: int, token: Option<string>,
                        response: Outcome<()>, refetch: Outcome<CartResponse>)
    ensures response.Ok? ==>
      AfterUpdate(s, productId, quantity, token, response, refetch).cartData == AfterFetch(s, token, refetch).cartData
      && AfterUpdate(s, productId, quantity, token, response, refetch).error == AfterFetch(s, token, refetch).error
      && (GetCart in UpdateRequests(productId, quantity, token, response) <==> token.Some?)
    ensures response.NotOk? ==>
      AfterUpdate(s, productId, quantity, token, response, refetch).cartData == s.cartData
      && AfterUpdate(s, productId, quantity, token, response, refetch).error
         == OrElse(response.message, if quantity <= 0 then RemoveFailed else UpdateFailed)
    ensures !response.Ok? ==> GetCart !in UpdateRequests(productId, quantity, token, response)
  {
  }

  /** Fetching without a token sends nothing, asks the user to log in and
      stops loading; an OK response without `success` or `data` empties the
      cart. */
  lemma FetchOutcome(s: CartState, token: Option<string>, response: Outcome<CartResponse>)
    ensures token.None? ==>
      FetchRequests(token) == [] && AfterFetch(s, token, response) == s.(loading := false, error := LoginToViewCart)
    ensures token.Some? && response.Ok? && !(response.payload.success && response.payload.data.Some?) ==>
      AfterFetch(s, token, response).cartData == None
    ensures !AfterFetch(s, token, response).loading
  {
  }

  /** `promoCode.toLowerCase() === "save10"`. */
  predicate PromoAccepted(code: string) {
    Lower(code) == "save10"
  }

  /** The code is accepted whatever the letter case, and only a six-letter
      code ending in the digits "10" can be. */
  lemma {:induction false} PromoCodeCases(code: string)
    ensures PromoAccepted("SAVE10") && PromoAccepted("Save10") && PromoAccepted("save10")
    ensures !PromoAccepted("save 10") && !PromoAccepted("SAVE20")
    ensures PromoAccepted(code) ==> |code| == 6 && code[4..] == "10"
  {
    assert Lower("SAVE10") == "save10";
    assert Lower("Save10") == "save10";
    assert Lower("save10") == "save10";
    assert Lower("SAVE20")[4] == '2';
    if PromoAccepted(code) {
      assert Lower(code)[4] == '1' && Lower(code)[5] == '0';
      assert code[4] == '1' && code[5] == '0';
    }
  }

  /** Which of its three bodies the page renders. */
  datatype View = Spinner | EmptyCart | ItemList

  function Render(loading: bool, cartData: Option<CartData>): (v: View)
    ensures v == ItemList <==> !loading && cartData.Some? && |cartData.value.items| > 0
    ensures v == EmptyCart <==> !loading && (cartData.None? || |cartData.value.items| == 0)
  {
    if loading then Spinner
    else if cartData.None? || |cartData.value.items| == 0 then EmptyCart
    else ItemList
  }

  /** The `Cart` component. */
  class CartView {
    var cartData: Option<CartData>
    var loading: bool
    var error: string
    var promoCode: string
    var updatingItems: map<string, bool>

    function State(): CartState
      reads this
    {
      CartState(cartData, loading, error, updatingItems)
    }

    constructor ()
      ensures State() == CartState(None, true, "", map[]) && promoCode == ""
    {
      cartData, loading, error, promoCode, updatingItems := None, true, "", "", map[];
    }

    /** `updatingItems[id]`, undefined being false. */
    function IsUpdating(productId: string): bool
      reads this
    {
      productId in updatingItems && updatingItems[productId]
    }

    method FetchCartItems(store: KeyValueStore, response: Outcome<CartResponse>) returns (sent: seq<Request>)
      modifies this
      ensures State() == AfterFetch(old(State()), Token(store.items), response)
      ensures sent == FetchRequests(Token(store.items))
      ensures promoCode == old(promoCode)
    {
      loading := true;
      error := "";
      var token := Token(store.items);
      if token.None? {
        error := LoginToViewCart;
        loading := false;
        return [];
      }
      sent := [GetCart];
      match response {
        case Ok(body) =>
          if body.success && body.data.Some? {
            cartData := body.data;
          } else {
            cartData := None;
          }
        case NotOk(message) =>
          error := OrElse(message, FetchFailed);
        case Thrown(_) =>
          error := FetchNetworkError;
      }
      loading := false;
    }

    /** `removeFromCart(productId)`. `response` is what the DELETE ended
        with; `refetch` what the refetch it triggers ends with. The flag is
        raised before the request goes out. */
    method RemoveFromCart(store: KeyValueStore, productId: string, response: Outcome<()>, refetch: Outcome<CartResponse>)
      returns (sent: seq<Request>, ghost busyWhileSending: bool)
      modifies this
      ensures State() == AfterRemove(old(State()), productId, Token(store.items), response, refetch)
      ensures sent == RemoveRequests(productId, Token(store.items), response)
      ensures busyWhileSending && promoCode == old(promoCode)
    {
      sent, busyWhileSending := Mutate(store, RemoveItem(productId), productId, RemoveFailed, response, refetch);
    }

    /** `updateCartQuantity(productId, newQuantity)`. */
    method UpdateCartQuantity(store: KeyValueStore, productId: string, newQuantity: int,
                              response: Outcome<()>, refetch: Outcome<CartResponse>)
      returns (sent: seq<Request>, ghost busyWhileSending: bool)
      modifies this
      ensures State() == AfterUpdate(old(State()), productId, newQuantity, Token(store.items), response, refetch)
      ensures sent == UpdateRequests(productId, newQuantity, Token(store.items), response)
      ensures busyWhileSending && promoCode == old(promoCode)
    {
      if newQuantity <= 0 {
        sent, busyWhileSending := RemoveFromCart(store, productId, response, refetch);
        return;
      }
      sent, busyWhileSending := Mutate(store, UpdateQuantity(productId, newQuantity), productId, UpdateFailed, response, refetch);
    }

    method Mutate(store: KeyValueStore, request: Request, productId: string, failure: string,
                  response: Outcome<()>, refetch: Outcome<CartResponse>)
      returns (sent: seq<Request>, ghost busyWhileSending: bool)
      modifies this
      ensures State() == AfterMutation(old(State()), productId, failure, Token(store.items), response, refetch)
      ensures sent == [request] + if response.Ok? then FetchRequests(Token(store.items)) else []
      ensures busyWhileSending && promoCode == old(promoCode)
    {
      updatingItems := updatingItems[productId := true];
      busyWhileSending := IsUpdating(productId);
      sent := [request];
      match response {
        case Ok(_) =>
          var refetched := FetchCartItems(store, refetch);
          sent := sent + refetched;
        case NotOk(message) =>
          error := OrElse(message, failure);
        case Thrown(_) =>
          error := MutationNetworkError;
      }
      updatingItems := updatingItems[productId := false];
    }

    /** The minus button of an item: one less than its current quantity. */
    method Decrease(store: KeyValueStore, item: LineItem, response: Outcome<()>, refetch: Outcome<CartResponse>)
      returns (sent: seq<Request>)
      requires !IsUpdating(item.productId)
      modifies this
      ensures State() == AfterUpdate(old(State()), item.productId, item.quantity - 1, Token(store.items), response, refetch)
      ensures sent == UpdateRequests(item.productId, item.quantity - 1, Token(store.items), response)
      ensures promoCode == old(promoCode)
    {
      ghost var busy;
      sent, busy := UpdateCartQuantity(store, item.productId, item.quantity - 1, response, refetch);
    }

    /** The plus button of an item: one more than its current quantity. */
    method Increase(store: KeyValueStore, item: LineItem, response: Outcome<()>, refetch: Outcome<CartResponse>)
      returns (sent: seq<Request>)
      requires !IsUpdating(item.productId)
      modifies this
      ensures State() == AfterUpdate(old(State()), item.productId, item.quantity + 1, Token(store.items), response, refetch)
      ensures sent == UpdateRequests(item.productId, item.quantity + 1, Token(store.items), response)
      ensures promoCode == old(promoCode)
    {
      ghost var busy;
      sent, busy := UpdateCartQuantity(store, item.productId, item.quantity + 1, response, refetch);
    }

    method SetPromoCode(code: string)
      modifies this
      ensures promoCode == code && State() == old(State())
    {
      promoCode := code;
    }

    /** "Apply": the alert it shows. It changes nothing: the cart, and with
        it the total shown under the items (the cart's own `totalPrice`),
        stays as it was whatever code was entered. */
    method ApplyPromoCode() returns (alert: string)
      ensures PromoAccepted(promoCode) ==> alert == "Promo code applied! 10% discount"
      ensures !PromoAccepted(promoCode) ==> alert == "Invalid promo code"
      ensures State() == old(State()) && promoCode == old(promoCode)
    {
      if Lower(promoCode) == "save10" {
        alert := "Promo code applied! 10% discount";
      } else {
        alert := "Invalid promo code";
      }
    }
  }
}
