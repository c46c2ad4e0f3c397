/** The checkout page (src/components/order.tsx): a three-step flow
    Shipping (1) -> Payment (2) -> Confirmation (3) over a cart fetched once
    on mount, with the shipping rule and the order total. Money is in
    cents. */
module Checkout {
  import opened Common
  import opened Storage
  import opened Backend

  datatype ShippingAddress = ShippingAddress(
    fullName: string, address: string, city: string, state: string, zipCode: string, phone: string)

  /** The keys of `ShippingAddress` that `handleInputChange` accepts. */
  datatype AddressField = FullName | Address | City | State | ZipCode | Phone

  const EmptyAddress := ShippingAddress("", "", "", "", "", "")

  function FieldOf(a: ShippingAddress, f: AddressField): string {
    match f
    case FullName => a.fullName
    case Address => a.address
    case City => a.city
    case State => a.state
    case ZipCode => a.zipCode
    case Phone => a.phone
  }

  /** `{ ...prev, [field]: value }`. */
  function WithField(a: ShippingAddress, f: AddressField, value: string): ShippingAddress {
    match f
    case FullName => a.(fullName := value)
    case Address => a.(address := value)
    case City => a.(city := value)
    case State => a.(state := value)
    case ZipCode => a.(zipCode := value)
    case Phone => a.(phone := value)
  }

  /** An input change sets the named field and leaves the other five as
      they were. */
  lemma WithFieldChangesOnlyThatField(a: ShippingAddress, f: AddressField, value: string, g: AddressField)
    ensures FieldOf(WithField(a, f, value), g) == if g == f then value else FieldOf(a, g)
  {
  }

  /** `validateShippingAddress`: all six fields are non-empty strings;
      nothing is trimmed, so a field of spaces counts as filled. */
  predicate ValidAddress(a: ShippingAddress) {
    a.fullName != "" && a.address != "" && a.city != "" && a.state != "" && a.zipCode != "" && a.phone != ""
  }

  lemma ValidAddressIff(a: ShippingAddress)
    ensures ValidAddress(a) <==> forall f: AddressField :: FieldOf(a, f) != ""
  {
    if !ValidAddress(a) {
      var f :| f in {FullName, Address, City, State, ZipCode, Phone} && FieldOf(a, f) == "";
    }
  }

  /** Whitespace is a value: a form of single spaces is valid. */
  lemma SpacesAreValid()
    ensures ValidAddress(ShippingAddress(" ", " ", " ", " ", " ", " "))
    ensures !ValidAddress(EmptyAddress)
  {
  }

  const FreeShippingAbove := 5000
  const FlatShippingFee := 999

  /** `totalPrice > 50 ? 0 : 9.99`. */
  function ShippingCost(totalPrice: int): (r: int)
    ensures r == 0 || r == FlatShippingFee
    ensures r == 0 <==> totalPrice > FreeShippingAbove
  {
    if totalPrice > FreeShippingAbove then 0 else FlatShippingFee
  }

  /** Subtotal plus shipping. */
  function OrderTotal(subtotal: int): int {
    subtotal + ShippingCost(subtotal)
  }

  /** A subtotal of exactly $50.00 pays shipping; one cent more ships free. */
  lemma ShippingBoundary()
    ensures ShippingCost(5000) == 999 && OrderTotal(5000) == 5999
    ensures ShippingCost(5001) == 0 && OrderTotal(5001) == 5001
  {
  }

  /** The total never undercuts the subtotal, adds at most the flat fee, and
      equals the subtotal exactly when shipping is free. As a consequence a
      larger cart can cost less in total (5001 cents against 5999). */
  lemma TotalBounds(subtotal: int)
    ensures subtotal <= OrderTotal(subtotal) <= subtotal + FlatShippingFee
    ensures OrderTotal(subtotal) == subtotal <==> subtotal > FreeShippingAbove
    ensures OrderTotal(FreeShippingAbove) > OrderTotal(FreeShippingAbove + 1)
  {
  }

  /** `data.success && data.data && data.data.items.length > 0`. */
  predicate HasItems(body: CartResponse) {
    body.success && body.data.Some? && |body.data.value.items| > 0
  }

  const LoginToCheckout := "Please login to proceed with checkout"
  const EmptyCartMessage := "Your cart is empty. Please add items before checkout."
  const LoadFailed := "Failed to load cart data"
  const NetworkError := "Network error. Please try again."
  const FillAllFields := "Please fill in all required fields"
  const CompleteAddress := "Please complete shipping address"
  const AuthRequired := "Authentication required. Please login."
  const OrderFailed := "Failed to place order"

  const ShippingStep := 1
  const PaymentStep := 2
  const ConfirmationStep := 3

  /** A snapshot of every field of the page, so that a handler can say
      which fields it changes and that the others keep their values. */
  datatype CheckoutState = CheckoutState(
    cartData: Option<CartData>, loading: bool, error: string, currentStep: int, processing: bool,
    orderSuccess: bool, orderId: string, shippingCost: int, shippingAddress: ShippingAddress)

  /** The `Checkout` component's state. */
  class CheckoutPage {
    var cartData: Option<CartData>
    var loading: bool
    var error: string
    var currentStep: int
    var processing: bool
    var orderSuccess: bool
    var orderId: string
    var shippingCost: int
    var shippingAddress: ShippingAddress

    /** Between handlers: the step is one of the three, Confirmation is
        reached exactly when the order succeeded, no order is in flight, and
        the shipping cost is the one the rule gives for the loaded cart. */
    ghost predicate Valid()
      reads this
    {
      && ShippingStep <= currentStep <= ConfirmationStep
      && (orderSuccess <==> currentStep == ConfirmationStep)
      && !processing
      && (cartData.Some? ==> |cartData.value.items| > 0 && shippingCost == ShippingCost(cartData.value.totalPrice))
      && (cartData.None? ==> shippingCost == 0)
    }

    ghost function State(): CheckoutState
      reads this
    {
      CheckoutState(cartData, loading, error, currentStep, processing, orderSuccess, orderId, shippingCost, shippingAddress)
    }

    constructor ()
      ensures Valid()
      ensures cartData == None && loading && error == "" && currentStep == ShippingStep
      ensures !orderSuccess && orderId == "" && shippingAddress == EmptyAddress
    {
      cartData, loading, error := None, true, "";
      currentStep, processing, orderSuccess, orderId := ShippingStep, false, false, "";
      shippingCost, shippingAddress := 0, EmptyAddress;
    }

    /** `cartData?.totalPrice || 0`. */
    function Subtotal(): int
      reads this
    {
      if cartData.Some? then cartData.value.totalPrice else 0
    }

    /** The total shown in the summary and on the Payment step. */
    function Total(): (r: int)
      reads this
      requires Valid()
      ensures cartData.Some? ==> r == OrderTotal(Subtotal())
      ensures cartData.None? ==> r == 0
    {
      Subtotal() + shippingCost
    }

    /** The mount effect `fetchCartData`. `response` is what `GET
        /cart/get` ended with; it is not used when there is no token.
        Returns whether the request was sent. */
    method FetchCartData(store: KeyValueStore, response: Outcome<CartResponse>) returns (requested: bool)
      requires Valid()
      modifies this
      ensures Valid() && !loading
      ensures requested <==> Token(store.items).Some?
      ensures !requested ==> error == LoginToCheckout && cartData == old(cartData)
      ensures requested && response.Ok? && HasItems(response.payload) ==>
        cartData == response.payload.data && error == old(error)
      ensures requested && response.Ok? && !HasItems(response.payload) ==>
        cartData == old(cartData) && error == EmptyCartMessage
      ensures requested && response.NotOk? ==> cartData == old(cartData) && error == LoadFailed
      ensures requested && response.Thrown? ==> cartData == old(cartData) && error == NetworkError
      ensures State() == old(State()).(cartData := cartData, loading := loading, error := error, shippingCost := shippingCost)
    {
      requested := false;
      var token := Token(store.items);
      if token.None? {
        error := LoginToCheckout;
      } else {
        requested := true;
        match response
        case Ok(body) =>
          if HasItems(body) {
            cartData := body.data;
            shippingCost := ShippingCost(body.data.value.totalPrice);
          } else {
            error := EmptyCartMessage;
          }
        case NotOk(_) =>
          error := LoadFailed;
        case Thrown(_) =>
          error := NetworkError;
      }
      loading := false;
    }

    /** `handleInputChange(field, value)`. */
    method HandleInputChange(field: AddressField, value: string)
      requires Valid()
      modifies this
      ensures Valid()
      ensures shippingAddress == WithField(old(shippingAddress), field, value)
      ensures State() == old(State()).(shippingAddress := shippingAddress)
    {
      shippingAddress := WithField(shippingAddress, field, value);
    }

    /** The "Continue to Payment" button of the Shipping step. */
    method ProceedToPayment()
      requires Valid() && currentStep == ShippingStep
      modifies this
      ensures Valid()
      ensures ValidAddress(shippingAddress) ==> currentStep == PaymentStep && error == ""
      ensures !ValidAddress(shippingAddress) ==> currentStep == ShippingStep && error == FillAllFields
      ensures State() == old(State()).(currentStep := currentStep, error := error)
    {
      if ValidAddress(shippingAddress) {
        currentStep := PaymentStep;
        error := "";
      } else {
        error := FillAllFields;
      }
    }

    /** "Edit Address" and "Back" on the Payment step: both return to
        Shipping and keep the address. */
    method ReturnToShipping()
      requires Valid() && currentStep == PaymentStep
      modifies this
      ensures Valid()
      ensures currentStep == ShippingStep
      ensures State() == old(State()).(currentStep := currentStep)
    {
      currentStep := ShippingStep;
    }

    /** "Place Order" on the Payment step. `response` is what `POST /order`
        ended with (on success, the new order's `_id`); it is not used when
        no request is sent. Returns whether the request was sent. */
    method PlaceOrder(store: KeyValueStore, response: Outcome<string>) returns (requested: bool)
      requires Valid() && currentStep == PaymentStep
      modifies this
      ensures Valid()
      ensures requested <==> ValidAddress(shippingAddress) && Token(store.items).Some?
      ensures !ValidAddress(shippingAddress) ==> error == CompleteAddress
      ensures ValidAddress(shippingAddress) && Token(store.items).None? ==> error == AuthRequired
      ensures !requested ==> currentStep == PaymentStep && !orderSuccess && orderId == old(orderId)
      ensures requested && response.Ok? ==>
        orderId == response.payload && orderSuccess && currentStep == ConfirmationStep && error == ""
      ensures requested && response.NotOk? ==>
        currentStep == PaymentStep && !orderSuccess && orderId == old(orderId)
        && error == OrElse(response.message, OrderFailed)
      ensures requested && response.Thrown? ==>
        currentStep == PaymentStep && !orderSuccess && orderId == old(orderId) && error == NetworkError
      ensures State() == old(State()).(error := error, currentStep := currentStep, orderSuccess := orderSuccess, orderId := orderId)
    {
      requested := false;
      if !ValidAddress(shippingAddress) {
        error := CompleteAddress;
        return;
      }
      processing := true;
      error := "";
      var token := Token(store.items);
      if token.None? {
        error := AuthRequired;
        processing := false;
        return;
      }
      requested := true;
      match response {
        case Ok(id) =>
          orderId := id;
          orderSuccess := true;
          currentStep := ConfirmationStep;
        case NotOk(message) =>
          error := OrElse(message, OrderFailed);
        case Thrown(_) =>
          error := NetworkError;
      }
      processing := false;
    }
  }
}
