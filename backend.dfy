/** The JSON the backend returns for `GET /cart/get`, as the checkout page,
    the cart page and the home page read it. Prices are in cents. */
module Backend {
  import opened Common

  datatype LineItem = LineItem(productId: string, name: string, price: int, quantity: int)

  datatype CartData = CartData(items: seq<LineItem>, totalItems: int, totalPrice: int)

  /** `{ success, data }`; `data` may be missing. */
  datatype CartResponse = CartResponse(success: bool, data: Option<CartData>)
}
