/** A call `addToCart(product, size, quantity)` a product page makes into the shopping
    cart, for the product that page shows. The cart's own logic is not part of this
    model. */
module CartCalls {
  datatype CartCall = CartCall(size: string, quantity: int)
}
