/** The client's cart records (client/src/lib/types.ts). */
module CartTypes {

  /** A product as the cart receives it: a line item without its quantity. */
  datatype ProductRef = ProductRef(id: int, name: string, price: int, image: string)
  {
    /** The new line item `{ ...item, quantity }`. */
    function WithQuantity(quantity: int): (c: CartItem)
      ensures c.id == id && c.name == name && c.price == price && c.image == image
      ensures c.quantity == quantity
    {
      CartItem(id, name, price, image, quantity)
    }
  }

  /** One line of the cart: a product and how many of it. */
  datatype CartItem = CartItem(id: int, name: string, price: int, image: string, quantity: int)

  /** The four amounts shown in the cart summary and sent with an order. */
  datatype CartTotals = CartTotals(subtotal: int, shipping: int, vat: int, grandTotal: int)
}
