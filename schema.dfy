/**
 * Records of the server's data model (products, orders, users) as
 * declared by the table definitions in shared/schema.ts.  Text columns
 * are strings, integer columns are unbounded integers, JSON columns are
 * sequences or optional records.
 */
module Schema {
  import opened Wrappers

  /** One entry of a product's "in the box" list. */
  datatype Included = Included(quantity: int, item: string)

  /** The three gallery pictures of a product. */
  datatype Gallery = Gallery(first: string, second: string, third: string)

  /** A "you may also like" reference to another product. */
  datatype RelatedProduct = RelatedProduct(slug: string, name: string, image: string)

  /** A catalogue product; `isNew` is the column called `new`. */
  datatype Product = Product(
    id: int,
    slug: string,
    name: string,
    category: string,
    isNew: Option<bool>,
    price: int,
    description: string,
    features: string,
    includes: seq<Included>,
    image: string,
    categoryImage: Option<string>,
    gallery: Option<Gallery>,
    others: Option<seq<RelatedProduct>>)

  /** One line of an order's snapshot of the cart. */
  datatype OrderItem = OrderItem(id: int, name: string, price: int, quantity: int)

  /** What a client submits to create an order: an order without its id. */
  datatype InsertOrder = InsertOrder(
    name: string,
    email: string,
    phone: string,
    address: string,
    zip: string,
    city: string,
    country: string,
    paymentMethod: string,
    items: seq<OrderItem>,
    subtotal: int,
    shipping: int,
    vat: int,
    grandTotal: int)
  {
    /** The stored order `{ ...insertOrder, id }`. */
    function WithId(id: int): (o: Order)
      ensures o.id == id && o.Insert() == this
    {
      Order(id, name, email, phone, address, zip, city, country, paymentMethod,
            items, subtotal, shipping, vat, grandTotal)
    }
  }

  datatype Order = Order(
    id: int,
    name: string,
    email: string,
    phone: string,
    address: string,
    zip: string,
    city: string,
    country: string,
    paymentMethod: string,
    items: seq<OrderItem>,
    subtotal: int,
    shipping: int,
    vat: int,
    grandTotal: int)
  {
    /** The order without its id. */
    function Insert(): InsertOrder {
      InsertOrder(name, email, phone, address, zip, city, country, paymentMethod,
                  items, subtotal, shipping, vat, grandTotal)
    }
  }

  datatype InsertUser = InsertUser(username: string, password: string)
  {
    /** The stored user `{ ...insertUser, id }`. */
    function WithId(id: int): (u: User)
      ensures u.id == id && u.username == username && u.password == password
    {
      User(id, username, password)
    }
  }

  datatype User = User(id: int, username: string, password: string)
}
