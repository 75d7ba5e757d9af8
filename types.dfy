/** The records of the shop's type declarations that the cart and the order
    form work with. */
module Types {

  datatype Option<+T> = None | Some(value: T)

  /** A catalogue card. Its identity is `id`; `price` is `None` for a product
      that is not for sale. Prices are whole amounts. */
  datatype Product = Product(
    id: string,
    description: string,
    image: string,
    title: string,
    category: string,
    price: Option<int>)

  /** The keys of an order, by which form errors are keyed. */
  datatype OrderField = Address | Phone | Email | Payment | Total | Items

  /** A partial record from order field to message: a missing key is no error. */
  type FormErrors = map<OrderField, string>

  /** The order as it is sent to the server. */
  datatype OrderRequest = OrderRequest(
    email: string,
    phone: string,
    payment: string,
    address: string,
    items: seq<string>,
    total: int)
}
