/**
  The records the agent works on: catalog products, orders and their items,
  the policy decisions attached to a request, and the collaborators the model
  treats as given (the two JSON data files and three text producers).
 */
module Records {
  import opened Wrappers

  /** One entry of the product catalog; `price` is in whole currency units. */
  datatype Product = Product(
    id: string,
    title: string,
    price: int,
    tags: seq<string>,
    sizes: seq<string>,
    color: string)

  /** One line of an order: the product id and the size ordered. */
  datatype Item = Item(id: string, size: string)

  /** An order; `createdAt` is the creation time in seconds since the epoch (UTC). */
  datatype Order = Order(orderId: string, email: string, createdAt: int, items: seq<Item>)

  /** Order ids are unique in the order file. */
  predicate UniqueOrderIds(orders: seq<Order>) {
    forall a, b :: 0 <= a < b < |orders| ==> orders[a].orderId != orders[b].orderId
  }

  /**
    The `policy_decision` of a request:
    the cancellation window's verdict, the discount-code refusal (`refuse: True`),
    or the `{"error": ...}` object of the top-level failure trace.
   */
  datatype PolicyDecision =
    | CancelPolicy(cancelAllowed: bool, reason: string)
    | Refusal(reason: string, alternatives: seq<string>)
    | Failure(error: string)

  /**
    A snapshot of the two data files; `None` stands for a file that could not be
    read or parsed, which makes every `load_products()` / `load_orders()` call raise.
   */
  datatype Store = Store(products: Option<seq<Product>>, orders: Option<seq<Order>>)

  /**
    Text producers the model does not interpret:
    `findEmail` is the e-mail regular-expression search over the user's message,
    `minutesText` renders elapsed seconds as the `{minutes:.1f}` number,
    `dateText` is `format_order_date` applied to a creation time.
   */
  datatype Env = Env(
    findEmail: string -> Option<string>,
    minutesText: int -> string,
    dateText: int -> string)
}
