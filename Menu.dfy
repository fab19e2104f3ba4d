/**
 The value types of the ice-cream shop: the four enumerations, the order a
 customer submits, and the errors the shop raises.
 */
module Menu {

  datatype ConeType = Cup | Biscuit

  /** A portion size; its numeric value (1, 2, 3) is the number of scoops it holds. */
  datatype PortionSize = Small | Medium | Large

  datatype Flavor = Chocolate | Vanilla | Strawberry

  datatype Topping = Sprinkles | Candies | HotFudge | GummyBears

  /** The integer value of a portion size, which a cone uses as its flavour capacity. */
  function Capacity(size: PortionSize): (n: nat)
    ensures 1 <= n <= 3
    ensures size == Small <==> n == 1
    ensures size == Large <==> n == 3
  {
    match size
    case Small => 1
    case Medium => 2
    case Large => 3
  }

  /** Only chocolate contains dairy. */
  predicate IsVeganFlavor(f: Flavor): (vegan: bool)
    ensures vegan <==> f == Vanilla || f == Strawberry
  {
    f != Chocolate
  }

  /**
   An order as the customer submits it. The topping list may be absent
   (a null array), which the shop treats as no toppings at all.
   */
  datatype Order = Order(
    isVegan: bool,
    coneType: ConeType,
    portionSize: PortionSize,
    flavors: seq<Flavor>,
    toppings: Option<seq<Topping>>)

  datatype Option<+T> = None | Some(value: T)

  /** The toppings the shop will add for an order: none when the list is absent. */
  function ToppingsOf(order: Order): (ts: seq<Topping>)
    ensures order.toppings.None? ==> ts == []
    ensures order.toppings.Some? ==> ts == order.toppings.value
  {
    match order.toppings
    case None => []
    case Some(ts) => ts
  }

  /** The four ways a preparation can be refused, one per exception class. */
  datatype Error = VeganMismatch | FlavorAfterTopping | PortionSizeExceeded | OutOfStock

  /** The return value of an operation that either produces a value or throws. */
  datatype Result<+T> = Ok(value: T) | Err(error: Error)

  /** The outcome of a void operation that may throw. */
  datatype Outcome = Pass | Fail(error: Error)
}
