/**
 The cone and the dish built on it. Both are mutable objects in the shop:
 the cone accumulates flavours and toppings in two lists, and the dish adds
 the vegan check in front of the cone's own checks. Each mutating method is
 specified by a pure step function on the object's observable value, and the
 rules the shop relies on are stated about those step functions.
 */
module Dishes {
  import opened Menu

  /** What can be observed of a cone: its kind, its size and its two lists. */
  datatype ConeView = ConeView(
    coneType: ConeType,
    portionSize: PortionSize,
    flavors: seq<Flavor>,
    toppings: seq<Topping>)

  /** What can be observed of a dish: its vegan flag and its cone. */
  datatype DishView = DishView(isVegan: bool, cone: ConeView)

  /** The cone after an add, and whether the add threw. */
  datatype Step = Step(cone: ConeView, outcome: Outcome)

  /** Adding a flavour to a cone. */
  function ConeAddFlavor(c: ConeView, f: Flavor): (s: Step)
    ensures s.cone.coneType == c.coneType && s.cone.portionSize == c.portionSize
    ensures s.cone.toppings == c.toppings
    // a topping seals the cone: the add throws and nothing changes
    ensures c.toppings != [] ==> s == Step(c, Fail(FlavorAfterTopping))
    // otherwise the flavour is appended, even when it is one too many
    ensures c.toppings == [] ==> s.cone.flavors == c.flavors + [f]
    ensures s.outcome.Pass? <==> c.toppings == [] && |c.flavors| + 1 <= Capacity(c.portionSize)
    ensures c.toppings == [] && s.outcome.Fail? ==> s.outcome.error == PortionSizeExceeded
  {
    if c.toppings != [] then
      Step(c, Fail(FlavorAfterTopping))
    else
      var grown := c.(flavors := c.flavors + [f]);
      Step(grown, if |grown.flavors| > Capacity(c.portionSize) then Fail(PortionSizeExceeded) else Pass)
  }

  /** Adding a topping to a cone, which always succeeds and seals the cone against flavours. */
  function ConeAddTopping(c: ConeView, t: Topping): (d: ConeView)
    ensures d.coneType == c.coneType && d.portionSize == c.portionSize
    ensures d.flavors == c.flavors && d.toppings == c.toppings + [t]
    ensures forall f :: ConeAddFlavor(d, f) == Step(d, Fail(FlavorAfterTopping))
  {
    c.(toppings := c.toppings + [t])
  }

  /** Adding a flavour to a dish: the vegan check comes before anything reaches the cone. */
  function DishAddFlavor(isVegan: bool, c: ConeView, f: Flavor): (s: Step)
    ensures s.outcome == Fail(VeganMismatch) <==> isVegan && f == Chocolate
    ensures s.outcome == Fail(VeganMismatch) ==> s.cone == c
    ensures !(isVegan && f == Chocolate) ==> s == ConeAddFlavor(c, f)
  {
    if isVegan && !IsVeganFlavor(f) then
      Step(c, Fail(VeganMismatch))
    else
      ConeAddFlavor(c, f)
  }

  class Cone {
    const coneType: ConeType
    const portionSize: PortionSize
    /** The number of flavours the cone holds, fixed when it is made. */
    const maxFlavorsToAdd: nat := Capacity(portionSize)
    var toppings: seq<Topping>
    var flavors: seq<Flavor>

    function View(): ConeView
      reads this
    {
      ConeView(coneType, portionSize, flavors, toppings)
    }

    constructor (coneType: ConeType, portionSize: PortionSize)
      ensures View() == ConeView(coneType, portionSize, [], [])
      ensures maxFlavorsToAdd == Capacity(portionSize)
    {
      this.coneType := coneType;
      this.portionSize := portionSize;
      toppings := [];
      flavors := [];
    }

    method AddFlavor(f: Flavor) returns (outcome: Outcome)
      modifies this
      ensures Step(View(), outcome) == ConeAddFlavor(old(View()), f)
    {
      if |toppings| > 0 {
        return Fail(FlavorAfterTopping);
      }
      flavors := flavors + [f];
      if |flavors| > maxFlavorsToAdd {
        return Fail(PortionSizeExceeded);
      }
      return Pass;
    }

    method AddTopping(t: Topping)
      modifies this
      ensures View() == ConeAddTopping(old(View()), t)
    {
      toppings := toppings + [t];
    }
  }

  class IceCreamDish {
    const cone: Cone
    const isVegan: bool

    function View(): DishView
      reads this, cone
    {
      DishView(isVegan, cone.View())
    }

    constructor (cone: Cone, isVegan: bool)
      ensures this.cone == cone && this.isVegan == isVegan
    {
      this.cone := cone;
      this.isVegan := isVegan;
    }

    method AddFlavor(f: Flavor) returns (outcome: Outcome)
      modifies cone
      ensures Step(cone.View(), outcome) == DishAddFlavor(isVegan, old(cone.View()), f)
    {
      if isVegan && !IsVeganFlavor(f) {
        return Fail(VeganMismatch);
      }
      outcome := cone.AddFlavor(f);
    }

    method AddTopping(t: Topping)
      modifies cone
      ensures cone.View() == ConeAddTopping(old(cone.View()), t)
    {
      cone.AddTopping(t);
    }
  }

  /** A call a client can make on a dish it holds. */
  datatype Call = AddFlavorCall(flavor: Flavor) | AddToppingCall(topping: Topping)

  /** The cone after a dish receives a sequence of calls, each made whether or not an earlier one threw. */
  function Replay(isVegan: bool, c: ConeView, calls: seq<Call>): ConeView
    decreases |calls|
  {
    if calls == [] then c
    else
      var next := match calls[0]
        case AddFlavorCall(f) => DishAddFlavor(isVegan, c, f).cone
        case AddToppingCall(t) => ConeAddTopping(c, t);
      Replay(isVegan, next, calls[1..])
  }

  /**
   Once a dish has a topping, whatever calls follow, its flavours never change
   and every further flavour add throws: FlavorAfterTopping, or VeganMismatch
   when a vegan dish is offered chocolate (that check comes first).
   */
  lemma {:induction false} ToppingSealsDish(isVegan: bool, c: ConeView, calls: seq<Call>)
    requires c.toppings != []
    ensures var r := Replay(isVegan, c, calls);
      r.flavors == c.flavors && r.toppings != [] &&
      forall f :: DishAddFlavor(isVegan, r, f) ==
        Step(r, Fail(if isVegan && f == Chocolate then VeganMismatch else FlavorAfterTopping))
    decreases |calls|
  {
    if calls != [] {
      var next := match calls[0]
        case AddFlavorCall(f) => DishAddFlavor(isVegan, c, f).cone
        case AddToppingCall(t) => ConeAddTopping(c, t);
      assert next.flavors == c.flavors && next.toppings != [];
      ToppingSealsDish(isVegan, next, calls[1..]);
    }
  }
}
