/**
 The shop's unit scenarios as client code: each builds a stock stand-in and a
 billing log, submits one order, and asserts what the contracts of Submit and
 the lemmas about Prepare guarantee. A stock that always has every flavour is
 a script of "yes" answers as long as the order.
 */
module Scenarios {
  import opened Menu
  import opened Dishes
  import opened Shop

  method NonVeganOrderIsFulfilled() {
    var stock := new Stock([true, true, true]);
    var billing := new Billing();
    var shop := new IceCreamShop(stock, billing);
    var order := Order(false, Cup, Large, [Strawberry, Vanilla, Chocolate], None);
    PreparedExactlyWhenAllAdmissible(order, [true, true, true]);
    PreparedDishMatchesOrder(order, [true, true, true]);
    var r := shop.Submit(order);
    assert r.Ok?;
    assert !r.value.isVegan && |r.value.cone.flavors| == 3;
    assert billing.charged == [order];
  }

  method VeganOrderIsFulfilled() {
    var stock := new Stock([true, true]);
    var billing := new Billing();
    var shop := new IceCreamShop(stock, billing);
    var order := Order(true, Cup, Large, [Strawberry, Vanilla], None);
    PreparedExactlyWhenAllAdmissible(order, [true, true]);
    PreparedDishMatchesOrder(order, [true, true]);
    var r := shop.Submit(order);
    assert r.Ok?;
    assert r.value.isVegan && r.value.cone.coneType == Cup && |r.value.cone.flavors| == 2;
  }

  method VeganOrderWithDairyIsRejected() {
    var stock := new Stock([true, true, true]);
    var billing := new Billing();
    var shop := new IceCreamShop(stock, billing);
    var order := Order(true, Cup, Large, [Strawberry, Vanilla, Chocolate], None);
    assert order.flavors[..2] == [Strawberry, Vanilla];
    VeganOrderWithChocolateIsRefused(order, [true, true, true], 2);
    var r := shop.Submit(order);
    assert r == Err(VeganMismatch);
    assert billing.charged == [];
  }

  /** One flavour too many, and it is chocolate on a vegan dish: the vegan check runs first. */
  method VeganCheckComesBeforeCapacityCheck() {
    var stock := new Stock([true, true, true]);
    var billing := new Billing();
    var shop := new IceCreamShop(stock, billing);
    var order := Order(true, Cup, Medium, [Vanilla, Strawberry, Chocolate], None);
    assert order.flavors[..2] == [Vanilla, Strawberry];
    VeganOrderWithChocolateIsRefused(order, [true, true, true], 2);
    var r := shop.Submit(order);
    assert r == Err(VeganMismatch);
    assert billing.charged == [];
  }

  method LargeOrderOnSmallCupSpills() {
    var stock := new Stock([true, true, true]);
    var billing := new Billing();
    var shop := new IceCreamShop(stock, billing);
    var order := Order(false, Cup, Medium, [Vanilla, Strawberry, Chocolate], None);
    OversizedOrderIsRefused(order, [true, true, true]);
    var r := shop.Submit(order);
    assert r == Err(PortionSizeExceeded);
    assert billing.charged == [];
  }

  /** The stock has two scoops left: the first two questions get "yes", every later one "no". */
  method SmallOrderFulfilledWhenStockIsLimited() {
    var stock := new Stock([true, true]);
    var billing := new Billing();
    var shop := new IceCreamShop(stock, billing);
    var order := Order(false, Biscuit, Large, [Vanilla, Strawberry], None);
    PreparedExactlyWhenAllAdmissible(order, [true, true]);
    PreparedDishMatchesOrder(order, [true, true]);
    var r := shop.Submit(order);
    assert r.Ok?;
    assert r.value.cone.coneType == Biscuit && |r.value.cone.flavors| == 2;
  }

  method OrderIsRejectedWhenOutOfStock() {
    var stock := new Stock([true, true]);
    var billing := new Billing();
    var shop := new IceCreamShop(stock, billing);
    var order := Order(false, Cup, Large, [Vanilla, Strawberry, Chocolate], None);
    assert Admissible(order, [true, true], 0) && Admissible(order, [true, true], 1);
    OutOfStockStopsPreparation(order, [true, true], 2);
    var r := shop.Submit(order);
    assert r == Err(OutOfStock);
    assert |stock.queried| == 3 && billing.charged == [];
  }

  method FlavorCannotBeAddedAfterTopping() {
    var stock := new Stock([true]);
    var billing := new Billing();
    var shop := new IceCreamShop(stock, billing);
    var order := Order(false, Biscuit, Medium, [Vanilla], Some([GummyBears]));
    PreparedExactlyWhenAllAdmissible(order, [true]);
    PreparedDishMatchesOrder(order, [true]);
    var r := shop.Submit(order);
    assert r.Ok?;
    var dish := r.value;
    assert dish.cone.toppings == [GummyBears];
    var outcome := dish.AddFlavor(Chocolate);
    assert outcome == Fail(FlavorAfterTopping);
    assert dish.cone.flavors == [Vanilla];
  }
}
