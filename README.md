# Ice-cream shop, modelled in Dafny

The shop turns an `Order` into an `IceCreamDish`. It takes a cone of the ordered
kind and size from the stock, then pours the flavours in order. For each flavour
it first asks the stock whether that flavour is available, and throws
`OutOfStockException` if not. It then adds the flavour to the dish. A vegan dish
refuses chocolate (`VeganMismatchException`) before the cone sees it. The cone
refuses any flavour once it has a topping (`FlavorAfterToppingException`).
Otherwise the cone appends the flavour and only then checks its capacity, the
integer value of the portion size (Small 1, Medium 2, Large 3), throwing
`PortionSizeException` with the extra flavour already in its list. Toppings are
added last and never fail; an absent topping list counts as empty. Only when
the dish is complete does the shop charge the order, once.

Files:

- `Menu.dfy` (module `Menu`): the enumerations, `Capacity`, `IsVeganFlavor`,
  the `Order` record (a null topping array is `None`), and the four errors (`PortionSizeExceeded` stands for `PortionSizeException`).
- `Dishes.dfy` (module `Dishes`): the `Cone` and `IceCreamDish` classes. Their
  lists are `seq` fields that the methods reassign. Each method is specified
  by a pure step function on the object's value (`ConeAddFlavor`,
  `ConeAddTopping`, `DishAddFlavor`), and the rules are stated on those.
- `Shop.dfy` (module `Shop`): the `IceCreamShop` class, whose
  `PrepareIceCreamDish` runs the two loops and whose `Submit` charges after it.
  `Prepare` is the same preparation on values. `Expected` describes the result
  independently: the first flavour that cannot go on the dish decides the
  error. The lemmas connect the two and derive the shop's promises.
- `Scenarios.dfy` (module `Scenarios`): the seven unit-test scenarios, plus one
  where the vegan and capacity checks compete, as client methods that submit an
  order and assert the outcome.

The stock and the billing system are interfaces whose implementations are not
part of the shop. They are modelled as stand-in classes that log every call.
The stock answers its k-th availability question from a script of answers and
says "no" once the script runs out, which covers both the always-available mock
and the counting mock of the tests. `GrabCone` hands out a new, empty cone.
The billing system records each charged order.

Exceptions become results: `Result<T>` (`Ok` or `Err(error)`) for the
operations that return a value, `Outcome` (`Pass` or `Fail(error)`) for the
void ones. A method that throws in the source makes the same state changes
before returning the failure here.

A vegan order containing chocolate, and an order with more flavours than its
portion holds, are always refused. The error is not always `VeganMismatch` or
`PortionSizeExceeded`, though: the code reports whichever check fails first, flavour by
flavour. Within one flavour the stock is asked first, then the vegan check
runs, then the capacity check, so a vegan dish offered chocolate as one flavour
too many reports `VeganMismatch`. The model follows the code (`Refusal`,
`VeganOrderWithChocolateIsRefused`, `OversizedOrderIsRefused`).

## Model

| member | source | states |
|---|---|---|
| `Menu.Capacity` | IceCreamShop/IceCreamShop.cs:152-157 | a portion size holds 1, 2 or 3 flavours: 1 exactly for Small, 3 exactly for Large |
| `Menu.IsVeganFlavor` | IceCreamShop/IceCreamShop.cs:143 | a flavour is vegan exactly when it is Vanilla or Strawberry, so chocolate alone is refused on a vegan dish |
| `Menu.ToppingsOf` | IceCreamShop/IceCreamShop.cs:42 | the toppings added are the order's list, or none when the list is null |
| `Dishes.ConeAddFlavor` | IceCreamShop/IceCreamShop.cs:92-105 | a cone with a topping throws FlavorAfterTopping and is unchanged; otherwise the flavour is appended last, and the add passes exactly when the new count is within capacity, else throws PortionSizeExceeded with the flavour kept |
| `Dishes.ConeAddTopping` | IceCreamShop/IceCreamShop.cs:107-110 | a topping is appended last, the flavours are unchanged, and every later flavour add on that cone throws FlavorAfterTopping |
| `Dishes.DishAddFlavor` | IceCreamShop/IceCreamShop.cs:70-78 | the add throws VeganMismatch exactly when the dish is vegan and the flavour is chocolate, leaving the cone untouched; in every other case it is the cone's own add |
| `Dishes.Cone.constructor` | IceCreamShop/IceCreamShop.cs:86-90 | a new cone has no flavours and no toppings, and its capacity is the integer value of its portion size |
| `Dishes.Cone.AddFlavor` | IceCreamShop/IceCreamShop.cs:92-105 | the cone's new lists and the outcome are those of ConeAddFlavor on its old lists |
| `Dishes.Cone.AddTopping` | IceCreamShop/IceCreamShop.cs:107-110 | the cone's new lists are those of ConeAddTopping on its old lists |
| `Dishes.IceCreamDish.constructor` | IceCreamShop/IceCreamShop.cs:68 | a new dish wraps the given cone with the given vegan flag |
| `Dishes.IceCreamDish.AddFlavor` | IceCreamShop/IceCreamShop.cs:70-78 | the cone's new lists and the outcome are those of DishAddFlavor with the dish's vegan flag |
| `Dishes.IceCreamDish.AddTopping` | IceCreamShop/IceCreamShop.cs:80-83 | the cone's new lists are those of ConeAddTopping |
| `Dishes.ToppingSealsDish` | IceCreamShop/IceCreamShop.cs:94-97 | once a dish has a topping, after any further calls its flavours are unchanged and every flavour add throws, FlavorAfterTopping unless a vegan dish is offered chocolate |
| `Shop.Stock.GrabCone` | IceCreamShop/IceCreamShop.cs:58 | the stock hands out a new, empty cone of the requested kind and size and logs the request |
| `Shop.Stock.HasFlavorAvailable` | IceCreamShop/IceCreamShop.cs:60 | the k-th availability question gets the k-th scripted answer and is logged |
| `Shop.Billing.Charge` | IceCreamShop/IceCreamShop.cs:65 | charging appends the order to the billing log |
| `Shop.PourFlavors` | IceCreamShop/IceCreamShop.cs:32-40 | the flavour loop asks at most one question per flavour, asks about every flavour when it passes, leaves cone kind, size and toppings alone |
| `Shop.PouredFlavorsWereAsked` | IceCreamShop/IceCreamShop.cs:32-40 | from any starting cone, the loop adds the asked flavours in order: all of them on success; on a refusal at flavour k, those before k, and k itself only when the refusal is PortionSizeExceeded (an out-of-stock, vegan or topping refusal adds nothing) |
| `Shop.Prepare` | IceCreamShop/IceCreamShop.cs:27-48 | preparation on values asks at most one question per flavour and at least one before failing; a prepared dish has every flavour asked about, the order's vegan flag, cone kind and size, and the order's toppings (none when null) |
| `Shop.Refusal` | IceCreamShop/IceCreamShop.cs:34-39 | the error for a refused flavour follows the order of the checks: OutOfStock exactly when the stock says no, VeganMismatch exactly when it is in stock and is chocolate on a vegan dish, never FlavorAfterTopping, otherwise PortionSizeExceeded |
| `Shop.FirstRefused` | IceCreamShop/IceCreamShop.cs:32-40 | the least flavour position that is out of stock, refused by the dish or beyond capacity, or the flavour count if there is none |
| `Shop.PourFromPrefix` | IceCreamShop/IceCreamShop.cs:32-40 | resuming the flavour loop after the first i flavours agrees with the first refused flavour k from i on: the full cone on success; otherwise k+1 questions, its error, and a cone holding the flavours before k, plus k only when it overflowed the portion |
| `Shop.PrepareIsExpected` | IceCreamShop/IceCreamShop.cs:27-48 | for every order and stock, preparation equals Expected: all flavours and toppings as ordered when nothing is refused, else the first refused flavour's error after asking up to it |
| `Shop.PreparedExactlyWhenAllAdmissible` | IceCreamShop/IceCreamShop.cs:27-48 | preparation succeeds if and only if every flavour is in stock, a vegan order has no chocolate, and the flavours fit the portion |
| `Shop.PreparedDishMatchesOrder` | IceCreamShop/IceCreamShop.cs:29-47 | a prepared dish has the order's vegan flag, cone kind, size, flavours in order and toppings (none when null), within capacity and chocolate-free if vegan, after asking about every flavour |
| `Shop.OutOfStockStopsPreparation` | IceCreamShop/IceCreamShop.cs:32-37 | a "no" for flavour n makes preparation fail with no question after flavour n; if all earlier flavours went on, the error is OutOfStock after n+1 questions |
| `Shop.VeganOrderWithChocolateIsRefused` | IceCreamShop/IceCreamShop.cs:72-75 | a vegan order with chocolate always fails; when every flavour up to the first chocolate is in stock and every flavour before it fits, the error is VeganMismatch raised on it, even if the chocolate itself would overflow the portion |
| `Shop.OversizedOrderIsRefused` | IceCreamShop/IceCreamShop.cs:99-104 | an order with more flavours than the portion holds always fails; with those flavours in stock and allowed, the error is PortionSizeExceeded on the flavour that overflows |
| `Shop.PreparationNeverSeesFlavorAfterTopping` | IceCreamShop/IceCreamShop.cs:42-45 | preparation never fails with FlavorAfterTopping, since toppings go on after the last flavour |
| `Shop.IceCreamShop.constructor` | IceCreamShop/IceCreamShop.cs:14-18 | the shop keeps the stock and the billing system it is given |
| `Shop.IceCreamShop.PrepareIceCreamDish` | IceCreamShop/IceCreamShop.cs:27-48 | takes one cone, asks exactly the questions Prepare asks, in flavour order, and returns a new dish whose value is Prepare's dish, or Prepare's error |
| `Shop.IceCreamShop.Submit` | IceCreamShop/IceCreamShop.cs:20-25 | as PrepareIceCreamDish, and the billing log gains the order exactly once on success and not at all on failure |

## Left out

- Exception messages and the exception classes themselves: each exception is one `Error` value.
- Failures inside the billing system: `Charge` here always succeeds. In the source an exception from `Charge` propagates out of `Submit` after the dish is complete.
- The internals of the stock and the billing system: they are foreign interfaces, replaced by logging stand-ins.
- A stock that hands out a used cone, or a cone of another kind or size, is not modelled. The shop trusts the stock to give a new cone as ordered.
- A null flavour array in an order, which makes the source throw a NullReferenceException: sequences here are never null.
- Portion-size and other enum values outside the declared members, which C# allows by casting an integer: the enumerations here are closed datatypes.
- C# record equality and `with` copies, which the shop does not use.
- Direct changes to the cone's public lists by clients: the `flavors` and `toppings` fields are public, and any client allowed to modify a cone may assign them; no code here changes them except `AddFlavor` and `AddTopping`, and the lemmas about a dish's cone assume no other code does.
- The xUnit, Moq and FluentAssertions harness: only its scenarios are kept, as client methods in `Scenarios.dfy`.
