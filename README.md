# Pizza dashboard: orders page and new-order form

A Dafny model of the two logic-bearing parts of a small pizza-shop dashboard:

- **The orders page** (`app/orders/page.tsx`). It holds order records, each with an
  order number, customer, phone, pizzas, a price string, a status and a `YYYY-MM-DD`
  date. The page starts from four hard-coded orders. It shows the orders matching a
  status selector and an inclusive date range. Its handlers rewrite the status of an
  order or delete it.
- **The new-order form** (`components/new-order.tsx`). It has a four-item menu and a
  case-insensitive autocomplete over it. It keeps a list of chosen pizzas with a
  separately tracked running total, and its submit button rejects incomplete forms.

Files and modules:

- `seqs.dfy` (`Seqs`): the order-preserving filter behind `Array.prototype.filter`.
  It is proved to return a subsequence that keeps every occurrence of an accepted
  value and no rejected one.
- `text.dfy` (`Text`): ASCII lower-casing, substring search (`includes`) and
  JavaScript's `<` on strings, with irreflexivity and trichotomy.
- `dates.dfy` (`Dates`): on zero-padded `YYYY-MM-DD` strings with a four-digit year,
  string order is exactly (year, month, day) order. This is why the page may compare
  dates as strings for four-digit years. A date input may also yield a longer year,
  such as `10000-01-01`; string order then differs from calendar order.
- `orders.dfy` (`Orders`): the record, the initial list and the filter predicate. It
  also holds the list rewrites of `updateStatus` and `deleteOrder` as functions, and the
  page state as the class `OrdersPage` with fields `orders` and `filteredOrders`.
- `new_order.dfy` (`NewOrder`): the menu, the autocomplete and the price total. The
  form state is the class `NewOrderForm`. Its invariant `Valid()` says that
  `totalPrice` equals the sum of the prices in `pizzaList`, that everything chosen or
  suggested comes from the menu, and that an open dropdown shows the suggestions for
  the current non-empty input.

The status is the datatype `Status`, so an order's status is always one of the three
permitted values, before and after every rewrite.

The page re-filters after a status change or a deletion. It does so from the list it
saw before the change, because the handler's `orders` was captured when the page was
drawn. `OrdersPage.UpdateStatus` and `OrdersPage.DeleteOrder` therefore set
`filteredOrders` from `old(orders)`. `DeleteThenRefilter` shows the consequence: a
deleted order stays on display until the filter is applied again. The model keeps this
behaviour as the code has it.

## Model

| member | source | states |
|---|---|---|
| `Seqs.Filter` | app/orders/page.tsx:36-40 | the result is a subsequence of the input, no longer than it, whose elements are exactly the input's elements that satisfy the predicate |
| `Seqs.FilterCounts` | app/orders/page.tsx:36-40 | every accepted value keeps all its occurrences and every rejected value has none, which with the subsequence property fixes the result |
| `Seqs.FilterKeepsAll` | app/orders/page.tsx:36-40 | a predicate true of every element leaves the list unchanged |
| `Text.LowerChar` | components/new-order.tsx:47 | ASCII capitals move to lower case, every other character is kept, and the result is never an ASCII capital |
| `Text.Lower` | components/new-order.tsx:47 | `toLowerCase` on ASCII: same length, each ASCII capital replaced by its lower-case letter (code + 32), every other character kept in place, and no ASCII capital left |
| `Text.Contains` | components/new-order.tsx:47 | `includes`: some position of the text starts an occurrence of the searched string |
| `Text.Less` | app/orders/page.tsx:38 | JavaScript `<` on strings: the first differing character decides, and a proper prefix is smaller; `>=` and `<=` are its negations with the arguments in place or swapped |
| `Text.LowerIdempotent` | components/new-order.tsx:47 | lower-casing twice is lower-casing once, and lower-casing leaves a string unchanged exactly when it holds no ASCII capital |
| `Text.ContainsEmpty` | components/new-order.tsx:47 | the empty string is contained in every string |
| `Text.LessIrreflexive` | app/orders/page.tsx:38 | no string is less than itself, so `d >= d` and `d <= d` hold |
| `Text.LessTrichotomy` | app/orders/page.tsx:38 | two different strings are ordered one way and only one way |
| `Dates.LessIsNumeric` | app/orders/page.tsx:38 | on digit strings of equal length, string order is numeric order and string equality is numeric equality |
| `Dates.StringOrderIsCalendarOrder` | app/orders/page.tsx:38 | on well-formed `YYYY-MM-DD` dates, string `<` is (year, month, day) order and equality is equality of the three fields |
| `Orders.Status` | app/orders/page.tsx:15 | the three values an order's status may take: preparing, ready, cancelled |
| `Orders.Order` | app/orders/page.tsx:9-17 | the order record: number, customer name, phone, pizza names, price string, status and date string |
| `Orders.StatusFilter` | app/orders/page.tsx:32-37 | the value of the status selector: `all` or one of the three statuses |
| `Orders.InitialOrders` | app/orders/page.tsx:20-25 | the four initial orders have pairwise distinct numbers and well-formed dates |
| `Orders.StatusMatch` | app/orders/page.tsx:37 | an order passes the status test when the selector is `all` or names the order's status |
| `Orders.DateMatch` | app/orders/page.tsx:38 | an order passes the date test when either bound is empty, or when its date is neither before the start nor after the end in string order |
| `Orders.Matches` | app/orders/page.tsx:36-39 | the filter callback: both the status test and the date test hold |
| `Orders.Filtered` | app/orders/page.tsx:36-40 | the filter result is a subsequence of the orders, in their order, holding every occurrence of each order that passes the status and date test and nothing else |
| `Orders.FilterAllKeepsEverything` | app/orders/page.tsx:37-38 | with `all` and an empty date bound the filter returns the whole list unchanged |
| `Orders.DateBoundsInclusive` | app/orders/page.tsx:38 | an order dated exactly on the start or the end date passes the date test when start is not after end |
| `Orders.DateMatchIsCalendarRange` | app/orders/page.tsx:38 | on well-formed dates, the string test is the calendar test start <= date <= end |
| `Orders.InitialMatches` | app/orders/page.tsx:20-40 | of the initial orders, ORD-12345 and ORD-12348 pass `preparing` from 2025-03-17 to 2025-03-19, while ORD-12346 and ORD-12347 fail on status |
| `Orders.FilteredFirstAndLast` | app/orders/page.tsx:36-40 | of four orders, a filter that passes exactly the first and the last returns those two, in order |
| `Orders.FilterInitialExample` | app/orders/page.tsx:20-40 | that filter on the initial list returns exactly ORD-12345 then ORD-12348 |
| `Orders.WithStatus` | app/orders/page.tsx:47-50 | the status rewrite keeps length and order, gives matching orders the new status, keeps every other field of them, and leaves other orders untouched |
| `Orders.Without` | app/orders/page.tsx:57 | deletion yields, in order, exactly the orders whose number differs from the argument, each with all its occurrences |
| `Orders.WithoutAbsent` | app/orders/page.tsx:57 | deleting a number no order carries leaves the list unchanged |
| `Orders.WithoutPresent` | app/orders/page.tsx:57 | in a list with unique numbers, deleting the number of the i-th order removes exactly that order |
| `Orders.SubsequenceUnique` | app/orders/page.tsx:57 | a subsequence of a list with unique order numbers has unique order numbers |
| `Orders.WithStatusKeepsNumbersUnique` | app/orders/page.tsx:47-50 | the status rewrite keeps order numbers unique |
| `Orders.WithoutKeepsNumbersUnique` | app/orders/page.tsx:57 | the deletion keeps order numbers unique |
| `Orders.DeleteInitialExample` | app/orders/page.tsx:57 | deleting ORD-12347 from the initial list leaves three orders, none of them ORD-12347 |
| `Orders.OrdersPage.constructor` | app/orders/page.tsx:28-29 | both the list and the displayed list start as the initial orders |
| `Orders.OrdersPage.FilterOrders` | app/orders/page.tsx:31-43 | the displayed list becomes the filter of the current list and the list is unchanged |
| `Orders.OrdersPage.UpdateStatus` | app/orders/page.tsx:45-54 | the list becomes the status rewrite of the old list, the displayed list becomes the filter of the old list, and numbers stay unique |
| `Orders.OrdersPage.DeleteOrder` | app/orders/page.tsx:56-60 | the list becomes the old list without that number, the displayed list becomes the filter of the old list, and numbers stay unique |
| `Orders.DeleteThenRefilter` | app/orders/page.tsx:56-60 | after deleting ORD-12347 the display still lists it; after the filter is applied again the display shows three orders without it |
| `NewOrder.PizzaOptions` | components/new-order.tsx:20-25 | the menu has four items, each with a positive price |
| `NewOrder.Pizza` | components/new-order.tsx:15-18 | a menu item: name and whole-number price |
| `NewOrder.NameMatches` | components/new-order.tsx:47 | the autocomplete test: the lower-cased name contains the lower-cased input, so an empty input matches every item |
| `NewOrder.Autocomplete` | components/new-order.tsx:46-48 | suggestions are a subsequence of the menu holding exactly the items whose lower-cased name contains the lower-cased input, with their multiplicity |
| `NewOrder.AutocompleteEmpty` | components/new-order.tsx:46-48 | an empty input matches the whole menu |
| `NewOrder.AutocompleteIgnoresCase` | components/new-order.tsx:46-48 | an input and its lower-cased form give the same suggestions |
| `NewOrder.AutocompleteExample` | components/new-order.tsx:20-48 | typing `CHICK` suggests BBQ Chicken alone |
| `NewOrder.DropdownOpen` | components/new-order.tsx:50 | the dropdown is shown when the input is non-empty and at least one item is suggested |
| `NewOrder.Total` | components/new-order.tsx:55 | the sum of the prices of a list of pizzas, the value the form's running total must always equal |
| `NewOrder.TotalOfPositivePrices` | components/new-order.tsx:20-25 | with positive prices a total is never negative and is zero exactly for the empty list |
| `NewOrder.RemoveAt` | components/new-order.tsx:62 | dropping the index-th entry keeps the others in order and lowers the total by that entry's price |
| `NewOrder.Names` | components/new-order.tsx:72 | the names of the chosen pizzas, one per entry, in order |
| `NewOrder.NewOrderForm.constructor` | components/new-order.tsx:28-39 | empty fields, total 0, empty list, all menu items suggested, dropdown closed, and the invariant holds |
| `NewOrder.NewOrderForm.SetCustomerName` | components/new-order.tsx:97 | only the customer name changes, to the typed value, and the form invariant is kept |
| `NewOrder.NewOrderForm.SetPhoneNumber` | components/new-order.tsx:108 | only the phone number changes, to the typed value, and the form invariant is kept |
| `NewOrder.NewOrderForm.PizzaInputChange` | components/new-order.tsx:41-51 | the input is recorded, the suggestions become the autocomplete of it, and the dropdown is open iff the input is non-empty and something matched |
| `NewOrder.NewOrderForm.PizzaSelect` | components/new-order.tsx:53-58 | the pizza is appended after the earlier entries, its price is added, the input is cleared, the dropdown closes, and total == sum of prices is kept |
| `NewOrder.NewOrderForm.RemovePizza` | components/new-order.tsx:60-64 | exactly the index-th entry is removed and its price subtracted; the total stays the sum of prices, is never negative, and is 0 once the list is empty |
| `NewOrder.NewOrderForm.SubmitOrder` | components/new-order.tsx:66-73 | rejected iff name, phone or pizza list is empty; otherwise reports the form with a positive total equal to the sum of prices; the form never changes |
| `NewOrder.TypeAndPick` | components/new-order.tsx:41-58 | typing a non-empty input that matches a menu item and picking that item appends it and adds its price; the input is cleared and the dropdown closed; the form invariant holds; only the pizza fields change, so name, phone and order number stay (the body proves the dropdown is open before the pick) |
| `NewOrder.SelectThenRemove` | components/new-order.tsx:41-64 | typing `marg` and choosing Margherita, then `CHICK` and choosing BBQ Chicken, gives 23; removing entry 0 gives 13 and the list [BBQ Chicken] |

## Left out

- Rendering, `alert(...)` messages and React's state scheduling are not modelled. Each handler is one method whose assignments take effect together.
- `document.getElementById` reads in `filterOrders` become the parameters `statusFilter`, `startDate` and `endDate` of the class methods.
- The order number drawn with `Math.random` when the form opens (components/new-order.tsx:37-39) is a constructor parameter, because it is random.
- `toLowerCase` is modelled for ASCII letters only. Full Unicode case mapping is not modelled.
- String `<` compares UTF-16 code units in JavaScript; the model compares Dafny characters (Unicode scalar values). The two differ only for characters outside the Basic Multilingual Plane.
- The select value behind `updateStatus` is cast to the status type without a check (app/orders/page.tsx:46). The select offers only the three statuses, so the model takes a `Status`.
- `NewOrder.NewOrderForm.RemovePizza` requires an index inside the list. The source reads `pizzaList[index].price` and would throw otherwise, but only the rendered list, with valid indices, calls it.
- `NewOrder.NewOrderForm.PizzaSelect` requires the pizza to be one of the current suggestions, because only the dropdown calls it. It does not require the dropdown to be open.
- `NewOrder.NewOrderForm.SubmitOrder` returns the reported fields as a `Receipt`. The source only shows them in an alert; the `", "` join of names and the `$` formatting are left out.
- The form holds the menu in a constant field `menu`, set to `PizzaOptions()` by the constructor. Its invariant keeps only what the proofs need of it: positive prices.
- The page has no code path that adds an order, and the form's submit adds nothing to the page. No append operation is modelled.
- An order's `totalPrice` is the display string of the source (`"$10"`). It is kept as a string and not reconciled with its pizzas.
- `components/section-cards.tsx` is not part of this model: a network request and floating-point display.
- `components/chart-area-interactive.tsx` and `app/sales/page.tsx` are not part of this model: random chart data, date arithmetic and static charts.
