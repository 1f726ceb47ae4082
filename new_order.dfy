/** The new-order form: the static pizza menu, the autocomplete over it, and the
    form state with its running total, which always equals the sum of the prices
    of the selected pizzas. */
module NewOrder {
  import opened Seqs
  import opened Text

  datatype Pizza = Pizza(name: string, price: int)

  /** The four menu items. Every price is a positive whole number. */
  function PizzaOptions(): (r: seq<Pizza>)
    ensures |r| == 4
    ensures forall i :: 0 <= i < |r| ==> r[i].price > 0
  {
    [Pizza("Margherita", 10), Pizza("Pepperoni", 12), Pizza("Veggie", 11), Pizza("BBQ Chicken", 13)]
  }

  // ---------------------------------------------------------------------------
  // Autocomplete

  /** The pizza's lower-cased name contains the lower-cased input. */
  predicate NameMatches(input: string, pizza: Pizza): (b: bool)
    ensures input == "" ==> b
  {
    ContainsEmpty(Lower(pizza.name));
    Contains(Lower(pizza.name), Lower(input))
  }

  /** The suggestions for `input`: the items of `menu` whose name contains it, ignoring
      ASCII case, in menu order. The form passes `PizzaOptions()`. */
  function Autocomplete(input: string, menu: seq<Pizza>): (r: seq<Pizza>)
    ensures IsSubsequence(r, menu)
    ensures forall p :: p in r <==> p in menu && NameMatches(input, p)
    ensures forall p :: multiset(r)[p] == if NameMatches(input, p) then multiset(menu)[p] else 0
  {
    FilterCounts((p: Pizza) => NameMatches(input, p), menu);
    Filter((p: Pizza) => NameMatches(input, p), menu)
  }

  /** Empty input matches the whole menu. */
  lemma AutocompleteEmpty(menu: seq<Pizza>)
    ensures Autocomplete("", menu) == menu
  {
    FilterKeepsAll((p: Pizza) => NameMatches("", p), menu);
  }

  /** Only the lower-cased input matters: typing in capitals gives the same suggestions. */
  lemma AutocompleteIgnoresCase(input: string, menu: seq<Pizza>)
    ensures Autocomplete(input, menu) == Autocomplete(Lower(input), menu)
  {
    LowerIdempotent(input);
    FilterCongruent((p: Pizza) => NameMatches(input, p), (p: Pizza) => NameMatches(Lower(input), p), menu);
  }

  /** BBQ Chicken's name contains "chick" once both are lower-cased. */
  lemma ChickMatchesBbqChicken(menu: seq<Pizza>)
    requires menu == PizzaOptions()
    ensures NameMatches("CHICK", menu[3])
  {
    assert Lower("CHICK") == "chick";
    assert Lower(menu[3].name) == "bbq chicken";
    assert OccursAt("bbq chicken", "chick", 4);
  }

  /** No other menu item has a name containing "chick" in any case. */
  lemma ChickMissesOthers(menu: seq<Pizza>)
    requires menu == PizzaOptions()
    ensures !NameMatches("CHICK", menu[0]) && !NameMatches("CHICK", menu[1]) && !NameMatches("CHICK", menu[2])
  {
    assert Lower("CHICK") == "chick";
    assert Lower(menu[0].name) == "margherita";
    assert Lower(menu[1].name) == "pepperoni";
    assert Lower(menu[2].name) == "veggie";
    NotContains("margherita", "chick");
    NotContains("pepperoni", "chick");
    NotContains("veggie", "chick");
  }

  /** Typing "CHICK" suggests BBQ Chicken alone: the search ignores case. */
  lemma AutocompleteExample(menu: seq<Pizza>)
    requires menu == PizzaOptions()
    ensures Autocomplete("CHICK", menu) == [menu[3]]
  {
    ChickMatchesBbqChicken(menu);
    ChickMissesOthers(menu);
    FilterFour((x: Pizza) => NameMatches("CHICK", x), menu[0], menu[1], menu[2], menu[3], false, false, false, true);
    assert menu == [menu[0], menu[1], menu[2], menu[3]];
    assert [] + [] + [] + [menu[3]] == [menu[3]];
  }

  /** The dropdown is shown when something was typed and something matched. */
  predicate DropdownOpen(input: string, suggestions: seq<Pizza>)
  {
    |input| > 0 && |suggestions| > 0
  }

  // ---------------------------------------------------------------------------
  // Prices

  /** The sum of the prices of a list of pizzas. */
  function Total(list: seq<Pizza>): int
  {
    if list == [] then 0 else list[0].price + Total(list[1..])
  }

  lemma {:induction false} TotalConcat(a: seq<Pizza>, b: seq<Pizza>)
    ensures Total(a + b) == Total(a) + Total(b)
    decreases |a|
  {
    if a == [] {
      assert a + b == b;
    } else {
      assert (a + b)[1..] == a[1..] + b;
      TotalConcat(a[1..], b);
    }
  }

  /** With positive prices, as on the menu, a total is never negative and is zero
      exactly for the empty list. */
  lemma {:induction false} TotalOfPositivePrices(list: seq<Pizza>)
    requires forall p :: p in list ==> p.price > 0
    ensures Total(list) >= 0
    ensures Total(list) == 0 <==> list == []
    decreases |list|
  {
    if list != [] {
      TotalOfPositivePrices(list[1..]);
      assert list[0] in list;
    }
  }

  /** The list without its `index`-th entry, the others kept in order
      (`filter((_, i) => i !== index)`). */
  function RemoveAt(list: seq<Pizza>, index: int): (r: seq<Pizza>)
    requires 0 <= index < |list|
    ensures |r| == |list| - 1
    ensures forall k :: 0 <= k < index ==> r[k] == list[k]
    ensures forall k :: index <= k < |r| ==> r[k] == list[k + 1]
    ensures Total(r) == Total(list) - list[index].price
  {
    assert list == list[..index] + [list[index]] + list[index + 1..];
    TotalConcat(list[..index] + [list[index]], list[index + 1..]);
    TotalConcat(list[..index], [list[index]]);
    TotalConcat(list[..index], list[index + 1..]);
    list[..index] + list[index + 1..]
  }

  /** The names of the pizzas, in order. */
  function Names(list: seq<Pizza>): (r: seq<string>)
    ensures |r| == |list| && forall i :: 0 <= i < |list| ==> r[i] == list[i].name
  {
    if list == [] then [] else [list[0].name] + Names(list[1..])
  }

  // ---------------------------------------------------------------------------
  // The form

  /** What the form reports on a successful submission. */
  datatype Receipt = Receipt(
    customerName: string,
    phoneNumber: string,
    orderNumber: string,
    pizzas: seq<string>,
    totalPrice: int)

  datatype Submission = Rejected | Submitted(receipt: Receipt)

  class NewOrderForm {
    /** The menu the form offers: `PizzaOptions()`. */
    const menu: seq<Pizza>
    var customerName: string
    var phoneNumber: string
    var orderNumber: string
    var pizzaInput: string
    var totalPrice: int
    var pizzaList: seq<Pizza>
    var filteredPizzas: seq<Pizza>
    var isDropdownOpen: bool

    /** The running total is the sum of the selected prices; everything selected or
        suggested comes from the menu; an open dropdown shows the suggestions for
        the current, non-empty input. */
    ghost predicate Valid()
      reads this
    {
      (forall p :: p in menu ==> p.price > 0) &&
      totalPrice == Total(pizzaList) &&
      (forall p :: p in pizzaList ==> p in menu) &&
      (forall p :: p in filteredPizzas ==> p in menu) &&
      (isDropdownOpen ==> filteredPizzas == Autocomplete(pizzaInput, menu) && DropdownOpen(pizzaInput, filteredPizzas))
    }

    /** A fresh form; the order number, drawn at random by the page, is a parameter. */
    constructor (orderNumber: string)
      ensures Valid()
      ensures customerName == "" && phoneNumber == "" && this.orderNumber == orderNumber
      ensures pizzaInput == "" && totalPrice == 0 && pizzaList == []
      ensures menu == PizzaOptions() && filteredPizzas == PizzaOptions() && !isDropdownOpen
    {
      menu := PizzaOptions();
      customerName := "";
      phoneNumber := "";
      this.orderNumber := orderNumber;
      pizzaInput := "";
      totalPrice := 0;
      pizzaList := [];
      filteredPizzas := menu;
      isDropdownOpen := false;
    }

    /** The name field's change handler. */
    method SetCustomerName(value: string)
      requires Valid()
      modifies this`customerName
      ensures Valid()
      ensures customerName == value
    {
      customerName := value;
    }

    /** The phone field's change handler. */
    method SetPhoneNumber(value: string)
      requires Valid()
      modifies this`phoneNumber
      ensures Valid()
      ensures phoneNumber == value
    {
      phoneNumber := value;
    }

    /** `handlePizzaInputChange`: records the input, recomputes the suggestions and
        opens the dropdown only for a non-empty input with at least one suggestion. */
    method PizzaInputChange(inputValue: string)
      requires Valid()
      modifies this`pizzaInput, this`filteredPizzas, this`isDropdownOpen
      ensures Valid()
      ensures pizzaInput == inputValue && filteredPizzas == Autocomplete(inputValue, menu)
      ensures isDropdownOpen <==> DropdownOpen(inputValue, filteredPizzas)
    {
      pizzaInput := inputValue;
      var filtered := Autocomplete(inputValue, menu);
      filteredPizzas := filtered;
      isDropdownOpen := |inputValue| > 0 && |filtered| > 0;
    }

    /** `handlePizzaSelect`: appends a suggested pizza, adds its price, clears the
        input and closes the dropdown; the earlier selections stay as they were. */
    method PizzaSelect(pizza: Pizza)
      requires Valid() && pizza in filteredPizzas
      modifies this`pizzaList, this`totalPrice, this`pizzaInput, this`isDropdownOpen
      ensures Valid()
      ensures pizzaList == old(pizzaList) + [pizza]
      ensures totalPrice == old(totalPrice) + pizza.price
      ensures pizzaInput == "" && !isDropdownOpen
    {
      TotalConcat(pizzaList, [pizza]);
      pizzaList := pizzaList + [pizza];
      totalPrice := totalPrice + pizza.price;
      pizzaInput := "";
      isDropdownOpen := false;
    }

    /** `handleRemovePizza`: drops the `index`-th selection and subtracts its price;
        the total never goes below zero and is zero once the list is empty. */
    method RemovePizza(index: int)
      requires Valid() && 0 <= index < |pizzaList|
      modifies this`pizzaList, this`totalPrice
      ensures Valid()
      ensures pizzaList == RemoveAt(old(pizzaList), index)
      ensures totalPrice == old(totalPrice) - old(pizzaList)[index].price
      ensures totalPrice >= 0 && (totalPrice == 0 <==> pizzaList == [])
    {
      var removed := pizzaList[index];
      pizzaList := RemoveAt(pizzaList, index);
      totalPrice := totalPrice - removed.price;
      TotalOfPositivePrices(pizzaList);
    }

    /** `handleSubmitOrder`: rejects a form with an empty name, an empty phone number
        or no pizza; otherwise reports the order. Neither outcome changes the form. */
    method SubmitOrder() returns (r: Submission)
      requires Valid()
      ensures r.Rejected? <==> customerName == "" || phoneNumber == "" || pizzaList == []
      ensures r.Submitted? ==>
                r.receipt == Receipt(customerName, phoneNumber, orderNumber, Names(pizzaList), Total(pizzaList)) &&
                r.receipt.totalPrice > 0
    {
      if customerName == "" || phoneNumber == "" || |pizzaList| == 0 {
        return Rejected;
      }
      TotalOfPositivePrices(pizzaList);
      r := Submitted(Receipt(customerName, phoneNumber, orderNumber, Names(pizzaList), totalPrice));
    }
  }

  /** Typing `input` into the pizza field and then picking `pizza` from the dropdown, which
      shows it because its name matches: the pizza is appended, its price added, the input
      cleared and the dropdown closed; the name, phone and order number stay as they were. */
  method TypeAndPick(form: NewOrderForm, input: string, pizza: Pizza)
    requires form.Valid() && input != "" && pizza in form.menu && NameMatches(input, pizza)
    modifies form`pizzaInput, form`filteredPizzas, form`isDropdownOpen, form`pizzaList, form`totalPrice
    ensures form.Valid()
    ensures form.pizzaList == old(form.pizzaList) + [pizza]
    ensures form.totalPrice == old(form.totalPrice) + pizza.price
    ensures form.pizzaInput == "" && !form.isDropdownOpen
  {
    form.PizzaInputChange(input);
    assert form.isDropdownOpen;
    form.PizzaSelect(pizza);
  }

  /** Margherita's name contains "marg". */
  lemma MargMatchesMargherita(menu: seq<Pizza>)
    requires menu == PizzaOptions()
    ensures NameMatches("marg", menu[0])
  {
    assert Lower("marg") == "marg";
    assert Lower(menu[0].name) == "margherita";
    assert OccursAt("margherita", "marg", 0);
  }

  /** Typing "marg" and picking Margherita, then "CHICK" and picking BBQ Chicken, costs 23; removing the first selection
      leaves BBQ Chicken alone at 13. */
  method SelectThenRemove() returns (totalAfterSelect: int, totalAfterRemove: int, listAfterRemove: seq<Pizza>)
    ensures totalAfterSelect == 23
    ensures totalAfterRemove == 13 && listAfterRemove == [Pizza("BBQ Chicken", 13)]
  {
    var form := new NewOrderForm("ORD-42");
    MargMatchesMargherita(form.menu);
    TypeAndPick(form, "marg", form.menu[0]);
    ChickMatchesBbqChicken(form.menu);
    TypeAndPick(form, "CHICK", form.menu[3]);
    totalAfterSelect := form.totalPrice;
    form.RemovePizza(0);
    totalAfterRemove := form.totalPrice;
    listAfterRemove := form.pizzaList;
  }
}
