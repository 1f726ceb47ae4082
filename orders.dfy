/** The orders page: the order records, the initial list, the status/date
    filter and the two handlers that rewrite the list (`updateStatus`,
    `deleteOrder`). */
module Orders {
  import opened Seqs
  import opened Text
  import Dates

  /** The three values an order's status may take. */
  datatype Status = Preparing | Ready | Cancelled

  datatype Order = Order(
    orderNumber: string,
    customerName: string,
    phoneNumber: string,
    pizzas: seq<string>,
    totalPrice: string,
    status: Status,
    date: string)

  /** The value of the status selector: `all` or one status. */
  datatype StatusFilter = All | Only(status: Status)

  /** No two orders share an order number. */
  predicate UniqueNumbers(orders: seq<Order>)
  {
    forall i, j :: 0 <= i < j < |orders| ==> orders[i].orderNumber != orders[j].orderNumber
  }

  /** The four hard-coded orders the page starts with. */
  function InitialOrders(): (r: seq<Order>)
    ensures |r| == 4 && UniqueNumbers(r)
    ensures forall i :: 0 <= i < |r| ==> Dates.WellFormed(r[i].date)
  {
    var r := [
      Order("ORD-12345", "Sarath", "123-456-7890", ["Margherita"], "$10", Preparing, "2025-03-19"),
      Order("ORD-12346", "Harsha", "987-654-3210", ["Pepperoni", "Veggie"], "$22", Ready, "2025-03-19"),
      Order("ORD-12347", "Swaran", "555-123-9876", ["BBQ Chicken"], "$13", Cancelled, "2025-03-18"),
      Order("ORD-12348", "Varun", "555-789-6543", ["Margherita", "BBQ Chicken"], "$23", Preparing, "2025-03-17")
    ];
    NumbersDifferAt(r, 8);
    Dates.WellFormedDate("2025-03-19");
    Dates.WellFormedDate("2025-03-18");
    Dates.WellFormedDate("2025-03-17");
    r
  }

  /** Four orders whose numbers differ at position `k` have distinct numbers. */
  lemma NumbersDifferAt(r: seq<Order>, k: nat)
    requires |r| == 4 && forall i :: 0 <= i < 4 ==> k < |r[i].orderNumber|
    requires r[0].orderNumber[k] != r[1].orderNumber[k] && r[0].orderNumber[k] != r[2].orderNumber[k]
    requires r[0].orderNumber[k] != r[3].orderNumber[k] && r[1].orderNumber[k] != r[2].orderNumber[k]
    requires r[1].orderNumber[k] != r[3].orderNumber[k] && r[2].orderNumber[k] != r[3].orderNumber[k]
    ensures UniqueNumbers(r)
  {
  }

  // ---------------------------------------------------------------------------
  // The filter predicate

  predicate StatusMatch(statusFilter: StatusFilter, o: Order)
  {
    statusFilter.All? || o.status == statusFilter.status
  }

  /** An empty bound switches the date test off; otherwise `startDate <= date <= endDate`
      in string order, both ends included. */
  predicate DateMatch(startDate: string, endDate: string, o: Order)
  {
    startDate == "" || endDate == "" || (!Less(o.date, startDate) && !Less(endDate, o.date))
  }

  predicate Matches(statusFilter: StatusFilter, startDate: string, endDate: string, o: Order)
  {
    StatusMatch(statusFilter, o) && DateMatch(startDate, endDate, o)
  }

  /** The orders kept by the filter: a subsequence of `orders`, in their order, holding
      every occurrence of a matching order and no order that does not match. */
  function Filtered(orders: seq<Order>, statusFilter: StatusFilter, startDate: string, endDate: string): (r: seq<Order>)
    ensures IsSubsequence(r, orders)
    ensures forall o :: o in r ==> o in orders && Matches(statusFilter, startDate, endDate, o)
    ensures forall o :: multiset(r)[o] == if Matches(statusFilter, startDate, endDate, o) then multiset(orders)[o] else 0
  {
    FilterCounts((o: Order) => Matches(statusFilter, startDate, endDate, o), orders);
    Filter((o: Order) => Matches(statusFilter, startDate, endDate, o), orders)
  }

  /** With `all` and a missing date bound the filter keeps the whole list. */
  lemma FilterAllKeepsEverything(orders: seq<Order>, startDate: string, endDate: string)
    requires startDate == "" || endDate == ""
    ensures Filtered(orders, All, startDate, endDate) == orders
  {
    FilterKeepsAll((o: Order) => Matches(All, startDate, endDate, o), orders);
  }

  /** The date range is inclusive: an order dated exactly on either bound passes the date test
      whenever the range is not empty. */
  lemma DateBoundsInclusive(startDate: string, endDate: string, o: Order)
    requires !Less(endDate, startDate)
    requires o.date == startDate || o.date == endDate
    ensures DateMatch(startDate, endDate, o)
  {
    LessIrreflexive(o.date);
  }

  /** On well-formed dates the string test is the calendar range test. */
  lemma DateMatchIsCalendarRange(startDate: string, endDate: string, o: Order)
    requires Dates.WellFormed(startDate) && Dates.WellFormed(endDate) && Dates.WellFormed(o.date)
    ensures DateMatch(startDate, endDate, o) <==>
              !Dates.Before(o.date, startDate) && !Dates.Before(endDate, o.date)
  {
    Dates.StringOrderIsCalendarOrder(o.date, startDate);
    Dates.StringOrderIsCalendarOrder(endDate, o.date);
  }

  /** An order with status `preparing` dated on either end of a non-empty range passes
      the filter for `preparing` on that range. */
  lemma PreparingOnBoundMatches(lo: string, hi: string, o: Order)
    requires !Less(hi, lo) && o.status == Preparing && (o.date == lo || o.date == hi)
    ensures Matches(Only(Preparing), lo, hi, o)
  {
    DateBoundsInclusive(lo, hi, o);
  }

  /** An order of another status fails the filter for one status, whatever the dates. */
  lemma OtherStatusFails(status: Status, lo: string, hi: string, o: Order)
    requires o.status != status
    ensures !Matches(Only(status), lo, hi, o)
  {
  }

  /** Of the initial orders, the first and the last are `preparing` and dated within
      `lo` to `hi` (2025-03-17 to 2025-03-19); the other two have another status. */
  lemma InitialMatches(s: seq<Order>, lo: string, hi: string)
    requires s == InitialOrders() && lo == "2025-03-17" && hi == "2025-03-19"
    ensures Matches(Only(Preparing), lo, hi, s[0]) && !Matches(Only(Preparing), lo, hi, s[1])
    ensures !Matches(Only(Preparing), lo, hi, s[2]) && Matches(Only(Preparing), lo, hi, s[3])
  {
    InitialPreparingInRange(s, lo, hi);
    OtherStatusFails(Preparing, lo, hi, s[1]);
    OtherStatusFails(Preparing, lo, hi, s[2]);
  }

  /** ORD-12345 and ORD-12348 are `preparing`, dated on the two ends of the range. */
  lemma InitialPreparingInRange(s: seq<Order>, lo: string, hi: string)
    requires s == InitialOrders() && lo == "2025-03-17" && hi == "2025-03-19"
    ensures Matches(Only(Preparing), lo, hi, s[0]) && Matches(Only(Preparing), lo, hi, s[3])
  {
    assert !Less(hi, lo);
    PreparingOnBoundMatches(lo, hi, s[0]);
    PreparingOnBoundMatches(lo, hi, s[3]);
  }

  /** Filtering the initial list for `preparing` orders from `lo` = 2025-03-17 to
      `hi` = 2025-03-19 yields ORD-12345 and then ORD-12348. */
  lemma FilterInitialExample(s: seq<Order>, lo: string, hi: string)
    requires s == InitialOrders() && lo == "2025-03-17" && hi == "2025-03-19"
    ensures Filtered(s, Only(Preparing), lo, hi) == [s[0], s[3]]
    ensures s[0].orderNumber == "ORD-12345" && s[3].orderNumber == "ORD-12348"
  {
    InitialMatches(s, lo, hi);
    FilteredFirstAndLast(s, Only(Preparing), lo, hi);
  }

  /** Of four orders, a filter that passes exactly the first and the last returns those two. */
  lemma FilteredFirstAndLast(s: seq<Order>, statusFilter: StatusFilter, startDate: string, endDate: string)
    requires |s| == 4
    requires Matches(statusFilter, startDate, endDate, s[0]) && !Matches(statusFilter, startDate, endDate, s[1])
    requires !Matches(statusFilter, startDate, endDate, s[2]) && Matches(statusFilter, startDate, endDate, s[3])
    ensures Filtered(s, statusFilter, startDate, endDate) == [s[0], s[3]]
  {
    FilterFour((o: Order) => Matches(statusFilter, startDate, endDate, o), s[0], s[1], s[2], s[3], true, false, false, true);
    assert s == [s[0], s[1], s[2], s[3]];
    assert [s[0]] + [] + [] + [s[3]] == [s[0], s[3]];
  }

  // ---------------------------------------------------------------------------
  // The list rewrites behind updateStatus and deleteOrder

  /** Every field but `status` is the same in the two records. */
  predicate SameExceptStatus(a: Order, b: Order)
  {
    a.orderNumber == b.orderNumber && a.customerName == b.customerName &&
    a.phoneNumber == b.phoneNumber && a.pizzas == b.pizzas &&
    a.totalPrice == b.totalPrice && a.date == b.date
  }

  /** The list after `updateStatus`: the orders numbered `orderNumber` get `newStatus`,
      every other field and every other order is unchanged, and the length and order stay. */
  function WithStatus(orders: seq<Order>, orderNumber: string, newStatus: Status): (r: seq<Order>)
    ensures |r| == |orders|
    ensures forall i :: 0 <= i < |r| ==> SameExceptStatus(r[i], orders[i])
    ensures forall i :: 0 <= i < |r| && orders[i].orderNumber == orderNumber ==> r[i].status == newStatus
    ensures forall i :: 0 <= i < |r| && orders[i].orderNumber != orderNumber ==> r[i] == orders[i]
  {
    if orders == [] then []
    else
      var o := orders[0];
      [if o.orderNumber == orderNumber then o.(status := newStatus) else o] +
      WithStatus(orders[1..], orderNumber, newStatus)
  }

  /** The list after `deleteOrder`: exactly the orders whose number differs, in their order. */
  function Without(orders: seq<Order>, orderNumber: string): (r: seq<Order>)
    ensures IsSubsequence(r, orders)
    ensures forall o :: o in r ==> o in orders && o.orderNumber != orderNumber
    ensures forall o :: multiset(r)[o] == if o.orderNumber != orderNumber then multiset(orders)[o] else 0
  {
    FilterCounts((o: Order) => o.orderNumber != orderNumber, orders);
    Filter((o: Order) => o.orderNumber != orderNumber, orders)
  }

  /** Deleting a number that no order carries leaves the list unchanged. */
  lemma WithoutAbsent(orders: seq<Order>, orderNumber: string)
    requires forall o :: o in orders ==> o.orderNumber != orderNumber
    ensures Without(orders, orderNumber) == orders
  {
    FilterKeepsAll((o: Order) => o.orderNumber != orderNumber, orders);
  }

  /** Deleting an order whose number is unique removes exactly that record. */
  lemma WithoutPresent(orders: seq<Order>, i: int)
    requires UniqueNumbers(orders) && 0 <= i < |orders|
    ensures Without(orders, orders[i].orderNumber) == orders[..i] + orders[i + 1..]
  {
    var n := orders[i].orderNumber;
    var p := (o: Order) => o.orderNumber != n;
    assert orders == orders[..i] + ([orders[i]] + orders[i + 1..]);
    FilterConcat(p, orders[..i], [orders[i]] + orders[i + 1..]);
    FilterConcat(p, [orders[i]], orders[i + 1..]);
    assert Filter(p, [orders[i]]) == [] by {
      assert [orders[i]][1..] == [];
    }
    WithoutAbsent(orders[..i], n);
    WithoutAbsent(orders[i + 1..], n);
  }

  /** A subsequence of a list with unique numbers has unique numbers. */
  lemma {:induction false} SubsequenceUnique(r: seq<Order>, s: seq<Order>)
    requires IsSubsequence(r, s) && UniqueNumbers(s)
    ensures UniqueNumbers(r)
    decreases |s|
  {
    if r != [] {
      if r[0] == s[0] && IsSubsequence(r[1..], s[1..]) {
        SubsequenceUnique(r[1..], s[1..]);
        forall j | 1 <= j < |r|
          ensures r[0].orderNumber != r[j].orderNumber
        {
          SubsequenceMembers(r[1..], s[1..], r[j]);
          var k :| 0 <= k < |s[1..]| && s[1..][k] == r[j];
          assert s[k + 1] == r[j];
        }
      } else {
        SubsequenceUnique(r, s[1..]);
      }
    }
  }

  /** A status change keeps every order number in place, so the numbers stay unique. */
  lemma WithStatusKeepsNumbersUnique(orders: seq<Order>, orderNumber: string, newStatus: Status)
    requires UniqueNumbers(orders)
    ensures UniqueNumbers(WithStatus(orders, orderNumber, newStatus))
  {
  }

  /** A deletion leaves a subsequence of the list, so the numbers stay unique. */
  lemma WithoutKeepsNumbersUnique(orders: seq<Order>, orderNumber: string)
    requires UniqueNumbers(orders)
    ensures UniqueNumbers(Without(orders, orderNumber))
  {
    SubsequenceUnique(Without(orders, orderNumber), orders);
  }

  /** Deleting ORD-12347 from the initial list leaves the other three orders. */
  lemma DeleteInitialExample()
    ensures var r := Without(InitialOrders(), "ORD-12347");
            |r| == 3 && forall o :: o in r ==> o.orderNumber != "ORD-12347"
  {
    WithoutPresent(InitialOrders(), 2);
  }

  // ---------------------------------------------------------------------------
  // The page state

  /** The page's state: the full list and the list on display. The displayed list is
      recomputed only when a handler asks for it, from the list the handler saw. */
  class OrdersPage {
    var orders: seq<Order>
    var filteredOrders: seq<Order>

    ghost predicate Valid()
      reads this
    {
      UniqueNumbers(orders)
    }

    constructor ()
      ensures Valid()
      ensures orders == InitialOrders() && filteredOrders == InitialOrders()
    {
      orders := InitialOrders();
      filteredOrders := InitialOrders();
    }

    /** `filterOrders`: the selector and the two date inputs are parameters. */
    method FilterOrders(statusFilter: StatusFilter, startDate: string, endDate: string)
      requires Valid()
      modifies this
      ensures Valid()
      ensures orders == old(orders)
      ensures filteredOrders == Filtered(orders, statusFilter, startDate, endDate)
    {
      filteredOrders := Filtered(orders, statusFilter, startDate, endDate);
    }

    /** `updateStatus`: rewrites the list, then re-filters the list as it was before the
        rewrite, so the display does not show the new status. */
    method UpdateStatus(newStatus: Status, orderNumber: string,
                        statusFilter: StatusFilter, startDate: string, endDate: string)
      requires Valid()
      modifies this
      ensures Valid()
      ensures orders == WithStatus(old(orders), orderNumber, newStatus)
      ensures filteredOrders == Filtered(old(orders), statusFilter, startDate, endDate)
    {
      var seen := orders;
      WithStatusKeepsNumbersUnique(orders, orderNumber, newStatus);
      orders := WithStatus(orders, orderNumber, newStatus);
      filteredOrders := Filtered(seen, statusFilter, startDate, endDate);
    }

    /** `deleteOrder`: removes the orders with that number, then re-filters the list as it
        was before the removal, so the deleted order may stay on display. */
    method DeleteOrder(orderNumber: string,
                       statusFilter: StatusFilter, startDate: string, endDate: string)
      requires Valid()
      modifies this
      ensures Valid()
      ensures orders == Without(old(orders), orderNumber)
      ensures filteredOrders == Filtered(old(orders), statusFilter, startDate, endDate)
    {
      var seen := orders;
      WithoutKeepsNumbersUnique(orders, orderNumber);
      orders := Without(orders, orderNumber);
      filteredOrders := Filtered(seen, statusFilter, startDate, endDate);
    }
  }

  /** Deleting ORD-12347 with the filter on `all` and no dates: the display still lists
      it (it was filtered from the list before the deletion) until the filter is applied
      again, which then shows the three remaining orders. */
  method DeleteThenRefilter() returns (shownAfterDelete: seq<Order>, shownAfterRefilter: seq<Order>)
    ensures |shownAfterDelete| == 4 && shownAfterDelete[2].orderNumber == "ORD-12347"
    ensures |shownAfterRefilter| == 3
    ensures forall o :: o in shownAfterRefilter ==> o.orderNumber != "ORD-12347"
  {
    var page := new OrdersPage();
    page.DeleteOrder("ORD-12347", All, "", "");
    FilterAllKeepsEverything(InitialOrders(), "", "");
    shownAfterDelete := page.filteredOrders;
    page.FilterOrders(All, "", "");
    DeleteInitialExample();
    FilterAllKeepsEverything(page.orders, "", "");
    shownAfterRefilter := page.filteredOrders;
  }
}
