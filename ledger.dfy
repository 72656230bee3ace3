/** The order ledger of the freelance work tracker: what an order is, and the
    pure views the tracker derives from its list of orders (totals per status,
    progress toward the income target, the filtered list shown newest first,
    and per-month statistics). The class that owns and mutates the list is in
    module Tracker. */
module Ledger {
  import opened Seqs

  /** The three workflow states; any state may be changed into any other. */
  datatype Status = Active | Submitted | Completed

  /** A calendar date as the date input yields it, with a 0-based month. */
  datatype Date = Date(year: int, month0: int, day: int)

  /** One order. Amounts are whole shillings; dateCreated is a millisecond
      timestamp; category, names and title are free text the form supplies. */
  datatype Order = Order(
    id: string,
    category: string,
    employerName: string,
    title: string,
    dateAssigned: Date,
    pages: int,
    amount: nat,
    status: Status,
    dateCreated: int)

  /** The filter buttons: every order, or only those of one status. */
  datatype StatusFilter = All | Only(status: Status)

  const MonthlyExpenses: nat := 18500
  const SavingsGoal: nat := 10000
  const TargetIncome: nat := MonthlyExpenses + SavingsGoal

  // Predicates handed to Seqs.Filter, one per selection the tracker makes.

  function HasStatus(s: Status): Order -> bool {
    (o: Order) => o.status == s
  }

  function IdIsNot(id: string): Order -> bool {
    (o: Order) => o.id != id
  }

  function AssignedIn(year: int, month0: int): Order -> bool {
    (o: Order) => o.dateAssigned.year == year && o.dateAssigned.month0 == month0
  }

  function CreatedAt(t: int): Order -> bool {
    (o: Order) => o.dateCreated == t
  }

  // ---------------------------------------------------------------------
  // Sums and totals per status

  /** The sum of the amounts of all orders (the reference for the totals). */
  function SumAmounts(orders: seq<Order>): nat {
    if orders == [] then 0
    else SumAmounts(orders[..|orders| - 1]) + orders[|orders| - 1].amount
  }

  function SumPages(orders: seq<Order>): int {
    if orders == [] then 0
    else SumPages(orders[..|orders| - 1]) + orders[|orders| - 1].pages
  }

  datatype StatusTotals = StatusTotals(active: nat, submitted: nat, completed: nat) {
    function Get(s: Status): nat {
      match s
      case Active => active
      case Submitted => submitted
      case Completed => completed
    }

    /** The bucket of status s grown by amount; the other buckets as they were. */
    function Add(s: Status, amount: nat): StatusTotals {
      StatusTotals(
        active + (if s == Active then amount else 0),
        submitted + (if s == Submitted then amount else 0),
        completed + (if s == Completed then amount else 0))
    }

    function Plus(other: StatusTotals): StatusTotals {
      StatusTotals(active + other.active, submitted + other.submitted, completed + other.completed)
    }

    function Sum(): nat {
      active + submitted + completed
    }
  }

  /** The reduce of calculateTotals: all buckets start at 0 and each order's
      amount goes into the bucket of its status. */
  function CalculateTotals(orders: seq<Order>): StatusTotals {
    if orders == [] then StatusTotals(0, 0, 0)
    else
      var last := orders[|orders| - 1];
      CalculateTotals(orders[..|orders| - 1]).Add(last.status, last.amount)
  }

  /** No amount is lost or counted twice: the three buckets add up to the sum
      of all amounts. */
  lemma {:induction false} TotalsConserveAmount(orders: seq<Order>)
    ensures CalculateTotals(orders).Sum() == SumAmounts(orders)
  {
    if orders != [] {
      TotalsConserveAmount(orders[..|orders| - 1]);
    }
  }

  lemma {:induction false} SumAmountsAppend(a: seq<Order>, b: seq<Order>)
    ensures SumAmounts(a + b) == SumAmounts(a) + SumAmounts(b)
    decreases |b|
  {
    if b == [] {
      assert a + b == a;
    } else {
      var b' := b[..|b| - 1];
      assert (a + b)[..|a + b| - 1] == a + b';
      SumAmountsAppend(a, b');
    }
  }

  lemma PlusAdd(x: StatusTotals, y: StatusTotals, s: Status, amount: nat)
    ensures x.Plus(y).Add(s, amount) == x.Plus(y.Add(s, amount))
    ensures x.Plus(y).Add(s, amount) == x.Add(s, amount).Plus(y)
  {
  }

  lemma {:induction false} TotalsAppend(a: seq<Order>, b: seq<Order>)
    ensures CalculateTotals(a + b) == CalculateTotals(a).Plus(CalculateTotals(b))
    decreases |b|
  {
    if b == [] {
      assert a + b == a;
    } else {
      var b' := b[..|b| - 1];
      var last := b[|b| - 1];
      assert CalculateTotals(a + b) == CalculateTotals(a + b').Add(last.status, last.amount) by {
        assert (a + b)[..|a + b| - 1] == a + b';
        assert (a + b)[|a + b| - 1] == last;
      }
      assert CalculateTotals(b) == CalculateTotals(b').Add(last.status, last.amount);
      TotalsAppend(a, b');
      PlusAdd(CalculateTotals(a), CalculateTotals(b'), last.status, last.amount);
    }
  }

  /** The totals of pre + [x] + post: x's amount lands in x's bucket. */
  lemma TotalsSplit(pre: seq<Order>, x: Order, post: seq<Order>)
    ensures CalculateTotals(pre + [x] + post)
            == CalculateTotals(pre).Add(x.status, x.amount).Plus(CalculateTotals(post))
  {
    TotalsAppend(pre + [x], post);
    assert (pre + [x])[..|pre + [x]| - 1] == pre;
  }

  /** Each bucket is the sum of the amounts of exactly the orders of that status. */
  lemma {:induction false} TotalsBucket(orders: seq<Order>, s: Status)
    ensures CalculateTotals(orders).Get(s) == SumAmounts(Filter(orders, HasStatus(s)))
  {
    if orders != [] {
      var rest := orders[..|orders| - 1];
      var last := orders[|orders| - 1];
      assert orders == rest + [last];
      TotalsBucket(rest, s);
      if last.status == s {
        assert HasStatus(s)(last);
        assert Filter(orders, HasStatus(s)) == Filter(rest, HasStatus(s)) + [last];
        SumAmountsAppend(Filter(rest, HasStatus(s)), [last]);
        assert [last][..0] == [];
      } else {
        assert !HasStatus(s)(last);
        assert Filter(orders, HasStatus(s)) == Filter(rest, HasStatus(s));
      }
    }
  }

  /** A status that no order has reports 0, never a missing bucket. */
  lemma {:induction false} EmptyBucket(orders: seq<Order>, s: Status)
    requires forall i :: 0 <= i < |orders| ==> orders[i].status != s
    ensures CalculateTotals(orders).Get(s) == 0
  {
    if orders != [] {
      EmptyBucket(orders[..|orders| - 1], s);
    }
  }

  /** Taking the order at index i out of the list takes its amount out of its bucket. */
  lemma TotalsRemoveAt(b: seq<Order>, i: nat)
    requires i < |b|
    ensures CalculateTotals(b) == CalculateTotals(b[..i] + b[i + 1..]).Add(b[i].status, b[i].amount)
  {
    SplitAt(b, i);
    TotalsRemoveMiddle(b[..i], b[i], b[i + 1..]);
  }

  lemma SplitAt(b: seq<Order>, i: nat)
    requires i < |b|
    ensures b == b[..i] + [b[i]] + b[i + 1..]
  {
  }

  lemma TotalsRemoveMiddle(pre: seq<Order>, x: Order, post: seq<Order>)
    ensures CalculateTotals(pre + [x] + post) == CalculateTotals(pre + post).Add(x.status, x.amount)
  {
    calc {
      CalculateTotals(pre + [x] + post);
      { TotalsSplit(pre, x, post); }
      CalculateTotals(pre).Add(x.status, x.amount).Plus(CalculateTotals(post));
      { PlusAdd(CalculateTotals(pre), CalculateTotals(post), x.status, x.amount); }
      CalculateTotals(pre).Plus(CalculateTotals(post)).Add(x.status, x.amount);
      { TotalsAppend(pre, post); }
      CalculateTotals(pre + post).Add(x.status, x.amount);
    }
  }

  lemma TotalsHead(b: seq<Order>)
    requires b != []
    ensures CalculateTotals(b) == CalculateTotals(b[1..]).Add(b[0].status, b[0].amount)
  {
    TotalsRemoveAt(b, 0);
    assert b[..0] + b[1..] == b[1..];
  }

  lemma MultisetRemoveAt(b: seq<Order>, i: nat)
    requires i < |b|
    ensures multiset(b[..i] + b[i + 1..]) == multiset(b) - multiset{b[i]}
    ensures i == 0 ==> multiset(b[1..]) == multiset(b) - multiset{b[0]}
  {
    assert i == 0 ==> b[..i] + b[i + 1..] == b[1..];
    assert b == b[..i] + [b[i]] + b[i + 1..];
  }

  /** Reordering the orders leaves every bucket unchanged. */
  lemma {:induction false} TotalsPermutation(a: seq<Order>, b: seq<Order>)
    requires multiset(a) == multiset(b)
    ensures CalculateTotals(a) == CalculateTotals(b)
    decreases |a|
  {
    if a != [] {
      var x := a[0];
      assert x in multiset(b);
      var i :| 0 <= i < |b| && b[i] == x;
      var a', b' := a[1..], b[..i] + b[i + 1..];
      assert multiset(a') == multiset(b') by {
        MultisetRemoveAt(a, 0);
        MultisetRemoveAt(b, i);
      }
      TotalsPermutation(a', b');
      calc {
        CalculateTotals(a);
        { TotalsHead(a); }
        CalculateTotals(a').Add(x.status, x.amount);
        CalculateTotals(b').Add(x.status, x.amount);
        { TotalsRemoveAt(b, i); }
        CalculateTotals(b);
      }
    }
  }

  // ---------------------------------------------------------------------
  // Progress toward the target income

  /** Math.min(completed / target * 100, 100). */
  function ProgressPercentage(completed: nat): (p: real)
    ensures 0.0 <= p <= 100.0
    ensures p == 100.0 <==> completed >= TargetIncome
    ensures completed < TargetIncome ==> p * (TargetIncome as real) == (completed as real) * 100.0
  {
    var raw := (completed as real) / (TargetIncome as real) * 100.0;
    if raw <= 100.0 then raw else 100.0
  }

  /** Math.max(target - completed, 0). */
  function RemainingAmount(completed: nat): (r: nat)
    ensures r == 0 <==> completed >= TargetIncome
    ensures r + completed >= TargetIncome
    ensures completed <= TargetIncome ==> r + completed == TargetIncome
  {
    var diff := TargetIncome - completed;
    if diff >= 0 then diff else 0
  }

  /** More completed income never lowers the percentage nor raises what remains. */
  lemma ProgressMonotone(c1: nat, c2: nat)
    requires c1 <= c2
    ensures ProgressPercentage(c1) <= ProgressPercentage(c2)
    ensures RemainingAmount(c2) <= RemainingAmount(c1)
  {
    var t := TargetIncome as real;
    assert (c1 as real) / t <= (c2 as real) / t;
  }

  /** The figures updateFinancialOverview computes before writing them out. */
  datatype Overview = Overview(totals: StatusTotals, percentage: real, remaining: nat)

  function FinancialOverview(orders: seq<Order>): (v: Overview)
    ensures v.totals == CalculateTotals(orders)
    ensures v.percentage == ProgressPercentage(v.totals.completed)
    ensures v.remaining == RemainingAmount(v.totals.completed)
    ensures 0.0 <= v.percentage <= 100.0
    ensures v.totals.Sum() == SumAmounts(orders)
    ensures v.percentage == 100.0 <==> v.remaining == 0
    ensures v.remaining == 0 <==> v.totals.completed >= TargetIncome
  {
    var totals := CalculateTotals(orders);
    TotalsConserveAmount(orders);
    Overview(totals, ProgressPercentage(totals.completed), RemainingAmount(totals.completed))
  }

  // ---------------------------------------------------------------------
  // Finding, changing and removing orders

  /** Array.prototype.find by id: the first index whose order has that id. */
  function FindOrder(orders: seq<Order>, id: string): (r: Option<nat>)
    ensures r.Some? ==> r.value < |orders| && orders[r.value].id == id
    ensures r.Some? ==> forall j :: 0 <= j < r.value ==> orders[j].id != id
    ensures r.None? <==> forall j :: 0 <= j < |orders| ==> orders[j].id != id
  {
    if orders == [] then None
    else if orders[0].id == id then Some(0)
    else match FindOrder(orders[1..], id)
      case None => None
      case Some(j) => Some(j + 1)
  }

  /** The list after updateOrderStatus: the first order with the id gets the
      new status, whatever its old one; an unknown id changes nothing. */
  function UpdatedStatus(orders: seq<Order>, id: string, s: Status): (r: seq<Order>)
    ensures |r| == |orders|
    ensures FindOrder(orders, id).None? ==> r == orders
    ensures FindOrder(orders, id).Some? ==>
      var i := FindOrder(orders, id).value;
      r[i] == orders[i].(status := s) && forall j :: 0 <= j < |r| && j != i ==> r[j] == orders[j]
  {
    match FindOrder(orders, id)
    case None => orders
    case Some(i) => orders[i := orders[i].(status := s)]
  }

  /** A status change moves the order's amount from its old bucket to its new one. */
  lemma StatusChangeTotals(orders: seq<Order>, id: string, s: Status)
    requires FindOrder(orders, id).Some?
    ensures
      var o := orders[FindOrder(orders, id).value];
      CalculateTotals(UpdatedStatus(orders, id, s)).Add(o.status, o.amount)
        == CalculateTotals(orders).Add(s, o.amount)
  {
    var i := FindOrder(orders, id).value;
    var o := orders[i];
    var pre, post := orders[..i], orders[i + 1..];
    UpdatedStatusSplit(orders, id, s);
    SplitAt(orders, i);
    TotalsSplit(pre, o.(status := s), post);
    TotalsSplit(pre, o, post);
    AddSwap(CalculateTotals(pre), CalculateTotals(post), s, o.status, o.amount);
  }

  lemma UpdatedStatusSplit(orders: seq<Order>, id: string, s: Status)
    requires FindOrder(orders, id).Some?
    ensures var i := FindOrder(orders, id).value;
      UpdatedStatus(orders, id, s) == orders[..i] + [orders[i].(status := s)] + orders[i + 1..]
  {
  }

  lemma AddSwap(x: StatusTotals, y: StatusTotals, s: Status, t: Status, amount: nat)
    ensures x.Add(s, amount).Plus(y).Add(t, amount) == x.Add(t, amount).Plus(y).Add(s, amount)
  {
  }

  /** The list after a confirmed deleteOrder. */
  function RemoveOrder(orders: seq<Order>, id: string): (r: seq<Order>)
    ensures forall o :: o in r <==> o in orders && o.id != id
  {
    FilterMembers(orders, IdIsNot(id));
    Filter(orders, IdIsNot(id))
  }

  /** Deletion drops every order with the id (all copies, when ids repeat),
      keeps every other order as often as it occurred, and keeps their
      relative order: it distributes over concatenation. */
  lemma RemoveOrderSpec(a: seq<Order>, b: seq<Order>, id: string, o: Order)
    ensures multiset(RemoveOrder(a, id))[o] == if o.id == id then 0 else multiset(a)[o]
    ensures RemoveOrder(a + b, id) == RemoveOrder(a, id) + RemoveOrder(b, id)
    ensures RemoveOrder(RemoveOrder(a, id), id) == RemoveOrder(a, id)
  {
    FilterMultiset(a, IdIsNot(id), o);
    FilterAppend(a, b, IdIsNot(id));
    FilterIdempotent(a, IdIsNot(id));
  }

  /** Deleting an id that no order has leaves the list as it was. */
  lemma RemoveUnknownOrder(orders: seq<Order>, id: string)
    requires FindOrder(orders, id).None?
    ensures RemoveOrder(orders, id) == orders
  {
    FilterAll(orders, IdIsNot(id));
  }

  // ---------------------------------------------------------------------
  // The list renderOrders shows

  predicate NewestFirst(s: seq<Order>) {
    forall i, j :: 0 <= i < j < |s| ==> s[j].dateCreated <= s[i].dateCreated
  }

  /** Inserts o before the first order that is not newer than it. */
  function InsertNewestFirst(o: Order, s: seq<Order>): seq<Order>
  {
    if s == [] || s[0].dateCreated <= o.dateCreated then [o] + s
    else [s[0]] + InsertNewestFirst(o, s[1..])
  }

  /** Inserting into a newest-first list adds exactly o and keeps the list
      newest first. */
  lemma {:induction false} InsertNewestFirstSpec(o: Order, s: seq<Order>)
    requires NewestFirst(s)
    ensures |InsertNewestFirst(o, s)| == |s| + 1
    ensures multiset(InsertNewestFirst(o, s)) == multiset(s) + multiset{o}
    ensures NewestFirst(InsertNewestFirst(o, s))
  {
    if s == [] || s[0].dateCreated <= o.dateCreated {
      PrependNewest(o, s);
    } else {
      var rest := InsertNewestFirst(o, s[1..]);
      NewestFirstTail(s);
      InsertNewestFirstSpec(o, s[1..]);
      InsertHead(o, s[1..]);
      assert s == [s[0]] + s[1..];
      PrependNewest(s[0], rest);
    }
  }

  /** The inserted list starts with o or with the list's own first order. */
  lemma InsertHead(o: Order, s: seq<Order>)
    ensures InsertNewestFirst(o, s)[0] == o || (s != [] && InsertNewestFirst(o, s)[0] == s[0])
  {
  }

  lemma NewestFirstTail(s: seq<Order>)
    requires NewestFirst(s) && s != []
    ensures NewestFirst(s[1..])
    ensures s[1..] != [] ==> s[1].dateCreated <= s[0].dateCreated
  {
  }

  lemma PrependNewest(x: Order, s: seq<Order>)
    requires NewestFirst(s) && (s == [] || s[0].dateCreated <= x.dateCreated)
    ensures NewestFirst([x] + s)
  {
    var r := [x] + s;
    forall i, j | 0 <= i < j < |r| ensures r[j].dateCreated <= r[i].dateCreated {
      if i == 0 && j > 1 {
        assert r[j] == s[j - 1] && r[1] == s[0];
      }
    }
  }

  /** The comparator b.dateCreated - a.dateCreated: newest first. Together with
      SortStable this pins the result down to the one a stable sort yields. */
  function SortNewestFirst(s: seq<Order>): (r: seq<Order>)
    ensures |r| == |s|
    ensures multiset(r) == multiset(s)
    ensures NewestFirst(r)
  {
    if s == [] then []
    else
      var rest := SortNewestFirst(s[1..]);
      InsertNewestFirstSpec(s[0], rest);
      assert s == [s[0]] + s[1..];
      InsertNewestFirst(s[0], rest)
  }

  lemma InsertStable(o: Order, s: seq<Order>, t: int)
    ensures Filter(InsertNewestFirst(o, s), CreatedAt(t))
            == Filter([o], CreatedAt(t)) + Filter(s, CreatedAt(t))
    decreases |s|
  {
    var p := CreatedAt(t);
    if s == [] || s[0].dateCreated <= o.dateCreated {
      assert InsertNewestFirst(o, s) == [o] + s;
      FilterAppend([o], s, p);
    } else {
      InsertStable(o, s[1..], t);
      InsertStableStep(o, s, t);
    }
  }

  lemma InsertStableStep(o: Order, s: seq<Order>, t: int)
    requires s != [] && o.dateCreated < s[0].dateCreated
    requires Filter(InsertNewestFirst(o, s[1..]), CreatedAt(t))
             == Filter([o], CreatedAt(t)) + Filter(s[1..], CreatedAt(t))
    ensures Filter(InsertNewestFirst(o, s), CreatedAt(t))
            == Filter([o], CreatedAt(t)) + Filter(s, CreatedAt(t))
  {
    var p := CreatedAt(t);
    var rest := InsertNewestFirst(o, s[1..]);
    assert InsertNewestFirst(o, s) == [s[0]] + rest;
    FilterPrependSwap(s[0], o, rest, Filter(s[1..], p), p);
    assert s == [s[0]] + s[1..];
    FilterAppend([s[0]], s[1..], p);
  }

  /** Orders created at the same instant keep their relative order. */
  lemma {:induction false} SortStable(s: seq<Order>, t: int)
    ensures Filter(SortNewestFirst(s), CreatedAt(t)) == Filter(s, CreatedAt(t))
  {
    if s != [] {
      SortStable(s[1..], t);
      InsertStable(s[0], SortNewestFirst(s[1..]), t);
      assert s == [s[0]] + s[1..];
      FilterAppend([s[0]], s[1..], CreatedAt(t));
    }
  }

  /** Sorting a list that is already newest first changes nothing. */
  lemma {:induction false} SortSorted(s: seq<Order>)
    requires NewestFirst(s)
    ensures SortNewestFirst(s) == s
  {
    if s != [] {
      SortSorted(s[1..]);
      assert s == [s[0]] + s[1..];
    }
  }

  /** filteredOrders before sorting: the list itself under 'all'. */
  function VisibleOrders(orders: seq<Order>, f: StatusFilter): seq<Order> {
    if f == All then orders else Filter(orders, HasStatus(f.status))
  }

  /** What renderOrders shows: exactly the orders the filter admits, as a
      permutation of them, newest first. */
  function OrdersView(orders: seq<Order>, f: StatusFilter): (r: seq<Order>)
    ensures NewestFirst(r)
    ensures multiset(r) == multiset(VisibleOrders(orders, f))
    ensures forall o :: o in r <==> o in orders && (f.All? || o.status == f.status)
  {
    var r := SortNewestFirst(VisibleOrders(orders, f));
    FilterMembers(orders, HasStatus(if f.Only? then f.status else Active));
    assert forall o :: o in r <==> o in multiset(r);
    r
  }

  /** Sorting the whole list in place (filter 'all') does not change the totals. */
  lemma RenderAllKeepsTotals(orders: seq<Order>)
    ensures CalculateTotals(OrdersView(orders, All)) == CalculateTotals(orders)
  {
    TotalsPermutation(OrdersView(orders, All), orders);
  }

  /** this.orders after renderOrders: under 'all' the sort works on the list
      itself, under any other filter on a filtered copy. */
  function AfterRender(orders: seq<Order>, f: StatusFilter): (r: seq<Order>)
    ensures multiset(r) == multiset(orders)
    ensures f.Only? ==> r == orders
    ensures f.All? ==> NewestFirst(r)
  {
    if f == All then OrdersView(orders, All) else orders
  }

  /** Rendering keeps the totals and, repeated, changes nothing more. */
  lemma AfterRenderSpec(orders: seq<Order>, f: StatusFilter)
    ensures CalculateTotals(AfterRender(orders, f)) == CalculateTotals(orders)
    ensures AfterRender(AfterRender(orders, f), f) == AfterRender(orders, f)
  {
    if f == All {
      RenderAllKeepsTotals(orders);
      SortSorted(AfterRender(orders, f));
    }
  }

  // ---------------------------------------------------------------------
  // Monthly statistics

  function MonthOrders(orders: seq<Order>, year: int, month0: int): seq<Order> {
    Filter(orders, AssignedIn(year, month0))
  }

  /** The reduce sum + (completed ? amount : 0). */
  function CompletedEarnings(orders: seq<Order>): nat {
    if orders == [] then 0
    else
      var last := orders[|orders| - 1];
      CompletedEarnings(orders[..|orders| - 1]) + (if last.status == Completed then last.amount else 0)
  }

  lemma {:induction false} CompletedEarningsIsBucket(orders: seq<Order>)
    ensures CompletedEarnings(orders) == CalculateTotals(orders).completed
  {
    if orders != [] {
      CompletedEarningsIsBucket(orders[..|orders| - 1]);
    }
  }

  datatype MonthlyStats = MonthlyStats(
    totalOrders: nat,
    totalEarnings: nat,
    activeOrders: nat,
    completedOrders: nat,
    totalPages: int)

  function GetMonthlyStats(orders: seq<Order>, year: int, month0: int): (r: MonthlyStats)
    ensures r.totalOrders == |MonthOrders(orders, year, month0)|
    ensures r.activeOrders == |Filter(MonthOrders(orders, year, month0), HasStatus(Active))|
    ensures r.completedOrders == |Filter(MonthOrders(orders, year, month0), HasStatus(Completed))|
    ensures r.activeOrders + r.completedOrders <= r.totalOrders
    ensures r.totalEarnings == CalculateTotals(MonthOrders(orders, year, month0)).completed
    ensures r.totalEarnings <= SumAmounts(MonthOrders(orders, year, month0))
    ensures r.totalPages == SumPages(MonthOrders(orders, year, month0))
  {
    var m := MonthOrders(orders, year, month0);
    CompletedEarningsIsBucket(m);
    TotalsConserveAmount(m);
    FilterDisjointCount(m, HasStatus(Active), HasStatus(Completed));
    MonthlyStats(
      |m|,
      CompletedEarnings(m),
      |Filter(m, HasStatus(Active))|,
      |Filter(m, HasStatus(Completed))|,
      SumPages(m))
  }

  /** An order is counted in a month exactly when its assignment date lies in it. */
  lemma MonthOrdersSelect(orders: seq<Order>, year: int, month0: int, o: Order)
    ensures o in MonthOrders(orders, year, month0)
            <==> o in orders && o.dateAssigned.year == year && o.dateAssigned.month0 == month0
  {
    FilterMembers(orders, AssignedIn(year, month0));
  }

  // ---------------------------------------------------------------------
  // Backups

  /** A parsed JSON field that should hold a list: missing or falsy (null,
      false, 0, ""), truthy but not an array, or an array. */
  datatype JsonList<T> = Absent | NotAList | List(items: seq<T>)

  /** A backup file after JSON parsing; collapsedSections is None when the
      field is missing or falsy. */
  datatype Backup = Backup(
    orders: JsonList<Order>,
    employers: JsonList<string>,
    collapsedSections: Option<map<string, bool>>)

  datatype RestoreOutcome = Restored | Declined | FormatError
}
