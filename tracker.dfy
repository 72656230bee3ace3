/** The FreelanceTracker object: the list of orders and the active filter,
    changed in place by the tracker's commands. Every command that changes
    the list ends as the source does, by re-rendering, which under the 'all'
    filter sorts the list itself newest first. Browser dialogs are boolean
    parameters; the clock is an integer parameter. */
module Tracker {
  import opened Seqs
  import opened Ledger

  class FreelanceTracker {
    var orders: seq<Order>
    var currentFilter: StatusFilter

    /** saved: the list loadOrders returned. */
    constructor (saved: seq<Order>)
      ensures orders == saved && currentFilter == All
    {
      orders := saved;
      currentFilter := All;
    }

    function CalculateTotals(): (t: StatusTotals)
      reads this
      ensures t == Ledger.CalculateTotals(orders)
      ensures t.Sum() == SumAmounts(orders)
    {
      TotalsConserveAmount(orders);
      Ledger.CalculateTotals(orders)
    }

    function FinancialOverview(): (v: Overview)
      reads this
      ensures v == Ledger.FinancialOverview(orders)
      ensures 0.0 <= v.percentage <= 100.0
      ensures v.percentage == 100.0 <==> v.totals.completed >= TargetIncome
    {
      Ledger.FinancialOverview(orders)
    }

    function GetMonthlyStats(year: int, month0: int): (r: MonthlyStats)
      reads this
      ensures r == Ledger.GetMonthlyStats(orders, year, month0)
      ensures r.activeOrders + r.completedOrders <= r.totalOrders
    {
      Ledger.GetMonthlyStats(orders, year, month0)
    }

    /** Returns the orders shown, in display order. */
    method RenderOrders() returns (shown: seq<Order>)
      modifies this
      ensures shown == OrdersView(old(orders), old(currentFilter))
      ensures orders == AfterRender(old(orders), old(currentFilter))
      ensures currentFilter == old(currentFilter)
    {
      var filtered := VisibleOrders(orders, currentFilter);
      if |filtered| == 0 {
        shown := [];
        return;
      }
      var sorted := SortNewestFirst(filtered);
      if currentFilter == All {
        orders := sorted;
      }
      shown := sorted;
    }

    /** A filter button: remembers the filter and renders with it. */
    method SetFilter(f: StatusFilter) returns (shown: seq<Order>)
      modifies this
      ensures currentFilter == f
      ensures shown == OrdersView(old(orders), f)
      ensures orders == AfterRender(old(orders), f)
    {
      currentFilter := f;
      shown := RenderOrders();
    }

    /** The form's fields go in unvalidated; the order starts as active. The
        source derives id and dateCreated from the clock; here they are given. */
    method AddOrder(id: string, category: string, employerName: string, title: string,
                    dateAssigned: Date, pages: int, amount: nat, now: int)
      modifies this
      ensures orders == AfterRender(
        old(orders) + [Order(id, category, employerName, title, dateAssigned, pages, amount, Active, now)],
        currentFilter)
      ensures currentFilter == old(currentFilter)
    {
      orders := orders + [Order(id, category, employerName, title, dateAssigned, pages, amount, Active, now)];
      var _ := RenderOrders();
    }

    /** Sets the status of the first order with the id; an unknown id does nothing. */
    method UpdateOrderStatus(id: string, newStatus: Status)
      modifies this
      ensures FindOrder(old(orders), id).None? ==> orders == old(orders)
      ensures FindOrder(old(orders), id).Some? ==>
        orders == AfterRender(UpdatedStatus(old(orders), id, newStatus), currentFilter)
      ensures currentFilter == old(currentFilter)
    {
      var found := FindOrder(orders, id);
      if found.Some? {
        var i := found.value;
        orders := orders[i := orders[i].(status := newStatus)];
        var _ := RenderOrders();
      }
    }

    /** confirmed: the answer to the confirmation dialog. */
    method DeleteOrder(id: string, confirmed: bool)
      modifies this
      ensures orders == if confirmed then AfterRender(RemoveOrder(old(orders), id), currentFilter)
                        else old(orders)
      ensures currentFilter == old(currentFilter)
    {
      if confirmed {
        orders := RemoveOrder(orders, id);
        var _ := RenderOrders();
      }
    }

    method ClearAllData(confirmed: bool)
      modifies this
      ensures orders == if confirmed then [] else old(orders)
      ensures currentFilter == old(currentFilter)
    {
      if confirmed {
        orders := [];
        var _ := RenderOrders();
      }
    }

    /** backup: the parsed file, None when it is not valid JSON. Only a backup
        whose orders field is an array is accepted, and only when confirmed;
        it then replaces the list wholesale. */
    method RestoreFromFile(backup: Option<Backup>, confirmed: bool) returns (outcome: RestoreOutcome)
      modifies this
      ensures outcome == Restored <==> backup.Some? && backup.value.orders.List? && confirmed
      ensures outcome == FormatError <==> !(backup.Some? && backup.value.orders.List?)
      ensures outcome == Restored ==> orders == AfterRender(backup.value.orders.items, currentFilter)
      ensures outcome != Restored ==> orders == old(orders)
      ensures currentFilter == old(currentFilter)
    {
      if backup.None? || !backup.value.orders.List? {
        return FormatError;
      }
      if !confirmed {
        return Declined;
      }
      orders := backup.value.orders.items;
      var _ := RenderOrders();
      outcome := Restored;
    }
  }

  /** Adding an order puts its amount into the active bucket and leaves the
      completed total, and so the progress, as it was. */
  lemma AddOrderTotals(orders: seq<Order>, o: Order, f: StatusFilter)
    requires o.status == Active
    ensures Ledger.CalculateTotals(AfterRender(orders + [o], f))
            == Ledger.CalculateTotals(orders).Add(Active, o.amount)
    ensures Ledger.FinancialOverview(AfterRender(orders + [o], f)).percentage
            == Ledger.FinancialOverview(orders).percentage
  {
    AfterRenderSpec(orders + [o], f);
    assert (orders + [o])[..|orders + [o]| - 1] == orders;
  }
}
