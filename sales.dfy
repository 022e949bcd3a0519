/**
 * The sales screen (components/Sales.tsx): the customer picker sorted by
 * name, the vehicles on offer, the projected profit, the display names of a
 * sale's vehicle and customer, the search over sales and the submission of
 * a sale.
 */
module Sales {
  import opened Wrappers
  import opened Types
  import opened Seqs
  import opened Text
  import Store
  import Dashboard

  const UnknownVehicle := "Veículo desconhecido"
  const UnknownCustomer := "Cliente desconhecido"

  /** `availableVehicles`: the vehicles on offer, as many as the dashboard counts in stock. */
  function AvailableVehicles(vehicles: seq<Vehicle>): (r: seq<Vehicle>)
    ensures forall v :: v in r <==> v in vehicles && v.status == Available
    ensures |r| == Dashboard.VehiclesInStock(vehicles)
  {
    Filter(vehicles, IsAvailable)
  }

  /** The vehicles on offer keep the inventory's order. */
  lemma AvailableInOrder(vehicles: seq<Vehicle>)
    ensures IsSubsequence(AvailableVehicles(vehicles), vehicles)
  {
    FilterIsSubsequence(vehicles, IsAvailable);
  }

  /**
   * `projectedProfit`: the entered price minus the purchase price of the
   * first vehicle with the selected id; 0 without a price or such a vehicle.
   */
  function ProjectedProfit(vehicles: seq<Vehicle>, selectedId: string, salePrice: Option<int>): (r: int)
    ensures salePrice.None? ==> r == 0
    ensures (forall i :: 0 <= i < |vehicles| ==> vehicles[i].id != selectedId) ==> r == 0
    ensures salePrice.Some? ==>
              forall i :: IsFirstKey(vehicles, VehicleKey, selectedId, i) ==> r == salePrice.value - vehicles[i].pricePurchase
  {
    var selected := FindByKey(vehicles, VehicleKey, selectedId);
    if selected.Some? && salePrice.Some? then salePrice.value - selected.value.pricePurchase else 0
  }

  /** `getVehicleName`: make, model and version of the first vehicle with the id, or the unknown-vehicle label. */
  function VehicleName(vehicles: seq<Vehicle>, id: string): (r: string)
    ensures (forall i :: 0 <= i < |vehicles| ==> vehicles[i].id != id) ==> r == UnknownVehicle
    ensures forall i :: IsFirstKey(vehicles, VehicleKey, id, i) ==>
              r == vehicles[i].make + " " + vehicles[i].model + " " + vehicles[i].version
  {
    match FindByKey(vehicles, VehicleKey, id)
    case Some(v) => v.make + " " + v.model + " " + v.version
    case None => UnknownVehicle
  }

  /** `getCustomerName`: the name of the first customer with the id, or the unknown-customer label. */
  function CustomerName(customers: seq<Customer>, id: string): (r: string)
    ensures (forall i :: 0 <= i < |customers| ==> customers[i].id != id) ==> r == UnknownCustomer
    ensures forall i :: IsFirstKey(customers, CustomerKey, id, i) ==> r == customers[i].name
  {
    match FindByKey(customers, CustomerKey, id)
    case Some(c) => c.name
    case None => UnknownCustomer
  }

  /** A sale is found when its vehicle's or its customer's display name includes the term, ignoring case. */
  predicate SaleMatches(vehicles: seq<Vehicle>, customers: seq<Customer>, term: string, s: Sale) {
    var t := Lower(term);
    Contains(Lower(VehicleName(vehicles, s.vehicleId)), t) || Contains(Lower(CustomerName(customers, s.customerId)), t)
  }

  function SearchSales(vehicles: seq<Vehicle>, customers: seq<Customer>, term: string): Sale -> bool {
    (s: Sale) => SaleMatches(vehicles, customers, term, s)
  }

  /** `filteredSales`: the sales the search finds, in their order. */
  function FilteredSales(sales: seq<Sale>, vehicles: seq<Vehicle>, customers: seq<Customer>, term: string): (r: seq<Sale>)
    ensures forall s :: s in r <==> s in sales && SaleMatches(vehicles, customers, term, s)
    ensures |r| <= |sales|
  {
    Filter(sales, SearchSales(vehicles, customers, term))
  }

  /** An empty search lists every sale, in order. */
  lemma EmptySearchKeepsAllSales(sales: seq<Sale>, vehicles: seq<Vehicle>, customers: seq<Customer>)
    ensures FilteredSales(sales, vehicles, customers, "") == sales
  {
    forall i | 0 <= i < |sales|
      ensures SearchSales(vehicles, customers, "")(sales[i])
    {
      ContainsEmpty(Lower(VehicleName(vehicles, sales[i].vehicleId)));
    }
    FilterKeepsAll(sales, SearchSales(vehicles, customers, ""));
  }

  /** Searching for the name shown for a sale's vehicle finds that sale. */
  lemma SaleFoundByItsVehicleName(sales: seq<Sale>, vehicles: seq<Vehicle>, customers: seq<Customer>, s: Sale)
    requires s in sales
    ensures s in FilteredSales(sales, vehicles, customers, VehicleName(vehicles, s.vehicleId))
  {
    ContainsSelf(Lower(VehicleName(vehicles, s.vehicleId)));
  }

  /** Customers in non-decreasing name order. */
  predicate SortedByName(cs: seq<Customer>) {
    forall i, j :: 0 <= i < j < |cs| ==> NameLeq(cs[i].name, cs[j].name)
  }

  /** Inserts `c` before the first customer whose name it does not follow. */
  function InsertByName(c: Customer, cs: seq<Customer>): (r: seq<Customer>)
    ensures multiset(r) == multiset(cs) + multiset{c}
  {
    if cs == [] then [c]
    else if NameLeq(c.name, cs[0].name) then [c] + cs
    else
      assert cs == [cs[0]] + cs[1..];
      [cs[0]] + InsertByName(c, cs[1..])
  }

  /** `sortedCustomers`: a copy of the customers ordered by name. */
  function SortByName(cs: seq<Customer>): (r: seq<Customer>)
    ensures multiset(r) == multiset(cs)
  {
    if cs == [] then []
    else
      assert cs == [cs[0]] + cs[1..];
      InsertByName(cs[0], SortByName(cs[1..]))
  }

  lemma {:induction false} InsertByNameSorted(c: Customer, cs: seq<Customer>)
    requires SortedByName(cs)
    ensures SortedByName(InsertByName(c, cs))
    ensures InsertByName(c, cs) != [] && (InsertByName(c, cs)[0] == c || (cs != [] && InsertByName(c, cs)[0] == cs[0]))
  {
    if cs == [] {
    } else if NameLeq(c.name, cs[0].name) {
      var r := [c] + cs;
      forall i, j | 0 <= i < j < |r|
        ensures NameLeq(r[i].name, r[j].name)
      {
        if i == 0 && j > 1 {
          NameLeqTransitive(c.name, cs[0].name, cs[j - 1].name);
        }
      }
    } else {
      var tail := cs[1..];
      InsertByNameSorted(c, tail);
      var rest := InsertByName(c, tail);
      var r := [cs[0]] + rest;
      NameLeqTotal(c.name, cs[0].name);
      forall i, j | 0 <= i < j < |r|
        ensures NameLeq(r[i].name, r[j].name)
      {
        if i == 0 {
          assert r[j] in multiset(rest);
          assert r[j] == c || r[j] in multiset(tail);
          if r[j] != c {
            var k :| 0 <= k < |tail| && tail[k] == r[j];
            assert cs[k + 1] == r[j];
          }
        }
      }
    }
  }

  /** The picker lists exactly the customers, each as often as before, sorted by name. */
  lemma {:induction false} SortByNameSorted(cs: seq<Customer>)
    ensures SortedByName(SortByName(cs))
    ensures multiset(SortByName(cs)) == multiset(cs)
  {
    if cs != [] {
      SortByNameSorted(cs[1..]);
      InsertByNameSorted(cs[0], SortByName(cs[1..]));
    }
  }

  /** The sale form. */
  class SalesView {
    const store: Store.StoreState
    var searchTerm: string
    var selectedVehicleId: string
    var selectedCustomerId: string
    var salePrice: Option<int>
    var saleDate: Date

    constructor (store: Store.StoreState, today: Date)
      ensures this.store == store && searchTerm == ""
      ensures selectedVehicleId == "" && selectedCustomerId == "" && salePrice == None && saleDate == today
    {
      this.store := store;
      searchTerm := "";
      selectedVehicleId := "";
      selectedCustomerId := "";
      salePrice := None;
      saleDate := today;
    }

    /** Both parties are chosen and a non-zero price is entered. */
    predicate Complete()
      reads this
    {
      selectedVehicleId != "" && selectedCustomerId != "" && salePrice.Some? && salePrice.value != 0
    }

    /**
     * `handleSubmit`: an incomplete form or an unknown vehicle changes
     * nothing; otherwise the sale is recorded first with the profit the form
     * projected, the vehicle is marked sold and the form is reset.
     */
    method HandleSubmit(id: string, today: Date)
      requires store.Valid()
      modifies this`selectedVehicleId, this`selectedCustomerId, this`salePrice, this`saleDate
      modifies store`sales, store`vehicles
      ensures store.Valid()
      ensures !old(Complete()) || FindByKey(old(store.vehicles), VehicleKey, old(selectedVehicleId)).None? ==>
                && store.sales == old(store.sales) && store.vehicles == old(store.vehicles)
                && selectedVehicleId == old(selectedVehicleId) && selectedCustomerId == old(selectedCustomerId)
                && salePrice == old(salePrice) && saleDate == old(saleDate)
      ensures old(Complete()) && FindByKey(old(store.vehicles), VehicleKey, old(selectedVehicleId)).Some? ==>
                && store.sales == [Sale(id, old(selectedVehicleId), old(selectedCustomerId), old(salePrice).value, old(saleDate),
                                        ProjectedProfit(old(store.vehicles), old(selectedVehicleId), old(salePrice)))] + old(store.sales)
                && Store.MarkedSold(old(store.vehicles), store.vehicles, old(selectedVehicleId))
                && selectedVehicleId == "" && selectedCustomerId == "" && salePrice == None && saleDate == today
    {
      if !Complete() {
        return;
      }
      var vehicle := FindByKey(store.vehicles, VehicleKey, selectedVehicleId);
      if vehicle.None? {
        return;
      }
      ghost var k :| IsFirstKey(store.vehicles, VehicleKey, selectedVehicleId, k) && store.vehicles[k] == vehicle.value;
      var price := salePrice.value;
      var sale := Sale(id, selectedVehicleId, selectedCustomerId, price, saleDate, price - vehicle.value.pricePurchase);
      assert sale.profit == ProjectedProfit(store.vehicles, selectedVehicleId, salePrice);
      store.AddSale(sale);
      assert store.sales == [sale] + old(store.sales);
      selectedVehicleId := "";
      selectedCustomerId := "";
      salePrice := None;
      saleDate := today;
    }
  }
}
