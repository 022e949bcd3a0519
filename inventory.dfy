/**
 * The inventory screen (components/Inventory.tsx): a vehicle's linked
 * expenses and total cost, the search filter, and the handlers that add a
 * vehicle, add an expense to a vehicle and confirm a deletion.
 */
module Inventory {
  import opened Wrappers
  import opened Types
  import opened Seqs
  import opened Text
  import Store
  import Dashboard

  const PlaceholderPhoto := "https://via.placeholder.com/400x300?text=Sem+Foto"

  /** The expenses whose `vehicleId` is `vehicleId`. */
  function ExpensesOf(expenses: seq<Expense>, vehicleId: string): (r: seq<Expense>)
    ensures forall e :: e in r <==> e in expenses && e.vehicleId == Some(vehicleId)
  {
    SelectByKey(expenses, ExpenseVehicle, Some(vehicleId))
  }

  /** The linked expenses keep the list's order, each as often as it occurs there. */
  lemma ExpensesOfInOrder(expenses: seq<Expense>, vehicleId: string, e: Expense)
    ensures IsSubsequence(ExpensesOf(expenses, vehicleId), expenses)
    ensures multiset(ExpensesOf(expenses, vehicleId))[e] == if e.vehicleId == Some(vehicleId) then multiset(expenses)[e] else 0
  {
    var p := KeyIs(ExpenseVehicle, Some(vehicleId));
    FilterIsSubsequence(expenses, p);
    FilterMultiplicity(expenses, p, e);
  }

  /** `currentVehicleExpenses`: the selected vehicle's expenses, none when nothing is selected. */
  function VehicleExpenses(expenses: seq<Expense>, selected: Option<Vehicle>): (r: seq<Expense>)
    ensures selected.None? ==> r == []
    ensures selected.Some? ==> forall e :: e in r <==> e in expenses && e.vehicleId == Some(selected.value.id)
  {
    if selected.None? then [] else ExpensesOf(expenses, selected.value.id)
  }

  /** The total cost shown on a vehicle's card: purchase price plus its linked expenses. */
  function VehicleTotalCost(expenses: seq<Expense>, v: Vehicle): (c: int)
    ensures (forall e :: e in expenses ==> e.vehicleId != Some(v.id)) ==> c == v.pricePurchase
  {
    var linked := ExpensesOf(expenses, v.id);
    assert linked != [] ==> linked[0] in linked;
    v.pricePurchase + Sum(linked, ExpenseAmount)
  }

  /** `currentVehicleTotalCost` in the expenses modal: the card's figure for the selected vehicle, 0 without one. */
  function SelectedTotalCost(expenses: seq<Expense>, selected: Option<Vehicle>): (r: int)
    ensures selected.None? ==> r == 0
    ensures selected.Some? ==> r == VehicleTotalCost(expenses, selected.value)
  {
    (if selected.Some? then selected.value.pricePurchase else 0) + Sum(VehicleExpenses(expenses, selected), ExpenseAmount)
  }

  /**
   * Recording an expense linked to `v` raises both the total expenses and
   * `v`'s total cost by its amount; an expense linked to no vehicle raises
   * the total expenses only.
   */
  lemma {:induction false} CostAfterExpense(expenses: seq<Expense>, e: Expense, v: Vehicle)
    ensures Dashboard.TotalExpenses([e] + expenses) == Dashboard.TotalExpenses(expenses) + e.amount
    ensures e.vehicleId == Some(v.id) ==> VehicleTotalCost([e] + expenses, v) == VehicleTotalCost(expenses, v) + e.amount
    ensures e.vehicleId != Some(v.id) ==> VehicleTotalCost([e] + expenses, v) == VehicleTotalCost(expenses, v)
  {
    var p := KeyIs(ExpenseVehicle, Some(v.id));
    SumConcat([e], expenses, ExpenseAmount);
    FilterConcat([e], expenses, p);
    assert [e][1..] == [];
    assert Filter([], p) == [];
    assert Filter([e], p) == (if p([e][0]) then [[e][0]] + Filter([e][1..], p) else Filter([e][1..], p));
    assert ExpenseVehicle(e) == e.vehicleId;
    assert p(e) == (ExpenseVehicle(e) == Some(v.id));
    assert Filter([e], p) == if e.vehicleId == Some(v.id) then [e] else [];
    SumConcat(Filter([e], p), Filter(expenses, p), ExpenseAmount);
    assert Sum([e], ExpenseAmount) == e.amount;
  }

  /** With non-negative amounts a vehicle costs at least its purchase price and at most that plus every expense. */
  lemma CostBounds(expenses: seq<Expense>, v: Vehicle)
    requires forall e :: e in expenses ==> e.amount >= 0
    ensures v.pricePurchase <= VehicleTotalCost(expenses, v) <= v.pricePurchase + Dashboard.TotalExpenses(expenses)
  {
    SumFilterAtMost(expenses, KeyIs(ExpenseVehicle, Some(v.id)), ExpenseAmount);
  }

  /** The search predicate: make, model or a non-empty plate includes the filter, ignoring case. */
  predicate MatchesSearch(v: Vehicle, filter: string) {
    var f := Lower(filter);
    || Contains(Lower(v.make), f)
    || Contains(Lower(v.model), f)
    || (v.plate != "" && Contains(Lower(v.plate), f))
  }

  function SearchFor(filter: string): Vehicle -> bool {
    (v: Vehicle) => MatchesSearch(v, filter)
  }

  /** `filteredVehicles`: the vehicles matching the search, in their order. */
  function FilteredVehicles(vehicles: seq<Vehicle>, filter: string): (r: seq<Vehicle>)
    ensures forall v :: v in r <==> v in vehicles && MatchesSearch(v, filter)
    ensures |r| <= |vehicles|
  {
    Filter(vehicles, SearchFor(filter))
  }

  /** An empty search box shows the whole inventory, in its order. */
  lemma EmptySearchKeepsAll(vehicles: seq<Vehicle>)
    ensures FilteredVehicles(vehicles, "") == vehicles
  {
    forall i | 0 <= i < |vehicles|
      ensures SearchFor("")(vehicles[i])
    {
      ContainsEmpty(Lower(vehicles[i].make));
    }
    FilterKeepsAll(vehicles, SearchFor(""));
  }

  /** The filtered list keeps the inventory's order. */
  lemma FilteredInOrder(vehicles: seq<Vehicle>, filter: string)
    ensures IsSubsequence(FilteredVehicles(vehicles, filter), vehicles)
  {
    FilterIsSubsequence(vehicles, SearchFor(filter));
  }

  /** The vehicle form. */
  datatype VehicleDraft = VehicleDraft(
    make: string,
    model: string,
    year: int,
    version: string,
    plate: string,
    mileage: int,
    color: string,
    fuel: FuelType,
    pricePurchase: int,
    priceSelling: int,
    status: VehicleStatus,
    description: string,
    photoUrl: string)

  /** The form as opened and as reset: empty text, this year, gasoline, zero prices, available. */
  function BlankVehicleDraft(currentYear: int): VehicleDraft {
    VehicleDraft("", "", currentYear, "", "", 0, "", Gasoline, 0, 0, Available, "", "")
  }

  /** The vehicle a submitted form describes: its fields, the new id, the placeholder photo when none was given. */
  function VehicleFromDraft(d: VehicleDraft, id: string, dateAdded: string): (v: Vehicle)
    ensures v.id == id && v.dateAdded == dateAdded
    ensures v.photoUrl == (if d.photoUrl == "" then PlaceholderPhoto else d.photoUrl)
    ensures v.photoUrl != ""
    ensures v.make == d.make && v.model == d.model && v.plate == d.plate && v.status == d.status
    ensures v.pricePurchase == d.pricePurchase && v.priceSelling == d.priceSelling
    ensures v.year == d.year && v.version == d.version && v.mileage == d.mileage
    ensures v.color == d.color && v.fuel == d.fuel && v.description == d.description
  {
    Vehicle(id, d.make, d.model, d.year, d.version, d.plate, d.mileage, d.color, d.fuel,
            d.pricePurchase, d.priceSelling, d.status, d.description,
            if d.photoUrl == "" then PlaceholderPhoto else d.photoUrl, dateAdded)
  }

  /** The expense form of the vehicle-expenses modal. */
  datatype ExpenseDraft = ExpenseDraft(description: string, amount: int, category: ExpenseCategory, date: Option<Date>)

  function BlankExpenseDraft(today: Date): ExpenseDraft {
    ExpenseDraft("", 0, Manutencao, Some(today))
  }

  class InventoryView {
    const store: Store.StoreState
    var vehicleToDelete: Option<string>
    var vehicleForExpenses: Option<Vehicle>
    var newVehicle: VehicleDraft
    var newExpense: ExpenseDraft

    constructor (store: Store.StoreState, today: Date)
      ensures this.store == store
      ensures vehicleToDelete == None && vehicleForExpenses == None
      ensures newVehicle == BlankVehicleDraft(today.year) && newExpense == BlankExpenseDraft(today)
    {
      this.store := store;
      vehicleToDelete := None;
      vehicleForExpenses := None;
      newVehicle := BlankVehicleDraft(today.year);
      newExpense := BlankExpenseDraft(today);
    }

    /** `handleSubmit`: adds the vehicle the form describes, first in the list, and resets the form. */
    method HandleSubmit(id: string, dateAdded: string, currentYear: int)
      requires store.Valid()
      modifies this`newVehicle, store`vehicles
      ensures store.Valid()
      ensures store.vehicles == [VehicleFromDraft(old(newVehicle), id, dateAdded)] + old(store.vehicles)
      ensures newVehicle == BlankVehicleDraft(currentYear)
    {
      var vehicle := VehicleFromDraft(newVehicle, id, dateAdded);
      store.AddVehicle(vehicle);
      newVehicle := BlankVehicleDraft(currentYear);
    }

    /**
     * `handleAddExpense`: without a selected vehicle, a description or a
     * non-zero amount nothing happens; otherwise an expense linked to the
     * selected vehicle is added first and the form is reset.
     */
    method HandleAddExpense(id: string, today: Date)
      requires store.Valid()
      modifies this`newExpense, store`expenses
      ensures store.Valid()
      ensures vehicleForExpenses.None? || old(newExpense).description == "" || old(newExpense).amount == 0 ==>
                store.expenses == old(store.expenses) && newExpense == old(newExpense)
      ensures vehicleForExpenses.Some? && old(newExpense).description != "" && old(newExpense).amount != 0 ==>
                var d := old(newExpense);
                && store.expenses == [Expense(id, d.description, d.category, d.amount, d.date.GetOr(today),
                                              Some(vehicleForExpenses.value.id))] + old(store.expenses)
                && newExpense == BlankExpenseDraft(today)
    {
      if vehicleForExpenses.None? || newExpense.description == "" || newExpense.amount == 0 {
        return;
      }
      var expense := Expense(id, newExpense.description, newExpense.category, newExpense.amount,
                             newExpense.date.GetOr(today), Some(vehicleForExpenses.value.id));
      store.AddExpense(expense);
      newExpense := BlankExpenseDraft(today);
    }

    /** `confirmDelete`: removes the pending vehicle and clears the pending id, only when one is pending. */
    method ConfirmDelete()
      requires store.Valid()
      modifies this`vehicleToDelete, store`vehicles
      ensures store.Valid()
      ensures old(vehicleToDelete).Some? && old(vehicleToDelete).value != "" ==>
                store.vehicles == RemoveById(old(store.vehicles), VehicleKey, old(vehicleToDelete).value)
                && vehicleToDelete == None
      ensures !(old(vehicleToDelete).Some? && old(vehicleToDelete).value != "") ==>
                store.vehicles == old(store.vehicles) && vehicleToDelete == old(vehicleToDelete)
    {
      if vehicleToDelete.Some? && vehicleToDelete.value != "" {
        store.RemoveVehicle(vehicleToDelete.value);
        vehicleToDelete := None;
      }
    }
  }
}
