/**
 * The local-only data store (services/store.tsx): the registered users, the
 * session, the four collections of the logged-in store and its profile, and
 * the per-user documents kept in local storage.
 */
module Store {
  import opened Wrappers
  import opened Types
  import opened Seqs

  const DataStoragePrefix := "autocars_data_"

  /** The local-storage key of a user's data document. */
  function DataKey(userId: string): string { DataStoragePrefix + userId }

  /** A parsed data document; any of its keys may be missing. */
  datatype Bundle = Bundle(
    vehicles: Option<seq<Vehicle>>,
    customers: Option<seq<Customer>>,
    sales: Option<seq<Sale>>,
    expenses: Option<seq<Expense>>,
    storeProfile: Option<StoreProfile>)

  /** The data a session works on. */
  datatype Workspace = Workspace(
    vehicles: seq<Vehicle>,
    customers: seq<Customer>,
    sales: seq<Sale>,
    expenses: seq<Expense>,
    storeProfile: StoreProfile)

  /** The profile a store starts with: its own name and email, no phone, a 20% target. */
  function InitialProfile(user: User): StoreProfile {
    StoreProfile(user.storeName, user.email, "", 20.0)
  }

  /** `initializeEmptyData`: empty collections and the initial profile. */
  function EmptyWorkspace(user: User): (w: Workspace)
    ensures w.vehicles == [] && w.customers == [] && w.sales == [] && w.expenses == []
    ensures w.storeProfile.name == user.storeName && w.storeProfile.email == user.email
    ensures w.storeProfile.phone == "" && w.storeProfile.targetMargin == 20.0
  {
    Workspace([], [], [], [], InitialProfile(user))
  }

  /**
   * The data login installs for `user` from the slot under its data key: a
   * missing or corrupt document gives the empty workspace, a parsed one gives
   * each of its keys, with a missing key defaulting as for an empty workspace.
   */
  function LoadWorkspace(user: User, saved: Slot<Bundle>): (w: Workspace)
    ensures !saved.Present? ==> w == EmptyWorkspace(user)
    ensures saved.Present? ==>
      && (saved.value.vehicles.Some? ==> w.vehicles == saved.value.vehicles.value)
      && (saved.value.vehicles.None? ==> w.vehicles == [])
      && (saved.value.customers.Some? ==> w.customers == saved.value.customers.value)
      && (saved.value.customers.None? ==> w.customers == [])
      && (saved.value.sales.Some? ==> w.sales == saved.value.sales.value)
      && (saved.value.sales.None? ==> w.sales == [])
      && (saved.value.expenses.Some? ==> w.expenses == saved.value.expenses.value)
      && (saved.value.expenses.None? ==> w.expenses == [])
      && (saved.value.storeProfile.Some? ==> w.storeProfile == saved.value.storeProfile.value)
      && (saved.value.storeProfile.None? ==> w.storeProfile == InitialProfile(user))
  {
    match saved
    case Present(b) =>
      Workspace(
        b.vehicles.GetOr([]),
        b.customers.GetOr([]),
        b.sales.GetOr([]),
        b.expenses.GetOr([]),
        b.storeProfile.GetOr(InitialProfile(user)))
    case _ => EmptyWorkspace(user)
  }

  /** The document the persistence effect writes: every key present. */
  function Snapshot(w: Workspace): Bundle {
    Bundle(Some(w.vehicles), Some(w.customers), Some(w.sales), Some(w.expenses), Some(w.storeProfile))
  }

  /** Loading a document the store wrote gives back exactly the data that was written. */
  lemma LoadSnapshot(user: User, w: Workspace)
    ensures LoadWorkspace(user, Present(Snapshot(w))) == w
  {
  }

  /** The slot read for `key`: absent when nothing is stored under it. */
  function Read(storage: map<string, Slot<Bundle>>, key: string): Slot<Bundle> {
    if key in storage then storage[key] else Absent
  }

  /** The predicate of login's lookup. */
  function HasCredentials(email: string, password: string): User -> bool {
    (u: User) => u.email == email && u.password == password
  }

  /** `users.find(u => u.email === email && u.password === password)`. */
  function FindUser(users: seq<User>, email: string, password: string): (r: Option<User>)
    ensures r.Some? ==> r.value in users && r.value.email == email && r.value.password == password
    ensures r.None? <==> forall u :: u in users ==> !(u.email == email && u.password == password)
  {
    FindFirst(users, HasCredentials(email, password))
  }

  /** A freshly registered user is found by its own credentials. */
  lemma {:induction false} FindRegisteredUser(users: seq<User>, u: User)
    requires forall v :: v in users ==> v.email != u.email
    ensures FindUser(users + [u], u.email, u.password) == Some(u)
  {
    var all := users + [u];
    var p := HasCredentials(u.email, u.password);
    assert all[|users|] == u && p(u);
    var r := FindFirst(all, p);
    var i :| 0 <= i < |all| && all[i] == r.value && p(all[i]) && forall j :: 0 <= j < i ==> !p(all[j]);
  }

  /** `users.find(u => u.email === email)` succeeds. */
  predicate EmailTaken(users: seq<User>, email: string) {
    exists u :: u in users && u.email == email
  }

  /**
   * `after` is `before` with every vehicle of id `id` replaced by the first
   * such vehicle marked sold, every other vehicle kept in its place.
   */
  ghost predicate MarkedSold(before: seq<Vehicle>, after: seq<Vehicle>, id: string) {
    && |after| == |before|
    && (forall i :: 0 <= i < |after| && before[i].id != id ==> after[i] == before[i])
    && (forall i :: 0 <= i < |after| && before[i].id == id ==> after[i].status == Sold)
    && (forall i, j :: 0 <= i < |after| && before[i].id == id && IsFirstKey(before, VehicleKey, id, j) ==>
          after[i] == before[j].(status := Sold))
  }

  class StoreState {
    var users: seq<User>
    var currentUser: Option<User>
    var isAuthenticated: bool
    var isDataLoaded: bool
    var vehicles: seq<Vehicle>
    var customers: seq<Customer>
    var sales: seq<Sale>
    var expenses: seq<Expense>
    var storeProfile: StoreProfile
    /** The data documents of local storage, by key. */
    var storage: map<string, Slot<Bundle>>

    /** The session is coherent: authenticated exactly when a registered user is current, loaded only then. */
    ghost predicate Valid()
      reads this
    {
      && (isAuthenticated <==> currentUser.Some?)
      && (isDataLoaded ==> isAuthenticated)
      && (currentUser.Some? ==> currentUser.value in users)
    }

    function Data(): Workspace
      reads this
    {
      Workspace(vehicles, customers, sales, expenses, storeProfile)
    }

    /** The guard of the persistence effect. */
    predicate CanPersist()
      reads this
    {
      currentUser.Some? && isAuthenticated && isDataLoaded
    }

    /** The provider's initial state: the user list read from local storage, no session, no data. */
    constructor (savedUsers: Slot<seq<User>>, storage: map<string, Slot<Bundle>>)
      ensures Valid()
      ensures users == (if savedUsers.Present? then savedUsers.value else [])
      ensures currentUser == None && !isAuthenticated && !isDataLoaded
      ensures Data() == Workspace([], [], [], [], EmptyStoreProfile)
      ensures this.storage == storage
    {
      users := if savedUsers.Present? then savedUsers.value else [];
      currentUser := None;
      isAuthenticated := false;
      isDataLoaded := false;
      vehicles, customers, sales, expenses := [], [], [], [];
      storeProfile := EmptyStoreProfile;
      this.storage := storage;
    }

    /** The persistence effect: writes the current data under the current user's key, only once loaded. */
    method Persist()
      requires Valid()
      modifies this`storage
      ensures Valid()
      ensures CanPersist() ==> storage == old(storage)[DataKey(currentUser.value.id) := Present(Snapshot(Data()))]
      ensures !CanPersist() ==> storage == old(storage)
    {
      if currentUser.Some? && isAuthenticated && isDataLoaded {
        storage := storage[DataKey(currentUser.value.id) := Present(Snapshot(Data()))];
      }
    }

    method AddVehicle(v: Vehicle)
      requires Valid()
      modifies this`vehicles
      ensures Valid()
      ensures vehicles == [v] + old(vehicles)
    {
      vehicles := [v] + vehicles;
    }

    method UpdateVehicle(v: Vehicle)
      requires Valid()
      modifies this`vehicles
      ensures Valid()
      ensures vehicles == ReplaceById(old(vehicles), VehicleKey, v)
    {
      vehicles := ReplaceById(vehicles, VehicleKey, v);
    }

    method RemoveVehicle(id: string)
      requires Valid()
      modifies this`vehicles
      ensures Valid()
      ensures vehicles == RemoveById(old(vehicles), VehicleKey, id)
    {
      vehicles := RemoveById(vehicles, VehicleKey, id);
    }

    method AddCustomer(c: Customer)
      requires Valid()
      modifies this`customers
      ensures Valid()
      ensures customers == [c] + old(customers)
    {
      customers := [c] + customers;
    }

    method RemoveCustomer(id: string)
      requires Valid()
      modifies this`customers
      ensures Valid()
      ensures customers == RemoveById(old(customers), CustomerKey, id)
    {
      customers := RemoveById(customers, CustomerKey, id);
    }

    /**
     * Records a sale and marks the vehicle it names as sold: every vehicle
     * with that id is replaced by the first one found, with status Sold.
     */
    method AddSale(s: Sale)
      requires Valid()
      modifies this`sales, this`vehicles
      ensures Valid()
      ensures sales == [s] + old(sales)
      ensures MarkedSold(old(vehicles), vehicles, s.vehicleId)
      ensures (forall i :: 0 <= i < |old(vehicles)| ==> old(vehicles)[i].id != s.vehicleId) ==> vehicles == old(vehicles)
    {
      sales := [s] + sales;
      var vehicle := FindByKey(vehicles, VehicleKey, s.vehicleId);
      if vehicle.Some? {
        ghost var k :| IsFirstKey(vehicles, VehicleKey, s.vehicleId, k) && vehicles[k] == vehicle.value;
        assert forall j :: IsFirstKey(vehicles, VehicleKey, s.vehicleId, j) ==> j == k;
        var sold := vehicle.value.(status := Sold);
        assert VehicleKey(sold) == s.vehicleId;
        UpdateVehicle(sold);
      }
    }

    method AddExpense(e: Expense)
      requires Valid()
      modifies this`expenses
      ensures Valid()
      ensures expenses == [e] + old(expenses)
    {
      expenses := [e] + expenses;
    }

    method RemoveExpense(id: string)
      requires Valid()
      modifies this`expenses
      ensures Valid()
      ensures expenses == RemoveById(old(expenses), ExpenseKey, id)
    {
      expenses := RemoveById(expenses, ExpenseKey, id);
    }

    method UpdateStoreProfile(p: StoreProfile)
      requires Valid()
      modifies this`storeProfile
      ensures Valid()
      ensures storeProfile == p
    {
      storeProfile := p;
    }

    /** `initializeEmptyData`: installs the empty workspace and opens the persistence guard. */
    method InitializeEmptyData(user: User)
      requires Valid() && isAuthenticated
      modifies this`vehicles, this`customers, this`sales, this`expenses, this`storeProfile, this`isDataLoaded
      ensures Valid()
      ensures Data() == EmptyWorkspace(user) && isDataLoaded
    {
      vehicles, customers, sales, expenses := [], [], [], [];
      storeProfile := InitialProfile(user);
      isDataLoaded := true;
    }

    /**
     * Logs in the first user whose email and password both match exactly and
     * loads that user's document; fails and changes nothing when none matches.
     */
    method Login(email: string, password: string) returns (ok: bool)
      requires Valid()
      modifies this
      ensures Valid()
      ensures ok <==> exists u :: u in users && u.email == email && u.password == password
      ensures users == old(users) && storage == old(storage)
      ensures ok ==> currentUser == FindUser(users, email, password)
      ensures ok ==> isAuthenticated && isDataLoaded
      ensures ok ==> Data() == LoadWorkspace(currentUser.value, Read(storage, DataKey(currentUser.value.id)))
      ensures !ok ==> unchanged(this)
    {
      var user := FindUser(users, email, password);
      if user.None? {
        return false;
      }
      var u := user.value;
      assert u in users;
      currentUser := Some(u);
      isAuthenticated := true;
      var saved := Read(storage, DataKey(u.id));
      if saved.Present? {
        Install(LoadWorkspace(u, saved));
      } else {
        InitializeEmptyData(u);
      }
      return true;
    }

    /** Installs a loaded workspace and opens the persistence guard. */
    method Install(w: Workspace)
      requires Valid() && isAuthenticated
      modifies this`vehicles, this`customers, this`sales, this`expenses, this`storeProfile, this`isDataLoaded
      ensures Valid()
      ensures Data() == w && isDataLoaded
    {
      vehicles, customers, sales, expenses, storeProfile := w.vehicles, w.customers, w.sales, w.expenses, w.storeProfile;
      isDataLoaded := true;
    }

    /**
     * Registers a new user unless the email is taken, appending it to the user
     * list and logging it in on an empty workspace.
     */
    method Register(email: string, password: string, storeName: string, role: Option<Role>, newId: string)
      returns (ok: bool)
      requires Valid()
      modifies this
      ensures Valid()
      ensures ok <==> !EmailTaken(old(users), email)
      ensures !ok ==> unchanged(this)
      ensures storage == old(storage)
      ensures ok ==>
        var u := User(newId, email, password, storeName, role);
        && users == old(users) + [u]
        && currentUser == Some(u) && isAuthenticated && isDataLoaded
        && Data() == EmptyWorkspace(u)
    {
      if FindFirst(users, KeyIs(UserEmail, email)).Some? {
        return false;
      }
      var newUser := User(newId, email, password, storeName, role);
      users := users + [newUser];
      currentUser := Some(newUser);
      isAuthenticated := true;
      InitializeEmptyData(newUser);
      return true;
    }

    /** Ends the session and clears the data in memory; local storage is kept. */
    method Logout()
      requires Valid()
      modifies this
      ensures Valid()
      ensures currentUser == None && !isAuthenticated && !isDataLoaded
      ensures Data() == Workspace([], [], [], [], EmptyStoreProfile)
      ensures users == old(users) && storage == old(storage)
    {
      currentUser := None;
      isAuthenticated := false;
      isDataLoaded := false;
      vehicles, customers, sales, expenses := [], [], [], [];
      storeProfile := EmptyStoreProfile;
    }
  }

  /** `u.email`, the key of the duplicate check at registration. */
  function UserEmail(u: User): string { u.email }

  /**
   * What the persistence guard buys: data saved by a loaded session is what the
   * same user finds after logging out and in again.
   */
  method SaveLogoutLogin(st: StoreState) returns (ok: bool)
    requires st.Valid() && st.CanPersist()
    requires FindUser(st.users, st.currentUser.value.email, st.currentUser.value.password) == st.currentUser
    modifies st
    ensures st.Valid()
    ensures ok && st.currentUser == old(st.currentUser) && st.Data() == old(st.Data())
  {
    var user := st.currentUser.value;
    st.Persist();
    st.Logout();
    ok := st.Login(user.email, user.password);
    LoadSnapshot(user, old(st.Data()));
  }

  /** A user registered with an unused email can log in with the credentials given. */
  method RegisterThenLogin(st: StoreState, email: string, password: string, storeName: string, newId: string)
    returns (ok: bool)
    requires st.Valid() && !EmailTaken(st.users, email)
    modifies st
    ensures st.Valid()
    ensures ok && st.currentUser == Some(User(newId, email, password, storeName, None))
  {
    var registered := st.Register(email, password, storeName, None, newId);
    st.Logout();
    FindRegisteredUser(old(st.users), User(newId, email, password, storeName, None));
    ok := st.Login(email, password);
  }
}
