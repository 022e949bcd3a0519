/** The records and enumerations of the dealership back office (types.ts). */
module Types {
  import opened Wrappers

  datatype VehicleStatus = Available | Reserved | Sold

  datatype FuelType = Gasoline | Ethanol | Diesel | Hybrid | Electric

  /**
   * A calendar date as the forms store it ("YYYY-MM-DD"). The month counts
   * from 0, as JavaScript's `getMonth` does.
   */
  datatype Date = Date(year: int, month: int, day: int)

  /** Money is kept in centavos. */
  datatype Vehicle = Vehicle(
    id: string,
    make: string,
    model: string,
    year: int,
    version: string,
    plate: string,
    mileage: int,
    color: string,
    fuel: FuelType,
    pricePurchase: int,
    priceSelling: int,
    status: VehicleStatus,
    description: string,
    photoUrl: string,
    dateAdded: string)

  datatype CustomerStatus = Lead | Negociacao | Cliente

  datatype Customer = Customer(
    id: string,
    name: string,
    email: string,
    phone: string,
    address: string,
    status: CustomerStatus,
    notes: string)

  /** `profit` is fixed when the sale is recorded and never recomputed. */
  datatype Sale = Sale(
    id: string,
    vehicleId: string,
    customerId: string,
    salePrice: int,
    date: Date,
    profit: int)

  /**
   * The five declared categories, plus Documentação and Peças, which only the
   * vehicle-expense form offers (it stores its choice past the declared type).
   */
  datatype ExpenseCategory = Aluguel | Contas | Manutencao | Marketing | Outros | Documentacao | Pecas

  /** An expense with a `vehicleId` counts towards that vehicle's total cost. */
  datatype Expense = Expense(
    id: string,
    description: string,
    category: ExpenseCategory,
    amount: int,
    date: Date,
    vehicleId: Option<string>)

  /** `targetMargin` is a percentage. */
  datatype StoreProfile = StoreProfile(name: string, email: string, phone: string, targetMargin: real)

  datatype Role = Admin | RegularUser

  datatype User = User(id: string, email: string, password: string, storeName: string, role: Option<Role>)

  datatype LicenseStatus = LicenseAvailable | LicenseUsed | LicenseRevoked

  datatype License = License(
    key: string,
    status: LicenseStatus,
    generatedBy: string,
    createdAt: string,
    usedBy: Option<string>,
    usedAt: Option<string>)

  /** The profile shown while nobody is logged in. */
  const EmptyStoreProfile := StoreProfile("", "", "", 20.0)

  // Field selectors, passed to the generic list operations of module Seqs.

  function VehicleKey(v: Vehicle): string { v.id }
  function CustomerKey(c: Customer): string { c.id }
  function ExpenseKey(e: Expense): string { e.id }
  function ExpenseVehicle(e: Expense): Option<string> { e.vehicleId }

  function SalePrice(s: Sale): int { s.salePrice }
  function SaleProfit(s: Sale): int { s.profit }
  function ExpenseAmount(e: Expense): int { e.amount }

  predicate IsAvailable(v: Vehicle) { v.status == Available }
  predicate IsMaintenance(e: Expense) { e.category == Manutencao }
}
