/**
 * The customers screen (components/Customers.tsx): adding a customer and the
 * two-step deletion through a confirmation dialog.
 */
module Customers {
  import opened Wrappers
  import opened Types
  import opened Seqs
  import Store

  /** The customer form. */
  datatype CustomerDraft = CustomerDraft(name: string, email: string, phone: string, address: string,
                                         status: CustomerStatus, notes: string)

  /** The form as opened and as reset: empty text, status Lead. */
  const BlankCustomerDraft := CustomerDraft("", "", "", "", Lead, "")

  /** The customer a submitted form describes, under the new id. */
  function CustomerFromDraft(d: CustomerDraft, id: string): (c: Customer)
    ensures c.id == id && c.name == d.name && c.email == d.email && c.phone == d.phone
    ensures c.address == d.address && c.status == d.status && c.notes == d.notes
  {
    Customer(id, d.name, d.email, d.phone, d.address, d.status, d.notes)
  }

  class CustomersView {
    const store: Store.StoreState
    var newCustomer: CustomerDraft
    var customerToDelete: Option<string>

    constructor (store: Store.StoreState)
      ensures this.store == store && newCustomer == BlankCustomerDraft && customerToDelete == None
    {
      this.store := store;
      newCustomer := BlankCustomerDraft;
      customerToDelete := None;
    }

    /** `handleAdd`: without a name nothing happens; otherwise the customer is added first and the form is reset. */
    method HandleAdd(id: string)
      requires store.Valid()
      modifies this`newCustomer, store`customers
      ensures store.Valid()
      ensures old(newCustomer).name == "" ==> store.customers == old(store.customers) && newCustomer == old(newCustomer)
      ensures old(newCustomer).name != "" ==>
                store.customers == [CustomerFromDraft(old(newCustomer), id)] + old(store.customers)
                && newCustomer == BlankCustomerDraft
    {
      if newCustomer.name != "" {
        store.AddCustomer(CustomerFromDraft(newCustomer, id));
        newCustomer := BlankCustomerDraft;
      }
    }

    /** `initiateDelete`: remembers which customer the confirmation dialog is about. */
    method InitiateDelete(id: string)
      modifies this`customerToDelete
      ensures customerToDelete == Some(id)
    {
      customerToDelete := Some(id);
    }

    /** `confirmDelete`: removes every customer with the pending id and closes the dialog, only when an id is pending. */
    method ConfirmDelete()
      requires store.Valid()
      modifies this`customerToDelete, store`customers
      ensures store.Valid()
      ensures old(customerToDelete).Some? && old(customerToDelete).value != "" ==>
                store.customers == RemoveById(old(store.customers), CustomerKey, old(customerToDelete).value)
                && customerToDelete == None
      ensures !(old(customerToDelete).Some? && old(customerToDelete).value != "") ==>
                store.customers == old(store.customers) && customerToDelete == old(customerToDelete)
    {
      if customerToDelete.Some? && customerToDelete.value != "" {
        store.RemoveCustomer(customerToDelete.value);
        customerToDelete := None;
      }
    }
  }

  /** Asking to delete a customer and confirming leaves no customer with that id and every other one in place. */
  method DeleteCustomer(view: CustomersView, id: string)
    requires view.store.Valid() && id != ""
    modifies view`customerToDelete, view.store`customers
    ensures view.store.Valid()
    ensures forall c :: c in view.store.customers <==> c in old(view.store.customers) && c.id != id
    ensures view.customerToDelete == None
  {
    view.InitiateDelete(id);
    view.ConfirmDelete();
  }
}
