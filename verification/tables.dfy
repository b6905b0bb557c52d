/**
 * The database as an immutable value: one map per table from primary key to row. A workflow step is
 * a function from a store to an `Outcome`: either the committed store together with the step's
 * answer, or an error kind. An error carries no store, so a failed step commits nothing: this is how
 * the model states the rollback of the database transaction.
 */
module Tables {
  import opened Records

  datatype Store = Store(
    customers: map<Id, Customer>,
    inventory: map<Id, Item>,
    orders: map<Id, Order>,
    orderItems: map<Id, OrderItem>,
    transactions: map<Id, Transaction>,
    vehicles: map<Id, Vehicle>,
    containers: map<Id, Container>,
    employees: map<Id, Employee>,
    expenses: map<Id, Expense>)

  /**
   * The client-visible rejections: 404 for a missing row, 400 for too little stock or an order that
   * is no longer pending, and 500 when the database refuses a write (a NULL in a NOT NULL column or a
   * label outside a column's enumeration), which the handler's catch block rolls back.
   */
  datatype ErrorKind = NotFound | InsufficientStock | NotPending | Rejected

  datatype Outcome<R> = Ok(store: Store, value: R) | Err(error: ErrorKind)

  /** The answer of a step that writes nothing (a report, a lookup, a validation loop). */
  datatype Checked<T> = Pass(value: T) | Fail(error: ErrorKind)

  /** The store a caller observes after the step: the committed one, or the old one after a rollback. */
  function After<R>(s: Store, r: Outcome<R>): (t: Store)
    ensures r.Err? ==> t == s
    ensures r.Ok? ==> t == r.store
  {
    if r.Ok? then r.store else s
  }

  /** The rows of the named tables other than `orders`, `orderItems`, `inventory` and `transactions`. */
  predicate SameReferenceData(s: Store, t: Store)
  {
    && t.customers == s.customers
    && t.vehicles == s.vehicles
    && t.containers == s.containers
    && t.employees == s.employees
    && t.expenses == s.expenses
  }
}
