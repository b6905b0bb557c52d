/**
 * The rows of the relational schema, reduced to the columns the order workflow and the reports read
 * or write. Enumerated columns become datatypes with one constructor per label. Monetary columns
 * (fixed-point decimals) are integers in the smallest currency unit; dates are day numbers; a nullable
 * column without a default is an `Option`, and a column with a default is taken as never NULL.
 */
module Records {
  import opened Wrappers
  import opened Folds

  /** Opaque primary key (a UUID in the database). */
  type Id = nat

  datatype Currency = JPY | AED | USD
  datatype Location = Japan | Dubai

  // Vehicle ----------------------------------------------------------------------------------------

  datatype VehicleStatus = Purchased | InTransit | InStockVehicle | Dismantling | SoldVehicle | Scrapped

  datatype Vehicle = Vehicle(
    purchasePrice: int,
    status: VehicleStatus,
    location: Location,
    containerId: Option<Id>)

  // Container --------------------------------------------------------------------------------------

  datatype ContainerStatus = Loading | InTransit | Arrived | Cleared | Delivered

  datatype Container = Container(
    status: ContainerStatus,
    arrivalDate: Option<int>,
    shippingCost: Option<int>,
    insuranceCost: Option<int>,
    customsDuty: Option<int>,
    clearanceFees: Option<int>,
    transportCost: Option<int>,
    /** Stored total, written by the client; nothing keeps it equal to the sum of the components. */
    totalCost: Option<int>,
    currency: Currency)

  // Inventory (parts) ------------------------------------------------------------------------------

  datatype Category = Engine | Transmission | Body | Interior | Electrical | Suspension | Brakes | OtherPart
  datatype StockStatus = InStock | Reserved | Sold | Damaged

  datatype Item = Item(
    category: Category,
    quantity: int,
    costPrice: int,
    sellingPrice: Option<int>,
    currency: Currency,
    location: Location,
    status: StockStatus,
    vehicleId: Option<Id>)

  // Customer ---------------------------------------------------------------------------------------

  datatype CustomerType = Retail | Wholesale | Garage | Dealer

  datatype Customer = Customer(
    kind: CustomerType,
    creditLimit: int,
    currentBalance: int,
    currency: Currency,
    isActive: bool)

  // Order and OrderItem ----------------------------------------------------------------------------

  datatype OrderStatus = Pending | Confirmed | Processing | Shipped | DeliveredOrder | Cancelled
  datatype PaymentStatus = Unpaid | Partial | Paid | Refunded

  /**
   * The labels a payment method can carry. The order table accepts the first four, the ledger
   * table the first three and `Check`.
   */
  datatype PaymentMethod = Cash | BankTransfer | CreditCard | Credit | Check

  predicate OrderAccepts(m: Option<PaymentMethod>)
  {
    m != Some(Check)
  }

  predicate LedgerAccepts(m: Option<PaymentMethod>)
  {
    m != Some(Credit)
  }

  datatype Order = Order(
    customerId: Id,
    orderDate: int,
    status: OrderStatus,
    paymentStatus: PaymentStatus,
    paymentMethod: Option<PaymentMethod>,
    subtotal: int,
    discount: int,
    tax: int,
    shippingCost: int,
    totalAmount: int,
    paidAmount: int,
    currency: Currency,
    location: Location)

  datatype OrderItem = OrderItem(
    orderId: Id,
    inventoryId: Id,
    quantity: int,
    unitPrice: int,
    discount: int,
    totalPrice: int)

  // Employee and Expense ---------------------------------------------------------------------------

  datatype Department = Management | Sales | Warehouse | Logistics | Finance | AdminDept
  datatype EmployeeStatus = Active | OnLeave | Terminated

  datatype Employee = Employee(
    department: Department,
    location: Location,
    salary: int,
    salaryCurrency: Currency,
    status: EmployeeStatus)

  datatype ExpenseType = SalaryPayment | Bonus | Allowance | Reimbursement | Deduction
  datatype ExpenseStatus = PendingExpense | Approved | PaidExpense | RejectedExpense

  datatype Expense = Expense(
    employeeId: Id,
    kind: ExpenseType,
    amount: int,
    currency: Currency,
    date: int,
    status: ExpenseStatus)

  // Property ---------------------------------------------------------------------------------------

  datatype PropertyType = WarehouseSite | Office | Showroom | Residential | Land
  datatype Ownership = Owned | Rented | Leased
  datatype PropertyStatus = ActiveProperty | Vacant | UnderMaintenance | SoldProperty

  datatype Property = Property(
    kind: PropertyType,
    location: Location,
    ownership: Ownership,
    monthlyRent: Option<int>,
    status: PropertyStatus)

  // Transaction (ledger entry) ---------------------------------------------------------------------

  datatype TxnType = Income | ExpenseTxn | Transfer
  datatype TxnCategory = SalesCat | Purchase | ShippingCat | Customs | SalaryCat | Rent
                       | Utilities | Maintenance | Insurance | Tax | OtherCat
  datatype Account = CashJapan | CashDubai | BankJapan | BankDubai
  datatype TxnStatus = PendingTxn | Completed | CancelledTxn

  datatype Transaction = Transaction(
    kind: TxnType,
    category: TxnCategory,
    amount: int,
    currency: Currency,
    date: int,
    paymentMethod: Option<PaymentMethod>,
    account: Option<Account>,
    location: Location,
    status: TxnStatus,
    propertyId: Option<Id>,
    orderId: Option<Id>,
    containerId: Option<Id>)

  // Date windows -----------------------------------------------------------------------------------

  /** An inclusive range of day numbers, as `Op.between` reads it. */
  datatype Window = Window(lo: int, hi: int)

  predicate InWindow(w: Window, d: int)
  {
    w.lo <= d <= w.hi
  }

  /** An optional location filter: `if (location) where.location = location`. */
  predicate AtLocation(filter: Option<Location>, l: Location)
  {
    filter.None? || filter.value == l
  }

  // Every label of the enumerations the reports group by, each once -------------------------------

  const AllOrderStatuses: seq<OrderStatus> := [Pending, Confirmed, Processing, Shipped, DeliveredOrder, Cancelled]
  const AllPaymentStatuses: seq<PaymentStatus> := [Unpaid, Partial, Paid, Refunded]
  const AllCategories: seq<Category> := [Engine, Transmission, Body, Interior, Electrical, Suspension, Brakes, OtherPart]
  const AllTxnCategories: seq<TxnCategory> :=
    [SalesCat, Purchase, ShippingCat, Customs, SalaryCat, Rent, Utilities, Maintenance, Insurance, Tax, OtherCat]
  const AllExpenseTypes: seq<ExpenseType> := [SalaryPayment, Bonus, Allowance, Reimbursement, Deduction]
  const AllDepartments: seq<Department> := [Management, Sales, Warehouse, Logistics, Finance, AdminDept]
  const AllLocations: seq<Location> := [Japan, Dubai]
  const AllPropertyTypes: seq<PropertyType> := [WarehouseSite, Office, Showroom, Residential, Land]
  const AllAccounts: seq<Account> := [CashJapan, CashDubai, BankJapan, BankDubai]
  /** The account keys of the by-account breakdown: the four accounts and "no account". */
  const AllAccountKeys: seq<Option<Account>> := [None, Some(CashJapan), Some(CashDubai), Some(BankJapan), Some(BankDubai)]

  lemma OrderStatusesListed()
    ensures NoDup(AllOrderStatuses)
    ensures forall x: OrderStatus :: x in AllOrderStatuses
  {
    forall x: OrderStatus ensures x in AllOrderStatuses {
      match x
      case Pending => case Confirmed => case Processing => case Shipped => case DeliveredOrder => case Cancelled =>
    }
  }

  lemma PaymentStatusesListed()
    ensures NoDup(AllPaymentStatuses)
    ensures forall x: PaymentStatus :: x in AllPaymentStatuses
  {
    forall x: PaymentStatus ensures x in AllPaymentStatuses {
      match x
      case Unpaid => case Partial => case Paid => case Refunded =>
    }
  }

  lemma CategoriesListed()
    ensures NoDup(AllCategories)
    ensures forall x: Category :: x in AllCategories
  {
    forall x: Category ensures x in AllCategories {
      match x
      case Engine => case Transmission => case Body => case Interior =>
      case Electrical => case Suspension => case Brakes => case OtherPart =>
    }
  }

  lemma TxnCategoriesListed()
    ensures NoDup(AllTxnCategories)
    ensures forall x: TxnCategory :: x in AllTxnCategories
  {
    forall x: TxnCategory ensures x in AllTxnCategories {
      match x
      case SalesCat => case Purchase => case ShippingCat => case Customs => case SalaryCat => case Rent =>
      case Utilities => case Maintenance => case Insurance => case Tax => case OtherCat =>
    }
  }

  lemma ExpenseTypesListed()
    ensures NoDup(AllExpenseTypes)
    ensures forall x: ExpenseType :: x in AllExpenseTypes
  {
    forall x: ExpenseType ensures x in AllExpenseTypes {
      match x
      case SalaryPayment => case Bonus => case Allowance => case Reimbursement => case Deduction =>
    }
  }

  lemma DepartmentsListed()
    ensures NoDup(AllDepartments)
    ensures forall x: Department :: x in AllDepartments
  {
    forall x: Department ensures x in AllDepartments {
      match x
      case Management => case Sales => case Warehouse => case Logistics => case Finance => case AdminDept =>
    }
  }

  lemma LocationsListed()
    ensures NoDup(AllLocations)
    ensures forall x: Location :: x in AllLocations
  {
    forall x: Location ensures x in AllLocations {
      match x
      case Japan => case Dubai =>
    }
  }

  lemma PropertyTypesListed()
    ensures NoDup(AllPropertyTypes)
    ensures forall x: PropertyType :: x in AllPropertyTypes
  {
    forall x: PropertyType ensures x in AllPropertyTypes {
      match x
      case WarehouseSite => case Office => case Showroom => case Residential => case Land =>
    }
  }

  lemma AccountKeysListed()
    ensures NoDup(AllAccountKeys)
    ensures forall x: Option<Account> :: x in AllAccountKeys
  {
    forall x: Option<Account> ensures x in AllAccountKeys {
      match x
      case None =>
      case Some(a) =>
        match a
        case CashJapan => case CashDubai => case BankJapan => case BankDubai =>
    }
  }
}
