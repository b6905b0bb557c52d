/**
 * The access policy of the API router (api/src/routes/api.js): every request must carry an
 * authenticated user, and a handful of routes further demand one of a listed set of roles. A route
 * is named by the resource it serves and the action it performs rather than by its HTTP method and
 * path.
 */
module Access {
  import opened Wrappers

  /** The roles a user account carries. */
  datatype Role = Admin | Manager | Staff

  datatype Resource = Vehicles | Containers | Inventory | Customers | Orders | Employees | Properties
                    | Transactions | Reports

  datatype Action =
    | List | Search | Show | Create | Update | Remove
    | ProfitLoss | AttachVehicle | Valuation | LowStock | CustomerBalance | MonthlySales
    | ChangeStatus | RecordPayment | ExpenseReport | AddExpense | IncomeReport
    | Summary | CashFlow | AccountBalances | Dashboard | Receivables | Payables

  datatype Route = Route(resource: Resource, action: Action)

  /** A registered route is open to every authenticated user, or restricted to the listed roles. */
  datatype Guard = Open | Restricted(roles: set<Role>)

  /** What the router answers: 401, 403, no such route, or the handler runs. */
  datatype Decision = Unauthenticated | Forbidden | NoRoute | Handled

  const Managers: set<Role> := {Admin, Manager}
  const AdminsOnly: set<Role> := {Admin}

  /** The route table, one entry per registration in the router, in the router's order. */
  function Lookup(r: Route): Option<Guard>
  {
    match r.resource
    case Vehicles =>
      (match r.action
       case List => Some(Open) case Search => Some(Open) case Show => Some(Open)
       case Create => Some(Open) case Update => Some(Open)
       case Remove => Some(Restricted(Managers))
       case _ => None)
    case Containers =>
      (match r.action
       case List => Some(Open) case Show => Some(Open) case ProfitLoss => Some(Open)
       case Create => Some(Open) case Update => Some(Open) case AttachVehicle => Some(Open)
       case Remove => Some(Restricted(Managers))
       case _ => None)
    case Inventory =>
      (match r.action
       case List => Some(Open) case Search => Some(Open) case Valuation => Some(Open)
       case LowStock => Some(Open) case Show => Some(Open) case Create => Some(Open)
       case Update => Some(Open)
       case Remove => Some(Restricted(Managers))
       case _ => None)
    case Customers =>
      (match r.action
       case List => Some(Open) case Search => Some(Open) case Show => Some(Open)
       case CustomerBalance => Some(Open) case Create => Some(Open) case Update => Some(Open)
       case Remove => Some(Restricted(Managers))
       case _ => None)
    case Orders =>
      (match r.action
       case List => Some(Open) case MonthlySales => Some(Open) case Show => Some(Open)
       case Create => Some(Open) case Update => Some(Open) case ChangeStatus => Some(Open)
       case RecordPayment => Some(Open)
       case Remove => Some(Restricted(Managers))
       case _ => None)
    case Employees =>
      (match r.action
       case List => Some(Open) case ExpenseReport => Some(Open) case Show => Some(Open)
       case Create => Some(Restricted(Managers)) case Update => Some(Restricted(Managers))
       case AddExpense => Some(Open)
       case Remove => Some(Restricted(AdminsOnly))
       case _ => None)
    case Properties =>
      (match r.action
       case List => Some(Open) case IncomeReport => Some(Open) case Show => Some(Open)
       case Create => Some(Restricted(Managers)) case Update => Some(Restricted(Managers))
       case Remove => Some(Restricted(AdminsOnly))
       case _ => None)
    case Transactions =>
      (match r.action
       case List => Some(Open) case Summary => Some(Open) case CashFlow => Some(Open)
       case AccountBalances => Some(Open) case Show => Some(Open) case Create => Some(Open)
       case Update => Some(Open)
       case Remove => Some(Restricted(Managers))
       case _ => None)
    case Reports =>
      (match r.action
       case Dashboard => Some(Open) case ProfitLoss => Some(Open) case Receivables => Some(Open)
       case Payables => Some(Open)
       case _ => None)
  }

  /**
   * The router's answer. Authentication is checked before anything else, for every request the
   * router sees; a role check runs only on a route that names roles, and lets a user through
   * exactly when the user's role is one of them.
   */
  function Decide(caller: Option<Role>, r: Route): (d: Decision)
    ensures caller.None? <==> d == Unauthenticated
    ensures d == Handled <==>
      caller.Some? && Lookup(r).Some? && (Lookup(r).value.Restricted? ==> caller.value in Lookup(r).value.roles)
    ensures d == NoRoute <==> caller.Some? && Lookup(r).None?
  {
    if caller.None? then Unauthenticated
    else match Lookup(r)
      case None => NoRoute
      case Some(Open) => Handled
      case Some(Restricted(roles)) => if caller.value in roles then Handled else Forbidden
  }

  // ---------------------------------------------------------------------------------------------
  // The policy, stated as rules

  /** Resources whose deletion only an administrator or a manager may request. */
  predicate ManagedDeletion(res: Resource)
  {
    res in {Vehicles, Containers, Inventory, Customers, Orders, Transactions}
  }

  /** Resources about people and premises: writing them is for managers, deleting for admins. */
  predicate Sensitive(res: Resource)
  {
    res == Employees || res == Properties
  }

  /** The roles the rules demand for a route: none beyond authentication for all but the listed cases. */
  function Demanded(r: Route): Option<set<Role>>
  {
    if r.action == Remove && Sensitive(r.resource) then Some(AdminsOnly)
    else if r.action == Remove then Some(Managers)
    else if (r.action == Create || r.action == Update) && Sensitive(r.resource) then Some(Managers)
    else None
  }

  /** The table follows the rules: every registered route demands exactly the roles the rules name. */
  lemma TableFollowsRules(r: Route)
    requires Lookup(r).Some?
    ensures Lookup(r).value.Restricted? <==> Demanded(r).Some?
    ensures Lookup(r).value.Restricted? ==> Lookup(r).value.roles == Demanded(r).value
  {
  }

  /** No request without an authenticated user reaches any handler, registered route or not. */
  lemma UnauthenticatedAlwaysRefused(r: Route)
    ensures Decide(None, r) == Unauthenticated
  {
  }

  /**
   * Deleting a vehicle, container, part, customer, order or ledger entry is handled for an
   * administrator or a manager and forbidden for staff.
   */
  lemma DeletionNeedsManager(res: Resource, role: Role)
    requires ManagedDeletion(res)
    ensures Decide(Some(role), Route(res, Remove)) == (if role == Staff then Forbidden else Handled)
  {
  }

  /** Deleting an employee or a property is handled for an administrator only. */
  lemma SensitiveDeletionNeedsAdmin(res: Resource, role: Role)
    requires Sensitive(res)
    ensures Decide(Some(role), Route(res, Remove)) == (if role == Admin then Handled else Forbidden)
  {
  }

  /** Creating or updating an employee or a property is handled for an administrator or a manager. */
  lemma SensitiveWritesNeedManager(res: Resource, a: Action, role: Role)
    requires Sensitive(res)
    requires a == Create || a == Update
    ensures Decide(Some(role), Route(res, a)) == (if role == Staff then Forbidden else Handled)
  {
  }

  /**
   * Every other registered route, order status changes, payments, expenses, ledger entries and the
   * reports among them, is handled for any authenticated user, staff included.
   */
  lemma OtherRoutesOpen(r: Route, role: Role)
    requires Lookup(r).Some?
    requires r.action != Remove
    requires !(Sensitive(r.resource) && (r.action == Create || r.action == Update))
    ensures Decide(Some(role), r) == Handled
  {
  }

  /** The roles are ordered: whatever staff may do a manager may do, and whatever a manager may do an
      administrator may do. */
  lemma RolesAreOrdered(r: Route)
    ensures Decide(Some(Staff), r) == Handled ==> Decide(Some(Manager), r) == Handled
    ensures Decide(Some(Manager), r) == Handled ==> Decide(Some(Admin), r) == Handled
    ensures Decide(Some(Admin), r) == Handled <==> Lookup(r).Some?
  {
  }
}
