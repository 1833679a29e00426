/** The record shapes of the data layer. Amounts, quantities and prices are
    whole numbers and every timestamp or calendar date is an integer (its
    position on the time line), so that "newest first" is integer order. */
module Records {

  datatype BranchType = Gas | Fuel

  /** The string the application stores and compares for a branch type. */
  function BranchTypeName(t: BranchType): (s: string)
    ensures s == "gas" || s == "fuel"
  {
    match t
    case Gas => "gas"
    case Fuel => "fuel"
  }

  datatype UserRole = SuperAdmin | OrgOwner | GasManager | FuelManager | SalesStaff

  /** A missing `tenant_id` is represented by the empty string: both are falsy. */
  datatype User = User(
    id: string,
    email: string,
    name: string,
    role: UserRole,
    tenantId: string,
    assignedBranches: seq<string>,
    assignedBranchTypes: seq<BranchType>,
    createdAt: int)

  datatype BranchStatus = Active | Inactive

  datatype Branch = Branch(
    id: string,
    tenantId: string,
    name: string,
    kind: BranchType,
    location: string,
    status: BranchStatus,
    managerId: string,
    createdAt: int)

  function BranchId(b: Branch): string { b.id }

  datatype CylinderSize = Kg12_5 | Kg25 | Kg50
  datatype CylinderStatus = InStock | Refilling | Damaged

  datatype GasCylinder = GasCylinder(
    id: string,
    branchId: string,
    size: CylinderSize,
    status: CylinderStatus,
    quantity: int,
    purchasePrice: int,
    sellingPrice: int,
    lastUpdated: int)

  datatype GasTransactionType = Sale | Purchase | Refill

  datatype GasTransaction = GasTransaction(
    id: string,
    branchId: string,
    kind: GasTransactionType,
    cylinderSize: string,
    quantity: int,
    amount: int,
    notes: string,
    createdAt: int)

  function GasTransactionId(t: GasTransaction): string { t.id }
  function GasTransactionCreatedAt(t: GasTransaction): int { t.createdAt }

  datatype FuelType = PMS | AGO | DPK

  datatype FuelProduct = FuelProduct(
    id: string,
    branchId: string,
    kind: FuelType,
    quantity: int,
    unitPrice: int,
    totalValue: int)

  datatype ShiftReconciliation = ShiftReconciliation(
    id: string,
    branchId: string,
    shiftNumber: int,
    pumpId: string,
    startReading: int,
    endReading: int,
    salesAmount: int,
    variance: int,
    createdAt: int)

  function ShiftId(s: ShiftReconciliation): string { s.id }
  function ShiftCreatedAt(s: ShiftReconciliation): int { s.createdAt }

  /** Gas and fuel expenses share one shape; the category strings differ. */
  datatype Expense = Expense(
    id: string,
    branchId: string,
    category: string,
    amount: int,
    description: string,
    createdAt: int)

  function ExpenseId(e: Expense): string { e.id }

  datatype GasPumpReading = GasPumpReading(
    id: string,
    pumpNumber: string,
    startReading: int,
    endReading: int,
    kgDispensed: int)

  datatype GasPaymentBreakdown = GasPaymentBreakdown(transfer: int, cash: int, pos: int, total: int)

  datatype GasDailyActivity = GasDailyActivity(
    id: string,
    branchId: string,
    date: int,
    pumpReadings: seq<GasPumpReading>,
    systemRecordKg: int,
    sunAdjustmentKg: int,
    totalKg: int,
    paymentBreakdown: GasPaymentBreakdown,
    createdAt: int)

  function ActivityDate(a: GasDailyActivity): int { a.date }

  /** The record of the notification store, declared in that store's own file. */
  datatype NotificationItem = NotificationItem(
    id: string,
    title: string,
    message: string,
    createdAt: int,
    read: bool)
}
