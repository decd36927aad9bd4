/** The tables the write path touches, as values, and the requests that arrive. */
module Schema {
  import opened Base

  datatype Role = Owner | Admin | Cashier | OtherRole

  /** The authenticated caller, as the access token describes it. */
  datatype Actor = Actor(sub: Id, tenant: Id, role: Role)

  /** taxRate is the Decimal(5,2) column, counted in hundredths of a percent. */
  datatype Tenant = Tenant(active: bool, taxEnabled: bool, taxRate: nat)
  datatype User = User(tenant: Id, active: bool, role: Role, outlet: Option<Id>)
  datatype Outlet = Outlet(tenant: Id, active: bool)
  datatype Session = Session(tenant: Id, outlet: Id, user: Id, open: bool, closedAt: Option<int>)

  datatype Product = Product(tenant: Id, active: bool, name: string, sku: string, price: int, cost: int, trackStock: bool)
  datatype Group = Group(tenant: Id, active: bool, name: string)
  datatype Selection = Single | Multiple
  datatype Assignment = Assignment(
    tenant: Id, product: Id, group: Id, required: bool, selection: Selection, displayOrder: int)
  datatype ModOption = ModOption(tenant: Id, group: Id, active: bool, name: string, delta: int)
  datatype Catalog = Catalog(
    products: map<Id, Product>,
    groups: map<Id, Group>,
    assignments: seq<Assignment>,
    options: map<Id, ModOption>)

  datatype Method = Cash | Qris | Edc
  datatype PaymentStatus = PaymentPending | Paid | PaymentFailed | PaymentCancelled
  datatype SaleStatus = Pending | Completed | SaleCancelled | Void

  /** The same columns snapshot a chosen modifier under a sale line and under a held-order line. */
  datatype Modifier = Modifier(group: Id, option: Option<Id>, groupName: string, optionName: string, delta: int)
  datatype SaleItem = SaleItem(
    product: Id, quantity: int, unitPrice: int, unitCost: int, subtotal: int,
    name: Option<string>, sku: Option<string>, basePrice: Option<int>, effectivePrice: Option<int>,
    note: Option<string>, modifiers: seq<Modifier>)
  datatype Payment = Payment(paidBy: Method, status: PaymentStatus, amount: int, received: Option<int>, change: Option<int>)
  datatype Sale = Sale(
    tenant: Id, outlet: Id, user: Id, customer: Option<Id>, session: Option<Id>, key: Id, status: SaleStatus,
    subtotal: int, discount: int, tax: int, total: int, createdAt: int,
    items: seq<SaleItem>, payments: seq<Payment>)

  datatype StockKey = StockKey(outlet: Id, product: Id)
  datatype MovementKind = SaleMovement | AdjustmentMovement
  datatype Movement = Movement(tenant: Id, at: StockKey, user: Id, kind: MovementKind, quantity: int, reference: Id)
  datatype Adjustment = Adjustment(tenant: Id, at: StockKey, user: Id, add: bool, quantity: int)

  datatype HeldStatus = Open | Cancelled | Converted
  datatype HeldItem = HeldItem(
    product: Id, quantity: int, name: string, sku: string, basePrice: int, effectivePrice: int,
    lineSubtotal: int, lineDiscount: int, lineTotal: int,
    note: Option<string>, displayOrder: nat, modifiers: seq<Modifier>)
  datatype HeldOrder = HeldOrder(
    tenant: Id, outlet: Id, session: Id, cashier: Id, title: Option<string>, status: HeldStatus, version: nat,
    subtotal: int, tax: int, total: int, sale: Option<Id>, cancelledAt: Option<int>, convertedAt: Option<int>,
    items: seq<HeldItem>)

  /** One committed database state. */
  datatype Store = Store(
    tenants: map<Id, Tenant>, users: map<Id, User>, outlets: map<Id, Outlet>, customers: map<Id, Id>,
    catalog: Catalog, sessions: map<Id, Session>, sales: map<Id, Sale>,
    stock: map<StockKey, int>, movements: seq<Movement>, adjustments: map<Id, Adjustment>,
    orders: map<Id, HeldOrder>)

  datatype LineReq = LineReq(product: Id, quantity: int, options: seq<Id>, note: Option<string>)
  datatype PaymentReq = PaymentReq(paidBy: Method, amount: Option<int>, received: Option<int>)
  datatype SaleReq = SaleReq(
    key: Id, outlet: Id, session: Option<Id>, customer: Option<Id>, discount: int,
    items: seq<LineReq>, payment: PaymentReq)

  /** V1 is the public contract; LegacySync rows carry no cashier session. */
  datatype Mode = V1 | LegacySync

  datatype Reason =
    | InvalidInput | PaymentFieldNotAllowed | CashAmountReceivedRequired
    | Unauthorized | RoleForbidden | OutletNotFound | CustomerNotFound | DiscountForbidden
    | InvalidCashierSession | SessionOutletMismatch | SessionUserMismatch | OutletAccessDenied
    | ProductNotFound | CatalogConflict
    | ModifierOptionNotFound | ModifierGroupNotAssigned | ModifierSnapshotInvariantViolation
    | RequiredSingleMissing | RequiredSingleViolation | OptionalSingleViolation | RequiredMultipleNotSupported
    | DiscountExceedsSubtotal | InvalidAmount | TotalNotPositive | CashUnderpayment
    | IdempotencyPayloadMismatch | InsufficientStock | TransactionRetryRequired
    | HeldOrderNotFound | HeldOrderNotOpen | HeldOrderVersionConflict | HeldOrderConvertedNoLink
    | HeldOrderLinkMismatch | HeldOrderResourceConflict | HeldOrderTotalOutOfRange
    | ShiftNotFound | ShiftAccessDenied | ShiftAlreadyClosed | ShiftAlreadyOpen | OpenHeldOrdersExist | ShiftRetryRequired
    | StockTrackingDisabled | UserNotFound | ShiftOutletMismatch
    | DuplicateModifierGroupAssignment | InvalidModifierSelectionType
    | ModifierGroupNotFound | ModifierGroupAlreadyAssigned | AssignmentNotFound
    | InternalError

  /** The row has this primary key. */
  predicate Keyed(a: Assignment, tenant: Id, product: Id, group: Id) {
    a.tenant == tenant && a.product == product && a.group == group
  }

  ghost predicate UniqueKeys(table: seq<Assignment>) {
    forall i, j :: 0 <= i < j < |table| ==> !Keyed(table[j], table[i].tenant, table[i].product, table[i].group)
  }

  /** The column and key constraints every catalog row satisfies: int4 amounts, no negative price, cost or delta,
      named groups, and one assignment per (tenant, product, group). */
  ghost predicate CatalogOk(c: Catalog) {
    && (forall p <- c.products :: 0 <= c.products[p].price <= INT4_MAX && 0 <= c.products[p].cost <= INT4_MAX)
    && (forall o <- c.options :: 0 <= c.options[o].delta <= INT4_MAX)
    && (forall g <- c.groups :: c.groups[g].name != "")
    && UniqueKeys(c.assignments)
  }
}
