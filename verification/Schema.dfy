/**
  The rows and tables of the Big Neon database, and the connection through which
  every model method reads and writes them.

  A table whose rows are never deleted is a sequence indexed by row id; the others are
  maps from row id to row. A `Connection` holds the tables in place, the way a
  PostgreSQL session sees them inside its transaction, together with the tables as
  they were last committed.
*/
module Schema {

  type Id = nat
  type Time = int
  type u32 = x: int | 0 <= x < U32_SIZE

  const U32_SIZE: int := 0x1_0000_0000

  /** Rust's `as u32` cast: keeps the low 32 bits, whatever the sign. */
  function ToU32(x: int): (r: u32) {
    x % U32_SIZE
  }

  datatype Option<+T> = None | Some(value: T)

  datatype ErrorCode =
    | BusinessProcessError
    | ConcurrencyError
    | ForeignKeyError
    | InsertError
    | InternalError
    | MultipleResultsWhenOneExpected
    | NoResults
    | QueryError
    | UpdateError
    | ValidationError

  datatype Result<+T> = Ok(value: T) | Err(error: ErrorCode) {
    predicate IsFailure() {
      Err?
    }

    function PropagateFailure<U>(): Result<U>
      requires Err?
    {
      Err(error)
    }

    function Extract(): T
      requires Ok?
    {
      value
    }
  }

  datatype OrderStatus = Cancelled | Draft | Paid | PartiallyPaid

  datatype Order = Order(
    id: Id,
    userId: Id,
    status: OrderStatus,
    expiresAt: Option<Time>,
    version: int,
    onBehalfOfUserId: Option<Id>,
    boxOfficePricing: bool)

  /** In alphabetical order, which is how `find_for_order` sorts the text column. */
  datatype OrderItemType = EventFees | PerUnitFees | Tickets

  datatype OrderItem = OrderItem(
    id: Id,
    orderId: Id,
    itemType: OrderItemType,
    ticketTypeId: Option<Id>,
    eventId: Option<Id>,
    quantity: int,
    unitPriceInCents: int,
    ticketPricingId: Option<Id>,
    parentId: Option<Id>,
    holdId: Option<Id>,
    companyFeeInCents: int,
    clientFeeInCents: int,
    refundedQuantity: int)

  datatype TicketStatus = Available | Reserved | Purchased | Redeemed | Nullified

  /** A `ticket_instances` row joined with its asset: `ticketTypeId` is the asset's. */
  datatype Ticket = Ticket(
    ticketTypeId: Id,
    tokenId: int,
    holdId: Option<Id>,
    orderItemId: Option<Id>,
    walletId: Id,
    reservedUntil: Option<Time>,
    transferKey: Option<Id>,
    transferExpiryDate: Option<Time>,
    status: TicketStatus,
    updatedAt: Time)

  datatype HoldType = Discount | Comp

  datatype Hold = Hold(
    id: Id,
    parentHoldId: Option<Id>,
    eventId: Id,
    redemptionCode: string,
    discountInCents: Option<int>,
    holdType: HoldType,
    ticketTypeId: Id)

  datatype PaymentStatus = Authorized | Completed | Refunded

  datatype PaymentMethod = External | CreditCard

  datatype Payment = Payment(
    orderId: Id,
    status: PaymentStatus,
    paymentMethod: PaymentMethod,
    amount: int,
    externalReference: Option<string>,
    updatedAt: Time)

  datatype RefundedTicket = RefundedTicket(
    orderItemId: Id,
    ticketInstanceId: Id,
    feeRefundedAt: Option<Time>,
    ticketRefundedAt: Option<Time>)

  datatype User = User(lastCartId: Option<Id>, updatedAt: Time)

  datatype Event = Event(feeInCents: int, companyFeeInCents: int, clientFeeInCents: int)

  datatype FeeScheduleRange = FeeScheduleRange(
    minPriceInCents: int,
    feeInCents: int,
    companyFeeInCents: int,
    clientFeeInCents: int)

  /** A ticket type joined with the fee schedule of its organization, thresholds ascending. */
  datatype TicketType = TicketType(
    eventId: Id,
    increment: nat,
    limitPerPerson: int,
    feeRanges: seq<FeeScheduleRange>)

  /** The ticket pricing that is current for a ticket type, with and without box office pricing. */
  datatype Pricing = Pricing(id: Id, priceInCents: int)

  /** The tables that change in the course of a transaction. */
  datatype Tables = Tables(
    orders: map<Id, Order>,
    orderItems: map<Id, OrderItem>,
    tickets: seq<Ticket>,
    holds: map<Id, Hold>,
    payments: seq<Payment>,
    refundedTickets: seq<RefundedTicket>,
    users: map<Id, User>,
    nextId: Id)

  /**
    What the invariants need to remember about the past and no column records: by how
    many tickets an item was inserted short of its quantity because the price had
    changed, the orders whose payment completed before they expired, and which tickets
    were taken from which item after it had been sold them.
   */
  datatype History = History(repriced: map<Id, nat>, settled: set<Id>, lost: set<(Id, Id)>)

  class Connection {
    var orders: map<Id, Order>
    var orderItems: map<Id, OrderItem>
    var tickets: seq<Ticket>
    var holds: map<Id, Hold>
    var payments: seq<Payment>
    var refundedTickets: seq<RefundedTicket>
    var users: map<Id, User>
    // Source of the ids the database generates; never handed out twice.
    var nextId: Id
    ghost var history: History

    // The tables as last committed, to which a rollback returns.
    var committed: Tables
    ghost var committedHistory: History

    // Read-only during a request: the transaction time, the prices in force (per ticket
    // type and box office flag), and the ticket rows other transactions have locked.
    var now: Time
    var pricings: map<(Id, bool), Pricing>
    var lockedRows: set<Id>

    // Reference data: events, ticket types, and the user owning each wallet (None for
    // an organization's wallet).
    const events: map<Id, Event>
    const ticketTypes: map<Id, TicketType>
    const wallets: map<Id, Option<Id>>

    constructor (tables: Tables, now: Time, pricings: map<(Id, bool), Pricing>, events: map<Id, Event>,
                 ticketTypes: map<Id, TicketType>, wallets: map<Id, Option<Id>>)
      ensures Snapshot() == committed == tables
      ensures history == committedHistory == History(map[], {}, {})
      ensures this.now == now && this.pricings == pricings && lockedRows == {}
      ensures this.events == events && this.ticketTypes == ticketTypes && this.wallets == wallets
    {
      this.orders, this.orderItems, this.tickets := tables.orders, tables.orderItems, tables.tickets;
      this.holds, this.payments := tables.holds, tables.payments;
      this.refundedTickets, this.users := tables.refundedTickets, tables.users;
      this.nextId := tables.nextId;
      this.committed := tables;
      this.history, this.committedHistory := History(map[], {}, {}), History(map[], {}, {});
      this.now, this.pricings, this.lockedRows := now, pricings, {};
      this.events, this.ticketTypes, this.wallets := events, ticketTypes, wallets;
    }

    /** The tables as this transaction sees them. */
    function Snapshot(): (t: Tables)
      reads this
    {
      Tables(orders, orderItems, tickets, holds, payments, refundedTickets, users, nextId)
    }

    method CommitTransaction()
      modifies `committed, `committedHistory
      ensures committed == Snapshot() && committedHistory == history
    {
      committed := Snapshot();
      committedHistory := history;
    }

    method RollbackTransaction()
      modifies `orders, `orderItems, `tickets, `holds, `payments, `refundedTickets, `users, `nextId, `history
      ensures Snapshot() == committed && history == committedHistory
    {
      orders, orderItems, tickets := committed.orders, committed.orderItems, committed.tickets;
      holds, payments := committed.holds, committed.payments;
      refundedTickets, users := committed.refundedTickets, committed.users;
      nextId := committed.nextId;
      history := committedHistory;
    }
  }
}
