/** The rows of the shipping database and the shipment lifecycle graph. */
module Models {
  import opened Text

  datatype ShipmentStatus =
    | Created | LabelCreated | ReadyForPickup | AwaitingReceipt | ReceivedByShipping | ShipmentPrepared
    | InTransit | ArrivedDestinationHub | OutForDelivery | Delivered | DeliveryFailed | DeliveryRescheduled
    | ReturnRequested | ReturnAuthorized | ReturnLabelCreated | WaitingCustomerHandover
    | ReturnReceivedByShipping | ReturnPrepared | ReturnInTransit | ReturnReceivedAtWarehouse | ReturnCompleted
    | ReturnToSenderRequested | ReturnToSenderPrepared | ReturnToSenderInTransit | ReturnToSenderReceived
    | Cancelled
    | Unknown(text: string) // any other text a caller may send
  {
    predicate CanTransitionTo(next: ShipmentStatus) {
      match this
      case Created => next == LabelCreated || next == Cancelled
      case LabelCreated => next == ReadyForPickup || next == Cancelled
      case ReadyForPickup => next == AwaitingReceipt || next == Cancelled
      case AwaitingReceipt => next == ReceivedByShipping || next == Cancelled
      case ReceivedByShipping => next == ShipmentPrepared || next == ReturnToSenderRequested
      case ShipmentPrepared => next == InTransit || next == ReturnToSenderRequested
      case InTransit => next == ArrivedDestinationHub || next == ReturnToSenderRequested
      case ArrivedDestinationHub => next == OutForDelivery || next == ReturnToSenderRequested
      case OutForDelivery => next == Delivered || next == DeliveryFailed || next == ReturnToSenderRequested
      case DeliveryFailed => next == DeliveryRescheduled || next == ReturnToSenderRequested
      case DeliveryRescheduled => next == OutForDelivery || next == ReturnToSenderRequested
      case ReturnRequested => next == ReturnAuthorized
      case ReturnAuthorized => next == ReturnLabelCreated
      case ReturnLabelCreated => next == WaitingCustomerHandover
      case WaitingCustomerHandover => next == ReturnReceivedByShipping
      case ReturnReceivedByShipping => next == ReturnPrepared
      case ReturnPrepared => next == ReturnInTransit
      case ReturnInTransit => next == ReturnReceivedAtWarehouse
      case ReturnReceivedAtWarehouse => next == ReturnCompleted
      case ReturnToSenderRequested => next == ReturnToSenderPrepared
      case ReturnToSenderPrepared => next == ReturnToSenderInTransit
      case ReturnToSenderInTransit => next == ReturnToSenderReceived
      case _ => false
    }
  }

  datatype Role =
    | RoleAdmin | RoleEmployee | RoleShippingAdmin | RoleWarehouseEmployee | RoleDeliveryEmployee | RoleSupport
    | OtherRole(text: string)

  function RoleText(role: Role): (s: string) {
    match role
    case RoleAdmin => "admin"
    case RoleEmployee => "employee"
    case RoleShippingAdmin => "shipping_admin"
    case RoleWarehouseEmployee => "warehouse_employee"
    case RoleDeliveryEmployee => "delivery_employee"
    case RoleSupport => "support"
    case OtherRole(text) => text
  }

  datatype Address = Address(
    firstName: string, lastName: string, company: string, street: string, houseNumber: string,
    addressLine2: string, postalCode: string, city: string, state: string, countryCode: string, phone: string)

  /** An estimated delivery range; either end may be open. */
  datatype Eta = Eta(from: Option<int>, until: Option<int>) {
    predicate Ordered() {
      from.Some? && until.Some? ==> from.value <= until.value
    }
    predicate Given() {
      from.Some? || until.Some?
    }
  }

  const NO_ETA: Eta := Eta(None, None)

  /** The columns of a shipment that are written once, when the row is inserted. */
  datatype Origin = Origin(
    publicId: string, shipmentNumber: string, handoverCode: Option<string>, trackingNumber: string,
    order: string, customer: string, businessKey: string, source: string, key: string,
    original: Option<nat>, isReturn: bool, carrier: string, serviceLevel: string,
    sender: Address, recipient: Address)

  datatype Shipment = Shipment(
    origin: Origin, status: ShipmentStatus, eta: Eta, deliveredAt: Option<int>, stops: Option<int>, version: nat)

  datatype ItemRow = ItemRow(shipmentId: nat, productId: string, name: string, sku: string, quantity: int)

  /** Descriptive text of an event: written by the service itself, or given by the caller. */
  datatype Note =
    | Generated
    | Given(title: string, description: string, locationName: string, city: string, postalCode: string,
            countryCode: string)

  datatype EventRow = EventRow(
    id: nat, eventId: string, shipmentId: nat, source: string, key: string, requestId: string, eventType: string,
    status: ShipmentStatus, note: Note, stops: Option<int>, eta: Eta, occurredAt: int, createdByType: string,
    createdById: string)

  datatype AuditRow = AuditRow(
    shipmentId: nat, actorType: string, actorId: string, action: string, entityId: string, requestId: string,
    oldStatus: Option<ShipmentStatus>, newStatus: ShipmentStatus)

  /** The callback body; the delivery estimate is omitted when neither end is known. */
  datatype Payload = Payload(
    eventId: string, eventType: string, shipmentId: string, order: string, trackingNumber: string, isReturn: bool,
    status: ShipmentStatus, stops: Option<int>, eta: Option<Eta>, occurredAt: int)

  /** The columns of an outbox row that the dispatcher never changes. */
  datatype Message = Message(
    eventId: string, shipmentId: nat, shipmentEventId: nat, requestId: string, eventType: string, payload: Payload)

  datatype OutboxStatus = Pending | Processing | DeliveredToShop | Failed

  datatype OutboxRow = OutboxRow(
    id: nat, message: Message, status: OutboxStatus, attempts: nat, nextAttemptAt: int, updatedAt: int)
}
