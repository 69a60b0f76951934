/**
 * The order-fulfillment system's vocabulary: the contracts that cross service
 * boundaries (contracts/contracts.go) and the domain events each service keeps
 * to itself.
 */
module Contracts {
  import opened Wrappers
  import Saga

  const ORDERING_EVENTS := "ordering.events"
  const BILLING_EVENTS := "billing.events"
  const INVENTORY_EVENTS := "inventory.events"
  const SHIPPING_EVENTS := "shipping.events"
  const BILLING_COMMANDS := "billing.commands"
  const INVENTORY_COMMANDS := "inventory.commands"
  const SHIPPING_COMMANDS := "shipping.commands"

  /** Integration events and commands; all are at contract version 1. */
  datatype Contract =
    | OrderPlacedV1(orderId: string, customerId: string, cents: int, currency: string, qty: int)
    | PaymentCapturedV1(orderId: string, cents: int)
    | PaymentFailedV1(orderId: string, reason: string)
    | PaymentRefundedV1(orderId: string)
    | StockReservedV1(orderId: string, qty: int)
    | StockRejectedV1(orderId: string, reason: string)
    | ShipmentDispatchedV1(orderId: string)
    | CapturePayment(orderId: string, cents: int)
    | RefundPayment(orderId: string)
    | ReserveStock(orderId: string, qty: int)
    | CreateShipment(orderId: string)

  function NameOf(c: Contract): string {
    match c
    case OrderPlacedV1(_, _, _, _, _) => "ordering.order_placed"
    case PaymentCapturedV1(_, _) => "billing.payment_captured"
    case PaymentFailedV1(_, _) => "billing.payment_failed"
    case PaymentRefundedV1(_) => "billing.payment_refunded"
    case StockReservedV1(_, _) => "inventory.stock_reserved"
    case StockRejectedV1(_, _) => "inventory.stock_rejected"
    case ShipmentDispatchedV1(_) => "shipping.shipment_dispatched"
    case CapturePayment(_, _) => "billing.capture_payment"
    case RefundPayment(_) => "billing.refund_payment"
    case ReserveStock(_, _) => "inventory.reserve_stock"
    case CreateShipment(_) => "shipping.create_shipment"
  }

  function Describe(c: Contract): (string, int) { (NameOf(c), 1) }

  /** Every service's domain events; an aggregate refuses those that are not its own. */
  datatype Event =
    | OrderPlaced(id: string, customer: string, cents: int, currency: string, qty: int)
    | CustomerNotified(id: string, reason: string)
    | PaymentCaptured(orderId: string, cents: int)
    | PaymentFailed(orderId: string, reason: string)
    | PaymentRefunded(orderId: string)
    | StockReserved(orderId: string, qty: int)
    | StockRejected(orderId: string, reason: string)
    | ShipmentDispatched(orderId: string)
    | SagaStep(step: Saga.SagaEvent<Contract>)

  function EventNameOf(e: Event): string {
    match e
    case OrderPlaced(_, _, _, _, _) => "ordering.order_placed"
    case CustomerNotified(_, _) => "ordering.customer_notified"
    case PaymentCaptured(_, _) => "billing.payment_captured"
    case PaymentFailed(_, _) => "billing.payment_failed"
    case PaymentRefunded(_) => "billing.payment_refunded"
    case StockReserved(_, _) => "inventory.stock_reserved"
    case StockRejected(_, _) => "inventory.stock_rejected"
    case ShipmentDispatched(_) => "shipping.shipment_dispatched"
    case SagaStep(s) => Saga.EventName(s)
  }

  const UNKNOWN_EVENT := Failure("unknown event")
}
