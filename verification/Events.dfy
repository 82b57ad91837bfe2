/** The messages the two services exchange, as the datatypes their codecs round-trip, and
    the outbox rows that carry them. */
module Events {
  import opened Types

  datatype Action = ReleaseAction | ConfirmAction

  datatype ReservationInfo = ReservationInfo(
    id: ReservationId, vessel: VesselId, consignment: ConsignmentId, containers: int, weight: int)

  datatype CapacityEvent = CapacityEvent(
    action: Action, info: ReservationInfo, cacheCleared: bool, retryCount: nat,
    consignment: ConsignmentId, payment: PaymentId)

  datatype PaymentAuthorisedEvent = PaymentAuthorisedEvent(
    consignment: ConsignmentId, reservation: ReservationId, vessel: VesselId, auth: AuthId,
    weight: int, containers: int, retryCount: nat, paymentCaptured: bool, payment: PaymentId)

  datatype PaymentCapturedEvent = PaymentCapturedEvent(
    info: ReservationInfo, consignment: ConsignmentId, payment: PaymentId)

  datatype ConfirmationFailedEvent = ConfirmationFailedEvent(
    consignment: ConsignmentId, payment: PaymentId, auth: AuthId, paymentCaptured: bool)

  datatype Payload =
    | Authorised(authorised: PaymentAuthorisedEvent)
    | Captured(captured: PaymentCapturedEvent)
    | Expired(expired: ReservationInfo)
    | Capacity(capacity: CapacityEvent)
    | Confirmed(consignment: ConsignmentId, reservation: ReservationId)
    | ConfirmationFailed(failed: ConfirmationFailedEvent)

  datatype Topic =
    | PaymentAuthorisedTopic
    | PaymentCapturedTopic
    | ReleaseCapacityTopic
    | ConfirmCapacityTopic
    | CapacityFailedTopic
    | ReservationExpiredTopic
    | ConfirmationFailedTopic
    | ReservationConfirmedTopic

  /** A row key: an id, or "id-n" for the n-th retry. */
  datatype RowKey = Id(id: string) | Retry(of: string, count: nat)

  /** An outbox row. Rows are never deleted, so a row's position in its table is its
      identity, and positions follow creation order. `until` is the end of its lease and
      `claim` the last claim id, which only the document store writes. */
  datatype Row = Row(
    topic: Topic, key: RowKey, payload: Payload,
    published: bool, until: Option<int>, claim: Option<nat>)

  function NewRow(topic: Topic, key: RowKey, payload: Payload): Row {
    Row(topic, key, payload, false, None, None)
  }
}
