/** Identifiers and small datatypes shared by every module. */
module Types {

  type VesselId = string
  type ReservationId = string
  type ConsignmentId = string
  type AuthId = string
  type PaymentId = string

  datatype Option<+T> = None | Some(value: T)

  /** The fate of one remote call, chosen by the network:
      - Answered: the callee ran and its answer arrived;
      - Dropped: the callee never ran, the caller sees an error;
      - Lost: the callee ran, but its answer was lost and the caller sees an error. */
  datatype Net = Answered | Dropped | Lost
}
