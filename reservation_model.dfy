/** The reservation schema of api/models/reservation.js. */
module ReservationModel {

  /** A stored reservation. Dates are timestamps; `createdAt`/`updatedAt` are the
      schema's automatic timestamps. */
  datatype Reservation = Reservation(
    catwayNumber: int,
    clientName: string,
    boatName: string,
    startDate: int,
    endDate: int,
    createdAt: int,
    updatedAt: int)

  /** The custom validator on `endDate`: `value > this.startDate`. */
  predicate EndAfterStart(r: Reservation) {
    r.endDate > r.startDate
  }

  /** What the validators accept when a reservation is saved: the required strings
      present and non-empty, the end strictly after the start. */
  predicate SchemaValid(r: Reservation) {
    r.clientName != "" && r.boatName != "" && EndAfterStart(r)
  }
}
