/** `getReservationStatus` of frontend/src/pages/Reservations.jsx: the badge shown beside
    each reservation, from its dates and today's date. */
module ReservationStatus {

  datatype Status = Ended | Current | Upcoming

  /** "Ended" is checked first, then "current"; everything else is "upcoming". */
  function Classify(startDate: int, endDate: int, today: int): (s: Status)
    ensures s == Ended <==> endDate < today
    ensures s == Current <==> startDate <= today <= endDate
    ensures s == Upcoming <==> today < startDate && today <= endDate
  {
    if endDate < today then Ended
    else if startDate <= today && endDate >= today then Current
    else Upcoming
  }

  /** The badge text. */
  function Label(s: Status): string {
    match s
    case Ended => "Terminée"
    case Current => "En cours"
    case Upcoming => "À venir"
  }

  /** The badge's CSS class. */
  function ClassName(s: Status): string {
    match s
    case Ended => "status-ended"
    case Current => "status-current"
    case Upcoming => "status-upcoming"
  }

  /** As days pass, a reservation whose end follows its start goes through its statuses
      in order: upcoming, then current, then ended, and never back. */
  lemma StatusesInOrder(startDate: int, endDate: int, today: int, later: int)
    requires startDate < endDate && today <= later
    ensures Classify(startDate, endDate, today) == Ended ==> Classify(startDate, endDate, later) == Ended
    ensures Classify(startDate, endDate, today) == Current ==> Classify(startDate, endDate, later) != Upcoming
  {
  }
}
