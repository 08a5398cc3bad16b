/** `loadDashboardData` of frontend/src/pages/Dashboard.jsx: the counts shown on the
    dashboard and the list of reservations in progress today. */
module Dashboard {
  import opened Js
  import CatwayModel
  import UserModel
  import opened ReservationModel
  import ReservationStatus

  /** The four counters of the page. */
  datatype Stats = Stats(totalCatways: nat, totalReservations: nat, totalUsers: nat, currentReservations: nat)

  /** The three lists the page fetches together. */
  datatype Fetched = Fetched(catways: seq<CatwayModel.Catway>, reservations: seq<Reservation>, users: seq<UserModel.PublicUser>)

  /** The filter's test: started and not yet ended today, both ends included. */
  predicate IsCurrent(r: Reservation, today: int) {
    r.startDate <= today && r.endDate >= today
  }

  /** `reservations.filter(...)`: the current reservations, in their order. */
  function CurrentOf(rs: seq<Reservation>, today: int): (cs: seq<Reservation>)
    ensures |cs| <= |rs|
    ensures forall r :: r in cs <==> r in rs && IsCurrent(r, today)
  {
    if rs == [] then []
    else (if IsCurrent(rs[0], today) then [rs[0]] else []) + CurrentOf(rs[1..], today)
  }

  /** The filter keeps order: filtering a list cut in two gives the filtered halves one
      after the other. */
  lemma {:induction false} CurrentOfAppend(a: seq<Reservation>, b: seq<Reservation>, today: int)
    ensures CurrentOf(a + b, today) == CurrentOf(a, today) + CurrentOf(b, today)
  {
    if a != [] {
      assert (a + b)[1..] == a[1..] + b;
      CurrentOfAppend(a[1..], b, today);
    } else {
      assert a + b == b;
    }
  }

  /** The dashboard's "current" is the "En cours" badge of the reservations page. */
  lemma CurrentIsStatusCurrent(r: Reservation, today: int)
    ensures IsCurrent(r, today) <==> ReservationStatus.Classify(r.startDate, r.endDate, today) == ReservationStatus.Current
  {
  }

  /** The page's state. */
  class Board {
    var stats: Stats
    var current: seq<Reservation>
    var loading: bool
    var error: string

    /** The counters never claim more current reservations than reservations. */
    predicate Valid()
      reads this
    {
      stats.currentReservations <= stats.totalReservations
    }

    /** The first render: zeros, an empty list, loading. */
    constructor ()
      ensures Valid()
      ensures stats == Stats(0, 0, 0, 0) && current == [] && loading && error == ""
    {
      stats := Stats(0, 0, 0, 0);
      current := [];
      loading := true;
      error := "";
    }

    /** `loadDashboardData`: after the three fetches (`None` when one failed), the
        counters are the lengths of the lists and of the current ones; a failure keeps
        the previous counters and sets the error. Loading ends either way. */
    method Load(fetched: Option<Fetched>, today: int)
      requires Valid()
      modifies this
      ensures Valid() && !loading
      ensures fetched.Some? ==>
        var f := fetched.value;
        && current == CurrentOf(f.reservations, today)
        && stats == Stats(|f.catways|, |f.reservations|, |f.users|, |current|)
        && error == old(error)
      ensures fetched.None? ==>
        stats == old(stats) && current == old(current) && error == "Erreur lors du chargement des données"
    {
      loading := true;
      if fetched.None? {
        error := "Erreur lors du chargement des données";
      } else {
        var f := fetched.value;
        var cs := CurrentOf(f.reservations, today);
        stats := Stats(|f.catways|, |f.reservations|, |f.users|, |cs|);
        current := cs;
      }
      loading := false;
    }
  }
}
