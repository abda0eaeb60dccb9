/** The reservations page: a filtered view over the reservations, status
    counts over all of them, a selection for bulk actions and the row buttons
    each reservation's status offers. */
module Reservations {
  import opened Common
  import opened Views
  import Selection

  datatype Reservation = Reservation(
    id: int,
    memberName: string,
    memberId: string,
    bookTitle: string,
    isbn: string,
    status: string)

  /** Name, member id and title are compared folded; the ISBN is compared
      as typed, against the query as typed. */
  predicate MatchesSearch(r: Reservation, query: string) {
    ContainsFolded(r.memberName, query) || ContainsFolded(r.memberId, query)
    || ContainsFolded(r.bookTitle, query) || Contains(r.isbn, query)
  }

  predicate ReservationMatches(r: Reservation, query: string, status: string) {
    MatchesSearch(r, query) && (status == "All" || r.status == status)
  }

  function FilteredReservations(rs: seq<Reservation>, query: string, status: string): seq<Reservation> {
    Filter(rs, r => ReservationMatches(r, query, status))
  }

  /** The view is an order-preserving subsequence holding exactly the
      reservations that pass the search and the status selector. */
  lemma FilteredReservationsSpec(rs: seq<Reservation>, query: string, status: string)
    ensures IsSubsequence(FilteredReservations(rs, query, status), rs)
    ensures forall r :: r in FilteredReservations(rs, query, status) <==>
      r in rs && MatchesSearch(r, query) && (status == "All" || r.status == status)
  {
    FilterIsSubsequence(rs, r => ReservationMatches(r, query, status));
  }

  /** The ISBN comparison does not fold case: an ISBN written with an upper-case
      letter is found by the query as written and not by its lower-case form,
      while a member id is found by both. */
  lemma IsbnIsCaseSensitive()
    ensures var r := Reservation(1, "", "", "", "X", "Pending");
            MatchesSearch(r, "X") && !MatchesSearch(r, "x")
    ensures var r := Reservation(1, "", "X", "", "", "Pending");
            MatchesSearch(r, "X") && MatchesSearch(r, "x")
  {
    assert Lower("X") == "x";
    assert Lower("x") == "x";
    assert Lower("") == "";
    assert !Contains("", "x");
    assert !Contains("X", "x") by {
      assert !("x" <= "X");
      assert !Contains("X"[1..], "x");
    }
  }

  function Statuses(rs: seq<Reservation>): seq<string> {
    ["All"] + Distinct(MapSeq(rs, (r: Reservation) => r.status))
  }

  function PendingCount(rs: seq<Reservation>): nat { Count(rs, (r: Reservation) => r.status == "Pending") }
  function ReadyCount(rs: seq<Reservation>): nat { Count(rs, (r: Reservation) => r.status == "Ready for Pickup") }
  function CompletedCount(rs: seq<Reservation>): nat { Count(rs, (r: Reservation) => r.status == "Completed") }

  /** The three status cards count disjoint groups of all reservations, so
      together (and each alone) they never exceed the total card. */
  lemma {:induction false} StatusCountsBounded(rs: seq<Reservation>)
    ensures PendingCount(rs) + ReadyCount(rs) + CompletedCount(rs) <= |rs|
    decreases |rs|
  {
    if rs != [] {
      StatusCountsBounded(rs[..|rs| - 1]);
    }
  }

  /** The buttons a reservation's row offers. */
  datatype RowAction = MarkReady | PickupDone | Cancel | Notify

  /** The row buttons, left to right; they depend on the status alone. */
  function RowActions(status: string): (acts: seq<RowAction>)
    ensures MarkReady in acts <==> status == "Pending"
    ensures PickupDone in acts <==> status == "Ready for Pickup"
    ensures Cancel in acts <==> status == "Pending" || status == "Ready for Pickup"
    ensures Notify in acts && acts[|acts| - 1] == Notify
  {
    (if status == "Pending" then [MarkReady] else [])
    + (if status == "Ready for Pickup" then [PickupDone] else [])
    + (if status == "Pending" || status == "Ready for Pickup" then [Cancel] else [])
    + [Notify]
  }

  /** A completed or cancelled reservation can only be notified about. */
  lemma ClosedReservationsOnlyNotify(status: string)
    requires status != "Pending" && status != "Ready for Pickup"
    ensures RowActions(status) == [Notify]
  {
  }

  datatype BulkNotice = SelectFirst | NotifyingMembers(count: nat) | Cancelled(count: nat) | NoNotice

  function Ids(rs: seq<Reservation>): seq<int> {
    MapSeq(rs, (r: Reservation) => r.id)
  }

  class ReservationsPage {
    const reservations: seq<Reservation>
    var searchQuery: string
    var selectedStatus: string
    var selectedReservations: seq<int>

    ghost predicate Valid()
      reads this
    {
      NoDup(Ids(reservations)) && NoDup(selectedReservations) && selectedStatus in Statuses(reservations)
    }

    constructor (reservations: seq<Reservation>)
      requires NoDup(Ids(reservations))
      ensures Valid() && this.reservations == reservations
      ensures searchQuery == "" && selectedStatus == "All" && selectedReservations == []
    {
      this.reservations := reservations;
      searchQuery, selectedStatus, selectedReservations := "", "All", [];
    }

    function Filtered(): seq<Reservation>
      reads this
    {
      FilteredReservations(reservations, searchQuery, selectedStatus)
    }

    method SetSearchQuery(query: string)
      modifies this`searchQuery
      ensures searchQuery == query
    {
      searchQuery := query;
    }

    method SelectStatus(status: string)
      requires Valid() && status in Statuses(reservations)
      modifies this`selectedStatus
      ensures Valid() && selectedStatus == status
    {
      selectedStatus := status;
    }

    method ToggleReservationSelection(id: int)
      requires Valid()
      modifies this`selectedReservations
      ensures Valid()
      ensures selectedReservations == Selection.Toggled(old(selectedReservations), id)
    {
      selectedReservations := Selection.Toggled(selectedReservations, id);
    }

    method SelectAll()
      requires Valid()
      modifies this`selectedReservations
      ensures Valid()
      ensures selectedReservations == Selection.SelectAll(old(selectedReservations), Ids(Filtered()))
    {
      var pageReservationIds := Ids(Filtered());
      var query, status := searchQuery, selectedStatus;
      FilterMapNoDup(reservations, r => ReservationMatches(r, query, status), (r: Reservation) => r.id);
      if |selectedReservations| == |pageReservationIds| {
        selectedReservations := [];
      } else {
        selectedReservations := pageReservationIds;
      }
    }

    /** The Clear button of the bulk bar. */
    method ClearSelection()
      requires Valid()
      modifies this`selectedReservations
      ensures Valid() && selectedReservations == []
    {
      selectedReservations := [];
    }

    /** A bulk button: refused with nothing selected; cancelling needs the confirmation. */
    method HandleBulkAction(action: string, confirmed: bool) returns (notice: BulkNotice)
      ensures notice == SelectFirst <==> selectedReservations == []
      ensures selectedReservations != [] ==>
        notice == (if action == "notify" then NotifyingMembers(|selectedReservations|)
                   else if action == "cancel" && confirmed then Cancelled(|selectedReservations|)
                   else NoNotice)
    {
      if |selectedReservations| == 0 {
        return SelectFirst;
      }
      var n := |selectedReservations|;
      if action == "notify" {
        notice := NotifyingMembers(n);
      } else if action == "cancel" {
        notice := if confirmed then Cancelled(n) else NoNotice;
      } else {
        notice := NoNotice;
      }
    }
  }
}
