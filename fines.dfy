/** The fines management page: a filtered view over the fine records, the
    summary figures over all of them, a selection for bulk actions and the
    per-fine payment entries. */
module Fines {
  import opened Common
  import opened Views
  import Selection

  datatype Fine = Fine(
    id: int,
    memberId: string,
    memberName: string,
    memberEmail: string,
    bookTitle: string,
    bookId: string,
    fineAmount: int,
    paidAmount: int,
    remainingAmount: int,
    status: string,
    fineType: string)

  // ---------------------------------------------------------------------------
  // Filtered view
  // ---------------------------------------------------------------------------

  /** The free-text part of the filter: the folded query occurs in one of the
      member name, member e-mail, member id, book title or book id. */
  predicate MatchesSearch(f: Fine, query: string) {
    ContainsFolded(f.memberName, query) || ContainsFolded(f.memberEmail, query)
    || ContainsFolded(f.memberId, query) || ContainsFolded(f.bookTitle, query)
    || ContainsFolded(f.bookId, query)
  }

  predicate MatchesSelector(value: string, selected: string) {
    selected == "All" || value == selected
  }

  predicate FineMatches(f: Fine, query: string, status: string, fineType: string) {
    MatchesSearch(f, query) && MatchesSelector(f.status, status) && MatchesSelector(f.fineType, fineType)
  }

  function FilteredFines(fines: seq<Fine>, query: string, status: string, fineType: string): seq<Fine> {
    Filter(fines, f => FineMatches(f, query, status, fineType))
  }

  /** The view is an order-preserving subsequence of the records, holding exactly
      the records that pass the search, the status and the type selector. */
  lemma FilteredFinesSpec(fines: seq<Fine>, query: string, status: string, fineType: string)
    ensures IsSubsequence(FilteredFines(fines, query, status, fineType), fines)
    ensures forall f :: f in FilteredFines(fines, query, status, fineType) ==>
      (status == "All" || f.status == status) && (fineType == "All" || f.fineType == fineType)
      && MatchesSearch(f, query)
    ensures forall f :: f in fines && FineMatches(f, query, status, fineType) ==>
      f in FilteredFines(fines, query, status, fineType)
  {
    FilterIsSubsequence(fines, f => FineMatches(f, query, status, fineType));
  }

  /** With an empty search and both selectors on 'All' every record is shown:
      every folded field contains the empty text. */
  lemma FilteredFinesIdentity(fines: seq<Fine>)
    ensures FilteredFines(fines, "", "All", "All") == fines
  {
    forall i | 0 <= i < |fines|
      ensures FineMatches(fines[i], "", "All", "All")
    {
      ContainsEmpty(Lower(fines[i].memberName));
    }
    FilterKeepsAll(fines, f => FineMatches(f, "", "All", "All"));
  }

  // ---------------------------------------------------------------------------
  // Selector options
  // ---------------------------------------------------------------------------

  function Statuses(fines: seq<Fine>): seq<string> {
    ["All"] + Distinct(MapSeq(fines, (f: Fine) => f.status))
  }

  function Types(fines: seq<Fine>): seq<string> {
    ["All"] + Distinct(MapSeq(Filter(fines, (f: Fine) => f.fineType != "None"), (f: Fine) => f.fineType))
  }

  /** The status options are 'All' followed by each status once, in order of first occurrence. */
  lemma StatusesSpec(fines: seq<Fine>)
    ensures Statuses(fines)[0] == "All"
    ensures NoDup(Statuses(fines)[1..])
    ensures IsSubsequence(Statuses(fines)[1..], MapSeq(fines, (f: Fine) => f.status))
    ensures forall s :: s in Statuses(fines)[1..] <==> exists f :: f in fines && f.status == s
  {
    var st := MapSeq(fines, (f: Fine) => f.status);
    DistinctIsSubsequence(st);
    assert Statuses(fines)[1..] == Distinct(st);
    forall s | s in Distinct(st)
      ensures exists f :: f in fines && f.status == s
    {
      var k :| 0 <= k < |st| && st[k] == s;
      assert fines[k] in fines;
    }
    forall f | f in fines
      ensures f.status in Distinct(st)
    {
      var k :| 0 <= k < |fines| && fines[k] == f;
      assert st[k] == f.status;
    }
  }

  /** The type options leave out 'None': every other type of some record occurs once. */
  lemma TypesSpec(fines: seq<Fine>)
    ensures Types(fines)[0] == "All"
    ensures NoDup(Types(fines)[1..])
    ensures "None" !in Types(fines)[1..]
    ensures forall t :: t in Types(fines)[1..] <==> t != "None" && exists f :: f in fines && f.fineType == t
  {
    var kept := Filter(fines, (f: Fine) => f.fineType != "None");
    var ty := MapSeq(kept, (f: Fine) => f.fineType);
    assert Types(fines)[1..] == Distinct(ty);
    forall t | t in Distinct(ty)
      ensures t != "None" && exists f :: f in fines && f.fineType == t
    {
      var k :| 0 <= k < |ty| && ty[k] == t;
      assert kept[k] in fines;
    }
    forall f | f in fines && f.fineType != "None"
      ensures f.fineType in Distinct(ty)
    {
      var i :| 0 <= i < |fines| && fines[i] == f;
      assert f in kept;
      var k :| 0 <= k < |kept| && kept[k] == f;
      assert ty[k] == f.fineType;
    }
  }

  // ---------------------------------------------------------------------------
  // Summary figures: always over every record, never over the view
  // ---------------------------------------------------------------------------

  function TotalFines(fines: seq<Fine>): nat { Count(fines, (f: Fine) => f.fineAmount > 0) }
  function TotalAmount(fines: seq<Fine>): int { Sum(fines, (f: Fine) => f.fineAmount) }
  function TotalPaid(fines: seq<Fine>): int { Sum(fines, (f: Fine) => f.paidAmount) }
  function TotalPending(fines: seq<Fine>): int { Sum(fines, (f: Fine) => f.remainingAmount) }
  function OverdueFines(fines: seq<Fine>): nat { Count(fines, (f: Fine) => f.status == "Overdue") }
  function PendingFines(fines: seq<Fine>): nat { Count(fines, (f: Fine) => f.status == "Pending") }

  /** A record whose fine splits into what was paid and what remains. */
  predicate Balanced(f: Fine) {
    f.fineAmount == f.paidAmount + f.remainingAmount
  }

  /** When every record is balanced, the amount card equals the paid card plus the pending card. */
  lemma {:induction false} TotalsBalance(fines: seq<Fine>)
    requires forall f :: f in fines ==> Balanced(f)
    ensures TotalAmount(fines) == TotalPaid(fines) + TotalPending(fines)
    decreases |fines|
  {
    if fines != [] {
      var init := fines[..|fines| - 1];
      assert forall f :: f in init ==> f in fines;
      TotalsBalance(init);
      assert Balanced(fines[|fines| - 1]);
    }
  }

  /** The overdue and pending cards never add up to more than the number of records. */
  lemma {:induction false} StatusCardsBounded(fines: seq<Fine>)
    ensures OverdueFines(fines) + PendingFines(fines) <= |fines|
    decreases |fines|
  {
    if fines != [] {
      StatusCardsBounded(fines[..|fines| - 1]);
    }
  }

  /** Share of the fine already paid, in percent, rounded half up as `Math.round` does;
      a fine of 0 counts as fully paid. */
  function PaymentPercentage(f: Fine): int {
    if f.fineAmount == 0 then 100
    else ((f.paidAmount as real / f.fineAmount as real) * 100.0 + 0.5).Floor
  }

  lemma PaymentPercentageBounds(f: Fine)
    requires 0 <= f.paidAmount <= f.fineAmount || f.fineAmount == 0
    ensures 0 <= PaymentPercentage(f) <= 100
    ensures f.fineAmount == 0 || f.paidAmount == f.fineAmount ==> PaymentPercentage(f) == 100
    ensures f.fineAmount != 0 && f.paidAmount == 0 ==> PaymentPercentage(f) == 0
  {
    if f.fineAmount != 0 {
      var q := f.paidAmount as real / f.fineAmount as real;
      assert 0.0 <= q <= 1.0 by {
        assert f.paidAmount as real <= f.fineAmount as real;
      }
      if f.paidAmount == f.fineAmount {
        assert q == 1.0;
      }
    }
  }

  // ---------------------------------------------------------------------------
  // Bulk panel total and lookups
  // ---------------------------------------------------------------------------

  /** The first record with the id, as `find` returns it. */
  function FindFine(fines: seq<Fine>, id: int): (r: Option<Fine>)
    ensures r.Some? ==> r.value in fines && r.value.id == id
    ensures r.None? ==> forall f :: f in fines ==> f.id != id
  {
    if fines == [] then None
    else if fines[0].id == id then Some(fines[0])
    else FindFine(fines[1..], id)
  }

  function Ids(fines: seq<Fine>): seq<int> {
    MapSeq(fines, (f: Fine) => f.id)
  }

  ghost predicate UniqueIds(fines: seq<Fine>) {
    NoDup(Ids(fines))
  }

  /** The "Total amount" line of the bulk panel: remaining amounts of the selected
      ids, an id without a record adding 0. */
  function SelectedTotal(fines: seq<Fine>, selected: seq<int>): int
    decreases |selected|
  {
    if selected == [] then 0
    else
      var id := selected[|selected| - 1];
      SelectedTotal(fines, selected[..|selected| - 1])
      + (match FindFine(fines, id) case Some(f) => f.remainingAmount case None => 0)
  }

  lemma {:induction false} FindUnique(fines: seq<Fine>, f: Fine)
    requires UniqueIds(fines) && f in fines
    ensures FindFine(fines, f.id) == Some(f)
    decreases |fines|
  {
    if fines[0] != f {
      assert fines[1..] == fines[1..];
      var k :| 0 <= k < |fines| && fines[k] == f;
      assert k > 0;
      assert Ids(fines)[0] == fines[0].id && Ids(fines)[k] == f.id;
      assert Ids(fines[1..]) == Ids(fines)[1..];
      assert f in fines[1..];
      FindUnique(fines[1..], f);
    }
  }

  /** Selecting the ids of a sub-view of unique records makes the bulk panel
      show exactly the pending amount of that view. */
  lemma {:induction false} SelectedTotalOfView(fines: seq<Fine>, view: seq<Fine>)
    requires UniqueIds(fines)
    requires forall f :: f in view ==> f in fines
    ensures SelectedTotal(fines, Ids(view)) == TotalPending(view)
    decreases |view|
  {
    if view != [] {
      var init := view[..|view| - 1];
      assert Ids(view)[..|view| - 1] == Ids(init);
      assert forall f :: f in init ==> f in view;
      SelectedTotalOfView(fines, init);
      FindUnique(fines, view[|view| - 1]);
    }
  }

  // ---------------------------------------------------------------------------
  // Actions
  // ---------------------------------------------------------------------------

  /** What a bulk button reports. */
  datatype BulkNotice =
    | SelectFirst
    | Exporting(count: nat)
    | SendingReminders(count: nat)
    | Waiving(count: nat)
    | ProcessingPayments(count: nat)
    | NoNotice

  /** Outcome of pressing a fine's pay button. */
  datatype PaymentOutcome =
    | InvalidAmount
    | ExceedsRemaining(remaining: int)
    | Processed(amount: int)

  /** The amount typed for a fine; nothing typed reads as 0. */
  function EnteredAmount(entries: map<int, int>, id: int): int {
    if id in entries then entries[id] else 0
  }

  /** The payment guard: a positive amount no larger than the remaining amount of
      the fine with that id (no bound when no record has the id). */
  function CheckPayment(fines: seq<Fine>, entries: map<int, int>, id: int): (r: PaymentOutcome)
    ensures r.InvalidAmount? <==> EnteredAmount(entries, id) <= 0
    ensures r.ExceedsRemaining? <==> (
      && 0 < EnteredAmount(entries, id)
      && FindFine(fines, id).Some?
      && EnteredAmount(entries, id) > FindFine(fines, id).value.remainingAmount)
    ensures r.Processed? ==> (
      && r.amount == EnteredAmount(entries, id) > 0
      && (FindFine(fines, id).Some? ==> r.amount <= FindFine(fines, id).value.remainingAmount))
  {
    var amount := EnteredAmount(entries, id);
    if amount <= 0 then InvalidAmount
    else
      match FindFine(fines, id)
      case Some(f) => if amount > f.remainingAmount then ExceedsRemaining(f.remainingAmount) else Processed(amount)
      case None => Processed(amount)
  }

  class FinesPage {
    const fines: seq<Fine>
    var searchQuery: string
    var selectedStatus: string
    var selectedType: string
    var selectedFines: seq<int>
    var paymentAmount: map<int, int>

    /** Record ids are unique, the selection holds no id twice and the selectors
        hold one of the offered options. */
    ghost predicate Valid()
      reads this
    {
      UniqueIds(fines) && NoDup(selectedFines)
      && selectedStatus in Statuses(fines) && selectedType in Types(fines)
    }

    constructor (fines: seq<Fine>)
      requires UniqueIds(fines)
      ensures Valid() && this.fines == fines
      ensures searchQuery == "" && selectedStatus == "All" && selectedType == "All"
      ensures selectedFines == [] && paymentAmount == map[]
    {
      this.fines := fines;
      searchQuery, selectedStatus, selectedType := "", "All", "All";
      selectedFines, paymentAmount := [], map[];
    }

    function Filtered(): seq<Fine>
      reads this
    {
      FilteredFines(fines, searchQuery, selectedStatus, selectedType)
    }

    method SetSearchQuery(query: string)
      modifies this`searchQuery
      ensures searchQuery == query
    {
      searchQuery := query;
    }

    method SelectStatus(status: string)
      requires Valid() && status in Statuses(fines)
      modifies this`selectedStatus
      ensures Valid() && selectedStatus == status
    {
      selectedStatus := status;
    }

    method SelectType(fineType: string)
      requires Valid() && fineType in Types(fines)
      modifies this`selectedType
      ensures Valid() && selectedType == fineType
    {
      selectedType := fineType;
    }

    method ToggleFineSelection(id: int)
      requires Valid()
      modifies this`selectedFines
      ensures Valid()
      ensures selectedFines == Selection.Toggled(old(selectedFines), id)
    {
      selectedFines := Selection.Toggled(selectedFines, id);
    }

    method SelectAll()
      requires Valid()
      modifies this`selectedFines
      ensures Valid()
      ensures selectedFines == Selection.SelectAll(old(selectedFines), Ids(Filtered()))
    {
      var pageFineIds := Ids(Filtered());
      var query, status, fineType := searchQuery, selectedStatus, selectedType;
      FilterMapNoDup(fines, f => FineMatches(f, query, status, fineType), (f: Fine) => f.id);
      if |selectedFines| == |pageFineIds| {
        selectedFines := [];
      } else {
        selectedFines := pageFineIds;
      }
    }

    /** A bulk button: refused with nothing selected, otherwise reports the
        action on the selected count; waiving needs the confirmation. */
    method HandleBulkAction(action: string, confirmed: bool) returns (notice: BulkNotice)
      ensures notice == SelectFirst <==> selectedFines == []
      ensures selectedFines != [] ==>
        notice == (if action == "export" then Exporting(|selectedFines|)
                   else if action == "reminder" then SendingReminders(|selectedFines|)
                   else if action == "waive" && confirmed then Waiving(|selectedFines|)
                   else if action == "process" then ProcessingPayments(|selectedFines|)
                   else NoNotice)
    {
      if |selectedFines| == 0 {
        return SelectFirst;
      }
      var n := |selectedFines|;
      if action == "export" {
        notice := Exporting(n);
      } else if action == "reminder" {
        notice := SendingReminders(n);
      } else if action == "waive" {
        notice := if confirmed then Waiving(n) else NoNotice;
      } else if action == "process" {
        notice := ProcessingPayments(n);
      } else {
        notice := NoNotice;
      }
    }

    /** Typing into a fine's payment box; text that is not a number reads as 0. */
    method EnterPayment(id: int, parsed: Option<int>)
      modifies this`paymentAmount
      ensures paymentAmount == old(paymentAmount)[id := parsed.GetOr(0)]
    {
      paymentAmount := paymentAmount[id := parsed.GetOr(0)];
    }

    /** The pay button: on acceptance only this fine's entry goes back to 0. */
    method HandlePayment(id: int) returns (outcome: PaymentOutcome)
      modifies this`paymentAmount
      ensures outcome == CheckPayment(fines, old(paymentAmount), id)
      ensures outcome.Processed? ==> paymentAmount == old(paymentAmount)[id := 0]
      ensures !outcome.Processed? ==> paymentAmount == old(paymentAmount)
    {
      outcome := CheckPayment(fines, paymentAmount, id);
      if outcome.Processed? {
        paymentAmount := paymentAmount[id := 0];
      }
    }

    method ResetFilters()
      requires Valid()
      modifies this`searchQuery, this`selectedStatus, this`selectedType, this`selectedFines, this`paymentAmount
      ensures Valid()
      ensures searchQuery == "" && selectedStatus == "All" && selectedType == "All"
      ensures selectedFines == [] && paymentAmount == map[]
    {
      searchQuery, selectedStatus, selectedType := "", "All", "All";
      selectedFines, paymentAmount := [], map[];
    }
  }
}
