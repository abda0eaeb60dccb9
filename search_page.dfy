/** The global search page: the search run against the semantic-search API,
    the list of recent searches, the filter panel, and the classifiers and
    option lists the result cards use. */
module Search {
  import opened Common
  import opened Views
  import opened Sorting

  /** A book as the search API returns it. */
  datatype ApiBook = ApiBook(
    id: int,
    title: string,
    author: string,
    category: string,
    publicationYear: int,
    isbn: string,
    availableCopies: int,
    totalCopies: int)

  /** A book as a result card shows it. */
  datatype DisplayBook = DisplayBook(
    id: int,
    kind: string,
    title: string,
    author: string,
    category: string,
    year: int,
    isbn: string,
    status: string,
    copies: int,
    location: string,
    rating: real)

  /** The API record turned into a card: a book is 'Available' while it has a
      copy on the shelf and 'Borrowed' otherwise. */
  function ToDisplay(b: ApiBook): (d: DisplayBook)
    ensures d.status == "Available" <==> b.availableCopies > 0
    ensures d.status == "Borrowed" <==> b.availableCopies <= 0
    ensures d.id == b.id && d.title == b.title && d.author == b.author && d.category == b.category
    ensures d.year == b.publicationYear && d.isbn == b.isbn && d.copies == b.totalCopies
    ensures d.kind == "book" && d.location == "Main Hall" && d.rating == 4.5
  {
    DisplayBook(b.id, "book", b.title, b.author, b.category, b.publicationYear, b.isbn,
                if b.availableCopies > 0 then "Available" else "Borrowed",
                b.totalCopies, "Main Hall", 4.5)
  }

  /** The result lists; the member, e-book and reservation lists are only ever
      set empty, so their records are kept as ids. */
  datatype SearchResults = SearchResults(
    books: seq<DisplayBook>,
    members: seq<int>,
    ebooks: seq<int>,
    reservations: seq<int>,
    total: int)

  const NoResults := SearchResults([], [], [], [], 0)

  datatype RecentSearch = RecentSearch(term: string, kind: string, count: int)

  datatype Filters = Filters(status: string, year: string, category: string)

  const AnyFilters := Filters("any", "any", "any")

  function InitialRecentSearches(): seq<RecentSearch> {
    [RecentSearch("fiction", "books", 24), RecentSearch("science", "books", 18),
     RecentSearch("john", "members", 3), RecentSearch("2024", "all", 45),
     RecentSearch("pdf", "ebooks", 12)]
  }

  function Terms(recent: seq<RecentSearch>): seq<string> {
    MapSeq(recent, (r: RecentSearch) => r.term)
  }

  /** The white space `String.prototype.trim` removes (the ASCII and
      line-separator characters). */
  predicate IsSpace(c: char) {
    c == ' ' || c == '\t' || c == '\n' || c == '\r' || c == '\U{000B}' || c == '\U{000C}'
    || c == '\U{00A0}' || c == '\U{FEFF}' || c == '\U{2028}' || c == '\U{2029}'
  }

  /** `!query.trim()`: nothing but white space. */
  predicate Blank(s: string) {
    forall i :: 0 <= i < |s| ==> IsSpace(s[i])
  }

  /** The recent-search list after a search for `term`: a term already listed
      leaves the list alone; a new one goes in front of the first four old
      entries. */
  function RecentAfter(recent: seq<RecentSearch>, term: string, kind: string, count: int): (r: seq<RecentSearch>)
    ensures term in Terms(recent) ==> r == recent
    ensures term !in Terms(recent) ==>
      |r| >= 1 && r[0] == RecentSearch(term, kind, count) && r[1..] == Take(recent, 4)
  {
    if term in Terms(recent) then recent else [RecentSearch(term, kind, count)] + Take(recent, 4)
  }

  /** The list holds at most five searches, no term twice, and the newest first. */
  lemma RecentAfterBounded(recent: seq<RecentSearch>, term: string, kind: string, count: int)
    requires |recent| <= 5 && NoDup(Terms(recent))
    ensures |RecentAfter(recent, term, kind, count)| <= 5
    ensures NoDup(Terms(RecentAfter(recent, term, kind, count)))
    ensures term in Terms(RecentAfter(recent, term, kind, count))
  {
    var r := RecentAfter(recent, term, kind, count);
    if term !in Terms(recent) {
      var t := Take(recent, 4);
      assert r == [RecentSearch(term, kind, count)] + t;
      forall i, j | 0 <= i < j < |r|
        ensures Terms(r)[i] != Terms(r)[j]
      {
        assert Terms(r)[j] == Terms(recent)[j - 1];
        if i > 0 {
          assert Terms(r)[i] == Terms(recent)[i - 1];
        } else {
          assert Terms(recent)[j - 1] in Terms(recent);
        }
      }
      assert Terms(r)[0] == term;
    } else {
      assert Terms(r) == Terms(recent);
    }
  }

  class SearchPage {
    var searchQuery: string
    var results: SearchResults
    var isSearching: bool
    var searchType: string
    var recentSearches: seq<RecentSearch>
    var filters: Filters

    ghost predicate Valid()
      reads this
    {
      |recentSearches| <= 5 && NoDup(Terms(recentSearches))
    }

    constructor ()
      ensures Valid()
      ensures searchQuery == "" && results == NoResults && !isSearching && searchType == "all"
      ensures recentSearches == InitialRecentSearches() && filters == AnyFilters
    {
      searchQuery, results, isSearching, searchType := "", NoResults, false, "all";
      recentSearches, filters := InitialRecentSearches(), AnyFilters;
    }

    /** Runs a search. `response` is the API's answer, `None` when the call
        failed. A blank query empties the results and calls nothing; a failed
        call changes nothing but the busy flag; a successful one shows the
        mapped books and records the lower-cased query as a recent search. */
    method PerformSearch(query: string, response: Option<seq<ApiBook>>)
      requires Valid()
      modifies this`results, this`isSearching, this`recentSearches
      ensures Valid()
      ensures Blank(query) ==>
        results == NoResults && isSearching == old(isSearching) && recentSearches == old(recentSearches)
      ensures !Blank(query) ==> !isSearching
      ensures !Blank(query) && response.None? ==>
        results == old(results) && recentSearches == old(recentSearches)
      ensures !Blank(query) && response.Some? ==>
        results == SearchResults(MapSeq(response.value, ToDisplay), [], [], [], |response.value|)
        && recentSearches == RecentAfter(old(recentSearches), Lower(query), searchType, |response.value|)
    {
      if Blank(query) {
        results := NoResults;
        return;
      }
      isSearching := true;
      if response.Some? {
        var mappedBooks := MapSeq(response.value, ToDisplay);
        results := SearchResults(mappedBooks, [], [], [], |mappedBooks|);
        RecentAfterBounded(recentSearches, Lower(query), searchType, |mappedBooks|);
        recentSearches := RecentAfter(recentSearches, Lower(query), searchType, |mappedBooks|);
      }
      isSearching := false;
    }

    method ClearSearch()
      modifies this`searchQuery, this`results, this`filters
      ensures searchQuery == "" && results == NoResults && filters == AnyFilters
    {
      searchQuery := "";
      results := NoResults;
      filters := AnyFilters;
    }

    /** Resets the filter panel and repeats the search for a non-empty query. */
    method ResetFilters(response: Option<seq<ApiBook>>)
      requires Valid()
      modifies this`filters, this`results, this`isSearching, this`recentSearches
      ensures Valid() && filters == AnyFilters
      ensures searchQuery == "" ==>
        results == old(results) && isSearching == old(isSearching) && recentSearches == old(recentSearches)
      ensures searchQuery != "" && Blank(searchQuery) ==>
        results == NoResults && isSearching == old(isSearching) && recentSearches == old(recentSearches)
      ensures searchQuery != "" && !Blank(searchQuery) ==> !isSearching
      ensures searchQuery != "" && !Blank(searchQuery) && response.None? ==>
        results == old(results) && recentSearches == old(recentSearches)
      ensures searchQuery != "" && !Blank(searchQuery) && response.Some? ==>
        results == SearchResults(MapSeq(response.value, ToDisplay), [], [], [], |response.value|)
        && recentSearches == RecentAfter(old(recentSearches), Lower(searchQuery), searchType, |response.value|)
    {
      filters := AnyFilters;
      if searchQuery != "" {
        PerformSearch(searchQuery, response);
      }
    }
  }

  // ---------------------------------------------------------------------------
  // Classifiers
  // ---------------------------------------------------------------------------

  datatype Tone = Success | Warning | Danger

  /** The badge colour of a status, compared in lower case. */
  function StatusColor(status: string): (t: Tone)
    ensures t == Success <==> Lower(status) in {"available", "active", "ready"}
    ensures t == Warning <==> Lower(status) in {"borrowed", "pending"}
  {
    var s := Lower(status);
    if s == "available" || s == "active" || s == "ready" then Success
    else if s == "borrowed" || s == "pending" then Warning
    else Danger
  }

  /** The colour does not depend on letter case: a status and its lower-case
      form get the same badge. */
  lemma StatusColorIgnoresCase(status: string)
    ensures StatusColor(Lower(status)) == StatusColor(status)
  {
    LowerIdempotent(status);
  }

  predicate KnownKind(kind: string) {
    kind == "book" || kind == "member" || kind == "ebook" || kind == "reservation"
  }

  /** The link of a result card: the plural route with the id, or '#' for a
      kind the page does not know. */
  function ViewLink(kind: string, id: int): (link: string)
    ensures link == "#" <==> !KnownKind(kind)
    ensures kind == "book" ==> link == "/books/" + IntToString(id)
    ensures kind == "member" ==> link == "/members/" + IntToString(id)
    ensures kind == "ebook" ==> link == "/ebooks/" + IntToString(id)
    ensures kind == "reservation" ==> link == "/reservations/" + IntToString(id)
  {
    if kind == "book" then "/books/" + IntToString(id)
    else if kind == "member" then "/members/" + IntToString(id)
    else if kind == "ebook" then "/ebooks/" + IntToString(id)
    else if kind == "reservation" then "/reservations/" + IntToString(id)
    else "#"
  }

  function Route(kind: string): string {
    if kind == "book" then "/books/"
    else if kind == "member" then "/members/"
    else if kind == "ebook" then "/ebooks/"
    else "/reservations/"
  }

  /** Different records of known kinds never share a link. */
  lemma ViewLinkInjective(k1: string, i1: int, k2: string, i2: int)
    requires KnownKind(k1) && KnownKind(k2)
    requires ViewLink(k1, i1) == ViewLink(k2, i2)
    ensures k1 == k2 && i1 == i2
  {
    var a, b := IntToString(i1), IntToString(i2);
    assert ViewLink(k1, i1) == Route(k1) + a;
    assert ViewLink(k2, i2) == Route(k2) + b;
    assert (Route(k1) + a)[1] == Route(k1)[1];
    assert (Route(k2) + b)[1] == Route(k2)[1];
    RouteDeterminesKind(k1, k2);
    SameTail(Route(k1), a, b);
    IntToStringInjective(i1, i2);
  }

  /** The second character of a route names the kind. */
  lemma RouteDeterminesKind(k1: string, k2: string)
    requires KnownKind(k1) && KnownKind(k2)
    requires Route(k1)[1] == Route(k2)[1]
    ensures k1 == k2
  {
  }

  lemma SameTail(p: string, a: string, b: string)
    requires p + a == p + b
    ensures a == b
  {
    assert a == (p + a)[|p|..];
    assert b == (p + b)[|p|..];
  }

  // ---------------------------------------------------------------------------
  // Option lists of the filter panel, gathered from the sample records
  // ---------------------------------------------------------------------------

  datatype SampleBook = SampleBook(category: string, year: int, status: string)
  datatype SampleEBook = SampleEBook(category: string)
  datatype SampleMember = SampleMember(status: string)
  datatype SampleReservation = SampleReservation(status: string)

  /** `xs.forEach(x => set.add(x))` on a set whose insertion order is `seen`. */
  method AddEach<T(==)>(seen: seq<T>, ghost before: seq<T>, xs: seq<T>) returns (r: seq<T>)
    requires seen == Distinct(before)
    ensures r == Distinct(before + xs)
  {
    r := seen;
    var i := 0;
    assert before + xs[..0] == before;
    while i < |xs|
      invariant 0 <= i <= |xs|
      invariant r == Distinct(before + xs[..i])
    {
      AddStep(before, xs, i);
      if xs[i] !in r {
        r := r + [xs[i]];
      }
      i := i + 1;
    }
    assert xs[..i] == xs;
  }

  /** One `set.add` of the loop, on the set's insertion order. */
  lemma AddStep<T>(before: seq<T>, xs: seq<T>, i: nat)
    requires i < |xs|
    ensures Distinct(before + xs[..i + 1])
         == if xs[i] in Distinct(before + xs[..i]) then Distinct(before + xs[..i])
            else Distinct(before + xs[..i]) + [xs[i]]
  {
    assert before + xs[..i + 1] == (before + xs[..i]) + [xs[i]];
    DistinctSnoc(before + xs[..i], xs[i]);
  }

  /** The categories of the books, then those of the e-books, each once. */
  method GetCategories(books: seq<SampleBook>, ebooks: seq<SampleEBook>) returns (categories: seq<string>)
    ensures categories == Distinct(MapSeq(books, (b: SampleBook) => b.category)
                                   + MapSeq(ebooks, (e: SampleEBook) => e.category))
  {
    var bookCategories := MapSeq(books, (b: SampleBook) => b.category);
    categories := AddEach([], [], bookCategories);
    assert [] + bookCategories == bookCategories;
    categories := AddEach(categories, bookCategories, MapSeq(ebooks, (e: SampleEBook) => e.category));
  }

  /** The statuses of the books, members and reservations, each once. */
  method GetStatuses(books: seq<SampleBook>, members: seq<SampleMember>, reservations: seq<SampleReservation>)
    returns (statuses: seq<string>)
    ensures statuses == Distinct(MapSeq(books, (b: SampleBook) => b.status)
                                 + MapSeq(members, (m: SampleMember) => m.status)
                                 + MapSeq(reservations, (r: SampleReservation) => r.status))
  {
    var bookStatuses := MapSeq(books, (b: SampleBook) => b.status);
    var memberStatuses := MapSeq(members, (m: SampleMember) => m.status);
    statuses := AddEach([], [], bookStatuses);
    assert [] + bookStatuses == bookStatuses;
    statuses := AddEach(statuses, bookStatuses, memberStatuses);
    statuses := AddEach(statuses, bookStatuses + memberStatuses,
                        MapSeq(reservations, (r: SampleReservation) => r.status));
  }

  /** The number a year option reads as (`parseInt`). */
  function YearValue(y: string): int {
    ParseDecimal(y).GetOr(0)
  }

  /** Newest first: sorting by the negated year. */
  function NewestFirst(y: string): int {
    0 - YearValue(y)
  }

  function YearTexts(books: seq<SampleBook>): seq<string> {
    MapSeq(books, (b: SampleBook) => IntToString(b.year))
  }

  /** The publication years as texts, each once, newest first. */
  method GetYears(books: seq<SampleBook>) returns (years: seq<string>)
    ensures years == SortBy(Distinct(YearTexts(books)), NewestFirst)
    ensures forall i, j :: 0 <= i < j < |years| ==> YearValue(years[i]) >= YearValue(years[j])
    ensures NoDup(years)
    ensures forall y :: y in years <==> exists b :: b in books && y == IntToString(b.year)
  {
    var texts := YearTexts(books);
    var distinct := AddEach([], [], texts);
    assert [] + texts == texts;
    years := SortBy(distinct, NewestFirst);
    SortedYears(distinct);
    YearTextsMembership(books);
  }

  /** Sorting newest first keeps the options distinct, holds the same ones and
      orders them by non-increasing year. */
  lemma SortedYears(distinct: seq<string>)
    requires NoDup(distinct)
    ensures var years := SortBy(distinct, NewestFirst);
      && (forall i, j :: 0 <= i < j < |years| ==> YearValue(years[i]) >= YearValue(years[j]))
      && NoDup(years)
      && (forall y :: y in years <==> y in distinct)
  {
    var years := SortBy(distinct, NewestFirst);
    SortBySorted(distinct, NewestFirst);
    SortByPermutes(distinct, NewestFirst);
    PermutationNoDup(distinct, years);
    forall y
      ensures y in years <==> y in distinct
    {
      assert y in years <==> y in multiset(years);
      assert y in distinct <==> y in multiset(distinct);
    }
  }

  /** The year options are exactly the years of the books, as text. */
  lemma YearTextsMembership(books: seq<SampleBook>)
    ensures forall y :: y in Distinct(YearTexts(books)) <==> exists b :: b in books && y == IntToString(b.year)
  {
    var texts := YearTexts(books);
    forall y | y in Distinct(texts)
      ensures exists b :: b in books && y == IntToString(b.year)
    {
      var k :| 0 <= k < |texts| && texts[k] == y;
      assert books[k] in books;
    }
    forall b | b in books
      ensures IntToString(b.year) in Distinct(texts)
    {
      var k :| 0 <= k < |books| && books[k] == b;
      assert texts[k] == IntToString(b.year);
    }
  }

  /** Every year option reads back as the year of some book. */
  lemma YearOptionsAreYears(books: seq<SampleBook>, y: string)
    requires y in Distinct(YearTexts(books))
    ensures exists b :: b in books && YearValue(y) == b.year
  {
    var k :| 0 <= k < |books| && YearTexts(books)[k] == y;
    ParseIntToString(books[k].year);
    assert books[k] in books;
  }
}
