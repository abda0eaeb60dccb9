/** The search service: the advanced-search query built from optional
    parameters, prefix suggestions, the scored semantic search and the
    history-based recommendations. The book and transaction collections are
    sequences of documents; a `$regex` condition is read as a case-insensitive
    substring (or, anchored with `^`, prefix) test on a plain pattern. */
module SearchController {
  import opened Common
  import opened Views
  import opened Sorting
  import opened Documents

  // ---------------------------------------------------------------------------
  // Advanced search
  // ---------------------------------------------------------------------------

  datatype AdvancedSearchRequest = AdvancedSearchRequest(
    title: Option<string>,
    author: Option<string>,
    category: Option<string>,
    isbn: Option<string>,
    yearMin: Option<int>,
    yearMax: Option<int>,
    availableOnly: bool)

  /** A parameter that Python reads as true: given and not empty (or zero). */
  predicate TextGiven(p: Option<string>) { p.Some? && p.value != "" }
  predicate NumberGiven(p: Option<int>) { p.Some? && p.value != 0 }

  /** One field condition of a query document. */
  datatype Condition =
    | Pattern(pattern: string)                    // {"$regex": p, "$options": "i"}
    | Equals(value: Json)                         // the value itself
    | YearRange(gte: Option<int>, lte: Option<int>) // {"$gte": …, "$lte": …}
    | Positive                                    // {"$gt": 0}

  type Query = map<string, Condition>

  predicate Holds(c: Condition, v: Json) {
    match c
    case Pattern(p) => v.JStr? && ContainsFolded(v.s, p)
    case Equals(x) => v == x
    case YearRange(lo, hi) => v.JInt? && (lo.Some? ==> v.i >= lo.value) && (hi.Some? ==> v.i <= hi.value)
    case Positive => v.JInt? && v.i > 0
  }

  /** `find(query)`: every condition holds of a field the document has. */
  predicate Satisfies(d: Doc, q: Query) {
    forall k :: k in q ==> k in d && Holds(q[k], d[k])
  }

  /** The query the parameters call for: a key for each parameter Python reads
      as true, and a year range whose bounds are the given years. */
  function AdvancedQuery(p: AdvancedSearchRequest): (q: Query)
    ensures "title" in q <==> TextGiven(p.title)
    ensures "author" in q <==> TextGiven(p.author)
    ensures "category" in q <==> TextGiven(p.category)
    ensures "isbn" in q <==> TextGiven(p.isbn)
    ensures "publication_year" in q <==> NumberGiven(p.yearMin) || NumberGiven(p.yearMax)
    ensures "available_copies" in q <==> p.availableOnly
    ensures forall k :: k in q ==>
      k in {"title", "author", "category", "isbn", "publication_year", "available_copies"}
  {
    var q0: Query := map[];
    var q1 := if TextGiven(p.title) then q0["title" := Pattern(p.title.value)] else q0;
    var q2 := if TextGiven(p.author) then q1["author" := Pattern(p.author.value)] else q1;
    var q3 := if TextGiven(p.category) then q2["category" := Equals(JStr(p.category.value))] else q2;
    var q4 := if TextGiven(p.isbn) then q3["isbn" := Equals(JStr(p.isbn.value))] else q3;
    var q5 := if NumberGiven(p.yearMin) || NumberGiven(p.yearMax) then
                q4["publication_year" := YearRange(if NumberGiven(p.yearMin) then p.yearMin else None,
                                                   if NumberGiven(p.yearMax) then p.yearMax else None)]
              else q4;
    if p.availableOnly then q5["available_copies" := Positive] else q5
  }

  /** The request read field by field, without a query document: a reference
      for what the built query selects. */
  predicate MeetsRequest(d: Doc, p: AdvancedSearchRequest) {
    (TextGiven(p.title) ==> "title" in d && d["title"].JStr? && ContainsFolded(d["title"].s, p.title.value))
    && (TextGiven(p.author) ==> "author" in d && d["author"].JStr? && ContainsFolded(d["author"].s, p.author.value))
    && (TextGiven(p.category) ==> "category" in d && d["category"] == JStr(p.category.value))
    && (TextGiven(p.isbn) ==> "isbn" in d && d["isbn"] == JStr(p.isbn.value))
    && (NumberGiven(p.yearMin) ==> "publication_year" in d && d["publication_year"].JInt?
                                   && d["publication_year"].i >= p.yearMin.value)
    && (NumberGiven(p.yearMax) ==> "publication_year" in d && d["publication_year"].JInt?
                                   && d["publication_year"].i <= p.yearMax.value)
    && (p.availableOnly ==> "available_copies" in d && d["available_copies"].JInt? && d["available_copies"].i > 0)
  }

  /** The built query selects exactly the books that meet the request. */
  lemma AdvancedQueryMeaning(d: Doc, p: AdvancedSearchRequest)
    ensures Satisfies(d, AdvancedQuery(p)) <==> MeetsRequest(d, p)
  {
    var q := AdvancedQuery(p);
    AdvancedQueryConditions(p);
    if Satisfies(d, q) {
      if TextGiven(p.title) { assert Holds(q["title"], d["title"]); }
      if TextGiven(p.author) { assert Holds(q["author"], d["author"]); }
      if TextGiven(p.category) { assert Holds(q["category"], d["category"]); }
      if TextGiven(p.isbn) { assert Holds(q["isbn"], d["isbn"]); }
      if NumberGiven(p.yearMin) || NumberGiven(p.yearMax) {
        assert Holds(q["publication_year"], d["publication_year"]);
      }
      if p.availableOnly { assert Holds(q["available_copies"], d["available_copies"]); }
    }
  }

  /** The condition each key of the built query carries. */
  lemma AdvancedQueryConditions(p: AdvancedSearchRequest)
    ensures var q := AdvancedQuery(p);
      && (TextGiven(p.title) ==> q["title"] == Pattern(p.title.value))
      && (TextGiven(p.author) ==> q["author"] == Pattern(p.author.value))
      && (TextGiven(p.category) ==> q["category"] == Equals(JStr(p.category.value)))
      && (TextGiven(p.isbn) ==> q["isbn"] == Equals(JStr(p.isbn.value)))
      && (NumberGiven(p.yearMin) || NumberGiven(p.yearMax) ==>
            q["publication_year"] == YearRange(if NumberGiven(p.yearMin) then p.yearMin else None,
                                               if NumberGiven(p.yearMax) then p.yearMax else None))
      && (p.availableOnly ==> q["available_copies"] == Positive)
  {
  }

  /** A year bound of 0 is read as no bound at all. */
  lemma ZeroYearIsNoBound(p: AdvancedSearchRequest)
    ensures AdvancedQuery(p.(yearMin := Some(0))) == AdvancedQuery(p.(yearMin := None))
    ensures AdvancedQuery(p.(yearMax := Some(0))) == AdvancedQuery(p.(yearMax := None))
  {
    SameGivenSameQuery(p.(yearMin := Some(0)), p.(yearMin := None));
    SameGivenSameQuery(p.(yearMax := Some(0)), p.(yearMax := None));
  }

  /** Two requests that Python reads alike build the same query. */
  lemma SameGivenSameQuery(p1: AdvancedSearchRequest, p2: AdvancedSearchRequest)
    requires p1.title == p2.title && p1.author == p2.author && p1.category == p2.category
    requires p1.isbn == p2.isbn && p1.availableOnly == p2.availableOnly
    requires NumberGiven(p1.yearMin) == NumberGiven(p2.yearMin)
    requires NumberGiven(p1.yearMin) ==> p1.yearMin == p2.yearMin
    requires NumberGiven(p1.yearMax) == NumberGiven(p2.yearMax)
    requires NumberGiven(p1.yearMax) ==> p1.yearMax == p2.yearMax
    ensures AdvancedQuery(p1) == AdvancedQuery(p2)
  {
  }

  /** The query document assembled key by key. */
  method BuildAdvancedQuery(p: AdvancedSearchRequest) returns (query: Query)
    ensures query == AdvancedQuery(p)
  {
    query := map[];
    if TextGiven(p.title) {
      query := query["title" := Pattern(p.title.value)];
    }
    if TextGiven(p.author) {
      query := query["author" := Pattern(p.author.value)];
    }
    if TextGiven(p.category) {
      query := query["category" := Equals(JStr(p.category.value))];
    }
    if TextGiven(p.isbn) {
      query := query["isbn" := Equals(JStr(p.isbn.value))];
    }
    if NumberGiven(p.yearMin) || NumberGiven(p.yearMax) {
      var gte: Option<int> := None;
      var lte: Option<int> := None;
      if NumberGiven(p.yearMin) {
        gte := p.yearMin;
      }
      if NumberGiven(p.yearMax) {
        lte := p.yearMax;
      }
      query := query["publication_year" := YearRange(gte, lte)];
    }
    if p.availableOnly {
      query := query["available_copies" := Positive];
    }
  }

  ghost predicate AllStored(docs: seq<Doc>) {
    forall i :: 0 <= i < |docs| ==> Stored(docs[i])
  }

  /** `find(query)` on the books collection, in collection order. */
  function Found(books: seq<Doc>, query: Query): seq<Doc> {
    Filter(books, d => Satisfies(d, query))
  }

  /** Whatever the query, the books it finds are stored documents. */
  lemma FoundStored(books: seq<Doc>, query: Query)
    requires AllStored(books)
    ensures AllStored(Found(books, query))
  {
    FilterKeeps(books, d => Satisfies(d, query), Stored);
  }

  /** The matching books in collection order, each with its id exposed, and
      their number. */
  method AdvancedSearch(books: seq<Doc>, p: AdvancedSearchRequest) returns (found: seq<Doc>, total: int)
    requires AllStored(books)
    ensures total == |found| == |Found(books, AdvancedQuery(p))|
    ensures AllStored(Found(books, AdvancedQuery(p)))
    ensures forall i :: 0 <= i < |found| ==> found[i] == Exposed(Found(books, AdvancedQuery(p))[i])
  {
    var query := BuildAdvancedQuery(p);
    var cursor := Found(books, query);
    FoundStored(books, query);
    found := ExposeEach(cursor);
    total := |found|;
  }

  /** The cursor loop: each book in cursor order, with its id exposed. */
  method ExposeEach(cursor: seq<Doc>) returns (found: seq<Doc>)
    requires AllStored(cursor)
    ensures |found| == |cursor|
    ensures forall j :: 0 <= j < |cursor| ==> found[j] == Exposed(cursor[j])
  {
    found := [];
    var i := 0;
    while i < |cursor|
      invariant 0 <= i <= |cursor|
      invariant |found| == i
      invariant forall j :: 0 <= j < i ==> found[j] == Exposed(cursor[j])
    {
      found := found + [Exposed(cursor[i])];
      i := i + 1;
    }
  }

  /** The search returns exactly the books that meet the request, in
      collection order. */
  lemma {:induction false} FoundMeetsRequest(books: seq<Doc>, p: AdvancedSearchRequest)
    ensures Found(books, AdvancedQuery(p)) == Filter(books, d => MeetsRequest(d, p))
    decreases |books|
  {
    if books != [] {
      FoundMeetsRequest(books[..|books| - 1], p);
      AdvancedQueryMeaning(books[|books| - 1], p);
    }
  }

  // ---------------------------------------------------------------------------
  // Suggestions
  // ---------------------------------------------------------------------------

  /** `{"$regex": "^" + query, "$options": "i"}` on a plain query. */
  predicate StartsFolded(value: string, query: string) {
    Lower(query) <= Lower(value)
  }

  /** `distinct(field, {field: ^query})` over the field's stored values. */
  function Matching(values: seq<string>, query: string): seq<string> {
    Distinct(Filter(values, v => StartsFolded(v, query)))
  }

  /** The up to five matches a source contributes when the type selects it. */
  function Part(kind: string, source: string, values: seq<string>, query: string): seq<string> {
    if kind == "all" || kind == source then Take(Matching(values, query), 5) else []
  }

  /** What the selected sources contribute, titles first. */
  function Picked(query: string, kind: string, titles: seq<string>, authors: seq<string>, categories: seq<string>)
    : seq<string>
  {
    Part(kind, "titles", titles, query) + Part(kind, "authors", authors, query)
    + Part(kind, "categories", categories, query)
  }

  /** A value the type lets through: among the first five matches of a source
      the type selects. */
  predicate Suggestible(x: string, query: string, kind: string,
                        titles: seq<string>, authors: seq<string>, categories: seq<string>)
  {
    ((kind == "all" || kind == "titles") && x in Take(Matching(titles, query), 5))
    || ((kind == "all" || kind == "authors") && x in Take(Matching(authors, query), 5))
    || ((kind == "all" || kind == "categories") && x in Take(Matching(categories, query), 5))
  }

  /** Suggestions for a partial query. A query of fewer than two characters
      gets none; otherwise at most ten distinct values, each a prefix match of
      a source the type selects and among that source's first five; when the
      picked values number ten or fewer all of them are offered. The type is
      echoed back. */
  method GetSuggestions(query: string, kind: string, titles: seq<string>, authors: seq<string>, categories: seq<string>)
    returns (suggestions: seq<string>, echoed: string)
    ensures echoed == kind
    ensures |query| < 2 ==> suggestions == []
    ensures |suggestions| <= 10 && NoDup(suggestions)
    ensures forall i :: 0 <= i < |suggestions| ==> Suggestible(suggestions[i], query, kind, titles, authors, categories)
    ensures |query| >= 2 && |Distinct(Picked(query, kind, titles, authors, categories))| <= 10 ==>
      forall x :: x in Picked(query, kind, titles, authors, categories) ==> x in suggestions
  {
    echoed := kind;
    if |query| < 2 {
      return [], kind;
    }
    var picked: seq<string> := [];
    if kind == "all" || kind == "titles" {
      picked := picked + Take(Matching(titles, query), 5);
    }
    assert picked == Part(kind, "titles", titles, query);
    if kind == "all" || kind == "authors" {
      picked := picked + Take(Matching(authors, query), 5);
    }
    assert picked == Part(kind, "titles", titles, query) + Part(kind, "authors", authors, query);
    if kind == "all" || kind == "categories" {
      picked := picked + Take(Matching(categories, query), 5);
    }
    assert picked == Picked(query, kind, titles, authors, categories);
    suggestions := Take(Distinct(picked), 10);
    DistinctPrefix(picked, 10);
    PickedSources(query, kind, titles, authors, categories);
  }

  /** `list(set(xs))[:n]`: no repeats, at most `n`, nothing new, and everything
      when there are at most `n` distinct values. */
  lemma DistinctPrefix<T>(xs: seq<T>, n: nat)
    ensures |Take(Distinct(xs), n)| <= n && NoDup(Take(Distinct(xs), n))
    ensures forall i :: 0 <= i < |Take(Distinct(xs), n)| ==> Take(Distinct(xs), n)[i] in xs
    ensures |Distinct(xs)| <= n ==> forall x :: x in xs ==> x in Take(Distinct(xs), n)
  {
    var u := Distinct(xs);
    forall i | 0 <= i < |Take(u, n)|
      ensures Take(u, n)[i] in xs
    {
      assert Take(u, n)[i] == u[i];
    }
    forall x | x in xs && |u| <= n
      ensures x in Take(u, n)
    {
      var k :| 0 <= k < |xs| && xs[k] == x;
    }
  }

  lemma PickedSources(query: string, kind: string, titles: seq<string>, authors: seq<string>, categories: seq<string>)
    ensures forall x :: x in Picked(query, kind, titles, authors, categories) ==>
      Suggestible(x, query, kind, titles, authors, categories)
  {
  }

  // ---------------------------------------------------------------------------
  // Semantic search
  // ---------------------------------------------------------------------------

  /** A text field containing the query, folded; a missing or non-text field
      never matches. */
  predicate FieldMatches(d: Doc, field: string, query: string) {
    field in d && d[field].JStr? && ContainsFolded(d[field].s, query)
  }

  /** The `$or` of the five text fields. */
  predicate SemanticMatch(d: Doc, query: string) {
    FieldMatches(d, "title", query) || FieldMatches(d, "author", query) || FieldMatches(d, "description", query)
    || FieldMatches(d, "category", query) || FieldMatches(d, "publisher", query)
  }

  /** A hit the scoring can read: its title, author and description are each
      absent or text; on any other value (a stored `null` description, say)
      `.lower()` raises and the request fails. */
  predicate Scorable(d: Doc) {
    TextOrAbsent(d, "title") && TextOrAbsent(d, "author") && TextOrAbsent(d, "description")
  }

  ghost predicate AllScorable(docs: seq<Doc>) {
    forall i :: 0 <= i < |docs| ==> Scorable(docs[i])
  }

  /** 10 for the title, 5 for the author and 3 for the description containing
      the query, folded (a missing field reads as ""). */
  function Score(d: Doc, query: string): (s: int)
    ensures 0 <= s <= 18
  {
    (if ContainsFolded(FieldText(d, "title"), query) then 10 else 0)
    + (if ContainsFolded(FieldText(d, "author"), query) then 5 else 0)
    + (if ContainsFolded(FieldText(d, "description"), query) then 3 else 0)
  }

  /** The weights are chosen so that a score tells which fields matched. */
  lemma ScoreDecodes(a: Doc, b: Doc, query: string)
    requires Score(a, query) == Score(b, query)
    ensures ContainsFolded(FieldText(a, "title"), query) == ContainsFolded(FieldText(b, "title"), query)
    ensures ContainsFolded(FieldText(a, "author"), query) == ContainsFolded(FieldText(b, "author"), query)
    ensures ContainsFolded(FieldText(a, "description"), query) == ContainsFolded(FieldText(b, "description"), query)
  {
  }

  /** The stored score of a result (`x["relevance_score"]`). */
  function ScoreOf(d: Doc): int {
    if "relevance_score" in d && d["relevance_score"].JInt? then d["relevance_score"].i else 0
  }

  function HighestFirst(d: Doc): int { 0 - ScoreOf(d) }

  /** A result: id exposed, score attached. */
  function Scored(d: Doc, query: string): (r: Doc)
    requires Stored(d)
    ensures ScoreOf(r) == Score(d, query)
    ensures "id" in r && r["id"] == JStr(IdText(d["_id"])) && "_id" !in r
  {
    Exposed(d)["relevance_score" := JInt(Score(d, query))]
  }

  function ScoredAll(docs: seq<Doc>, query: string): (r: seq<Doc>)
    requires AllStored(docs)
    ensures |r| == |docs| && forall i :: 0 <= i < |docs| ==> r[i] == Scored(docs[i], query)
  {
    seq(|docs|, i requires 0 <= i < |docs| && AllStored(docs) => Scored(docs[i], query))
  }

  /** Scoring one more book of the cursor appends its result. */
  lemma ScoredAllSnoc(docs: seq<Doc>, i: nat, query: string)
    requires i < |docs| && AllStored(docs)
    ensures AllStored(docs[..i]) && AllStored(docs[..i + 1])
    ensures ScoredAll(docs[..i + 1], query) == ScoredAll(docs[..i], query) + [Scored(docs[i], query)]
  {
    var a, b := ScoredAll(docs[..i + 1], query), ScoredAll(docs[..i], query) + [Scored(docs[i], query)];
    forall j | 0 <= j < i + 1 ensures a[j] == b[j] {
      if j < i {
        assert docs[..i + 1][j] == docs[..i][j];
      } else {
        assert docs[..i + 1][j] == docs[i];
      }
    }
  }

  /** The cursor: the first twenty books matching in any text field. */
  function SemanticHits(books: seq<Doc>, query: string): seq<Doc> {
    Take(Filter(books, d => SemanticMatch(d, query)), 20)
  }

  lemma SemanticHitsStored(books: seq<Doc>, query: string)
    requires AllStored(books)
    ensures AllStored(SemanticHits(books, query))
  {
    FilterKeeps(books, d => SemanticMatch(d, query), Stored);
  }

  /** Any arrangement of scored results carries scores between 0 and 18. */
  lemma ScoresInRange(results: seq<Doc>, docs: seq<Doc>, query: string)
    requires AllStored(docs) && multiset(results) == multiset(ScoredAll(docs, query))
    ensures forall i :: 0 <= i < |results| ==> 0 <= ScoreOf(results[i]) <= 18
  {
    var scored := ScoredAll(docs, query);
    forall k | 0 <= k < |results|
      ensures 0 <= ScoreOf(results[k]) <= 18
    {
      assert results[k] in multiset(scored);
      var m :| 0 <= m < |scored| && scored[m] == results[k];
    }
  }

  /** `sort(key=lambda x: x["relevance_score"], reverse=True)`: the same
      results, highest score first. */
  lemma RankedByScore(scored: seq<Doc>)
    ensures multiset(SortBy(scored, HighestFirst)) == multiset(scored)
    ensures forall i, j :: 0 <= i < j < |SortBy(scored, HighestFirst)| ==>
      ScoreOf(SortBy(scored, HighestFirst)[i]) >= ScoreOf(SortBy(scored, HighestFirst)[j])
  {
    SortBySorted(scored, HighestFirst);
    SortByPermutes(scored, HighestFirst);
  }

  /** What scoring the cursor yields: every book scored, or the internal
      error of the first book whose fields cannot be lower-cased. */
  ghost function ScoringOutcome(cursor: seq<Doc>, query: string): Result<seq<Doc>>
    requires AllStored(cursor)
  {
    if AllScorable(cursor) then Ok(ScoredAll(cursor, query)) else Err(HttpError(500, "Internal Server Error"))
  }

  /** The loop over the cursor: each book gets its id exposed and its score. */
  method ScoreEach(cursor: seq<Doc>, query: string) returns (scored: Result<seq<Doc>>)
    requires AllStored(cursor)
    ensures scored == ScoringOutcome(cursor, query)
  {
    var done: seq<Doc> := [];
    var i := 0;
    while i < |cursor|
      invariant 0 <= i <= |cursor|
      invariant AllStored(cursor[..i]) && AllScorable(cursor[..i])
      invariant done == ScoredAll(cursor[..i], query)
    {
      if !Scorable(cursor[i]) {
        return Err(HttpError(500, "Internal Server Error"));
      }
      ScoredAllSnoc(cursor, i, query);
      assert AllScorable(cursor[..i + 1]) by {
        var next := cursor[..i + 1];
        forall j | 0 <= j < |next| ensures Scorable(next[j]) {
          assert j < i ==> next[j] == cursor[..i][j];
        }
      }
      done := done + [Scored(cursor[i], query)];
      i := i + 1;
    }
    assert cursor[..i] == cursor;
    scored := Ok(done);
  }

  /** The answer of the semantic search: the ranked books and their number. */
  datatype Ranking = Ranking(books: seq<Doc>, total: int)

  /** The first twenty matches, scored and ordered by non-increasing score; a
      match whose title, author or description is neither absent nor text
      fails the request. */
  method SemanticSearch(query: string, books: seq<Doc>) returns (r: Result<Ranking>)
    requires AllStored(books)
    ensures AllStored(SemanticHits(books, query))
    ensures r.Err? <==> !AllScorable(SemanticHits(books, query))
    ensures r.Err? ==> r.error == HttpError(500, "Internal Server Error")
    ensures r.Ok? ==>
      var results := r.value.books;
      && r.value.total == |results| && |results| <= 20
      && multiset(results) == multiset(ScoredAll(SemanticHits(books, query), query))
      && (forall i, j :: 0 <= i < j < |results| ==> ScoreOf(results[i]) >= ScoreOf(results[j]))
      && (forall i :: 0 <= i < |results| ==> 0 <= ScoreOf(results[i]) <= 18)
  {
    var cursor := SemanticHits(books, query);
    SemanticHitsStored(books, query);
    var scored := ScoreEach(cursor, query);
    if scored.Err? {
      return Err(scored.error);
    }
    var results := SortBy(scored.value, HighestFirst);
    RankedByScore(scored.value);
    ScoresInRange(results, cursor, query);
    r := Ok(Ranking(results, |results|));
  }

  // ---------------------------------------------------------------------------
  // Recommendations
  // ---------------------------------------------------------------------------

  datatype Recommendation =
    | FromHistory(recommendations: seq<Doc>, categories: seq<Json>, authors: seq<Json>)
    | PopularFallback

  /** `find({"member_id": member_id})` selects the transaction. */
  predicate Borrows(t: Doc, memberId: string) {
    Get(t, "member_id", JNull) == JStr(memberId)
  }

  /** What `ObjectId(transaction["book_id"])` makes of a transaction's book id. */
  datatype BookRef =
    | Named(id: string)  // ObjectId text or a stored ObjectId
    | Fresh              // `None`: a newly generated ObjectId
    | Refused            // a missing key, any other value or other text: it raises

  function BookRefOf(t: Doc): BookRef {
    if "book_id" !in t then Refused
    else match t["book_id"]
      case JStr(s) => if IsValidObjectId(s) then Named(s) else Refused
      case JOid(hex) => Named(hex)
      case JNull => Fresh
      case _ => Refused
  }

  /** `find_one({"_id": ObjectId(transaction["book_id"])})`: the book a named
      id finds; a freshly generated ObjectId is the id of no stored book. */
  function BorrowedBook(books: seq<Doc>, t: Doc): Option<Doc> {
    match BookRefOf(t)
    case Named(id) => FindById(books, id)
    case Fresh => None
    case Refused => None
  }

  /** The member's transactions whose book is in the collection. */
  function FoundFor(memberId: string, books: seq<Doc>): Doc -> bool {
    t => Borrows(t, memberId) && BorrowedBook(books, t).Some?
  }

  function BookOf(books: seq<Doc>): Doc -> Doc {
    t => BorrowedBook(books, t).GetOr(map[])
  }

  /** `[book for t in member's transactions if (book := find_one(…))]`: the
      books the member borrowed, in transaction order. */
  function FoundBooks(memberId: string, transactions: seq<Doc>, books: seq<Doc>): seq<Doc> {
    MapSeq(Filter(transactions, FoundFor(memberId, books)), BookOf(books))
  }

  /** The member's borrowed books, transaction by transaction; a book id of one
      of the member's transactions that `ObjectId` refuses fails the request
      with an internal error, and a null one finds nothing. Transactions of
      other members are never read. */
  function History(memberId: string, transactions: seq<Doc>, books: seq<Doc>): (r: Result<seq<Doc>>)
    ensures r.Err? <==>
      exists i :: 0 <= i < |transactions| && Borrows(transactions[i], memberId) && BookRefOf(transactions[i]).Refused?
    ensures r.Err? ==> r.error == HttpError(500, "Internal Server Error")
    ensures r.Ok? ==> forall k :: 0 <= k < |r.value| ==>
      && r.value[k] in books
      && exists i :: 0 <= i < |transactions| && Borrows(transactions[i], memberId)
                     && BorrowedBook(books, transactions[i]) == Some(r.value[k])
    ensures r.Ok? ==> forall i ::
      (0 <= i < |transactions| && Borrows(transactions[i], memberId) && BorrowedBook(books, transactions[i]).Some?)
      ==> BorrowedBook(books, transactions[i]).value in r.value
    decreases |transactions|
  {
    if transactions == [] then Ok([])
    else
      var init, t := transactions[..|transactions| - 1], transactions[|transactions| - 1];
      assert forall i :: 0 <= i < |init| ==> init[i] == transactions[i];
      match History(memberId, init, books)
      case Err(e) => Err(e)
      case Ok(h) =>
        if !Borrows(t, memberId) then Ok(h)
        else match BookRefOf(t)
          case Refused => Err(HttpError(500, "Internal Server Error"))
          case Fresh => Ok(h)
          case Named(id) =>
            match FindById(books, id)
            case Some(b) => Ok(h + [b])
            case None => Ok(h)
  }

  /** The history holds exactly the found books of the member's transactions,
      in transaction order. */
  lemma {:induction false} HistoryInOrder(memberId: string, transactions: seq<Doc>, books: seq<Doc>)
    ensures History(memberId, transactions, books).Ok? ==>
      History(memberId, transactions, books).value == FoundBooks(memberId, transactions, books)
    decreases |transactions|
  {
    if transactions != [] {
      var init, t := transactions[..|transactions| - 1], transactions[|transactions| - 1];
      HistoryInOrder(memberId, init, books);
      var found, book := FoundFor(memberId, books), BookOf(books);
      var kept := Filter(init, found);
      assert Filter(transactions, found) == if found(t) then kept + [t] else kept;
      assert found(t) == (Borrows(t, memberId) && BorrowedBook(books, t).Some?);
      if found(t) {
        assert book(t) == BorrowedBook(books, t).value;
        assert MapSeq(kept + [t], book) == MapSeq(kept, book) + [book(t)];
      }
    }
  }

  /** Once a transaction fails, the whole history fails. */
  lemma {:induction false} HistoryErrorPersists(memberId: string, transactions: seq<Doc>, books: seq<Doc>, i: nat)
    requires i <= |transactions|
    requires History(memberId, transactions[..i], books).Err?
    ensures History(memberId, transactions, books) == History(memberId, transactions[..i], books)
    decreases |transactions| - i
  {
    if i < |transactions| {
      assert transactions[..i + 1][..i] == transactions[..i];
      HistoryErrorPersists(memberId, transactions, books, i + 1);
    } else {
      assert transactions[..i] == transactions;
    }
  }

  /** `[b[field] for b in borrowed if field in b]`. */
  function FieldValues(docs: seq<Doc>, field: string): seq<Json> {
    MapSeq(Filter(docs, (d: Doc) => field in d), (d: Doc) => Get(d, field, JNull))
  }

  /** `{"$or": [{"category": {"$in": …}}, {"author": {"$in": …}}]}`; a missing
      field compares as null. */
  predicate Similar(d: Doc, categories: seq<Json>, authors: seq<Json>) {
    Get(d, "category", JNull) in categories || Get(d, "author", JNull) in authors
  }

  function IdsOf(docs: seq<Doc>): seq<string>
    requires AllStored(docs)
  {
    seq(|docs|, i requires 0 <= i < |docs| && AllStored(docs) => IdText(docs[i]["_id"]))
  }

  /** `find({"$or": …}).limit(10)`: the first ten similar books. */
  function SimilarHits(books: seq<Doc>, categories: seq<Json>, authors: seq<Json>): (r: seq<Doc>)
    requires AllStored(books)
    ensures |r| <= 10 && AllStored(r)
    ensures forall i :: 0 <= i < |r| ==> r[i] in books && Similar(r[i], categories, authors)
    ensures |r| < 10 ==> forall k :: 0 <= k < |books| && Similar(books[k], categories, authors) ==> books[k] in r
  {
    var similar := d => Similar(d, categories, authors);
    FilterKeeps(books, similar, Stored);
    Take(Filter(books, similar), 10)
  }

  /** `str(book["_id"]) not in [str(b["_id"]) for b in borrowed_books]`. */
  function Unborrowed(borrowedIds: seq<string>): Doc -> bool {
    d => "_id" in d && IdText(d["_id"]) !in borrowedIds
  }

  /** The cursor's books whose id is not among the borrowed ids, in cursor
      order, each with its id exposed. */
  function NotBorrowed(cursor: seq<Doc>, borrowedIds: seq<string>): (r: seq<Doc>)
    requires AllStored(cursor)
    ensures var kept := Filter(cursor, Unborrowed(borrowedIds));
      |r| == |kept| && forall i :: 0 <= i < |r| ==> Stored(kept[i]) && r[i] == Exposed(kept[i])
    ensures forall i :: 0 <= i < |r| ==> "id" in r[i] && r[i]["id"].JStr? && r[i]["id"].s !in borrowedIds
    decreases |cursor|
  {
    if cursor == [] then []
    else
      var init := NotBorrowed(cursor[..|cursor| - 1], borrowedIds);
      var last := cursor[|cursor| - 1];
      if IdText(last["_id"]) in borrowedIds then init else init + [Exposed(last)]
  }

  /** Looking at one more book of the cursor adds it, exposed, unless borrowed. */
  lemma NotBorrowedSnoc(cursor: seq<Doc>, j: nat, borrowedIds: seq<string>)
    requires j < |cursor| && AllStored(cursor)
    ensures AllStored(cursor[..j]) && AllStored(cursor[..j + 1])
    ensures NotBorrowed(cursor[..j + 1], borrowedIds)
      == NotBorrowed(cursor[..j], borrowedIds) + (if IdText(cursor[j]["_id"]) in borrowedIds then [] else [Exposed(cursor[j])])
  {
    assert cursor[..j + 1][..j] == cursor[..j];
  }

  /** Every book of the cursor that was not borrowed is recommended. */
  lemma {:induction false} NotBorrowedKeepsTheRest(cursor: seq<Doc>, borrowedIds: seq<string>, k: nat)
    requires AllStored(cursor) && k < |cursor| && IdText(cursor[k]["_id"]) !in borrowedIds
    ensures Exposed(cursor[k]) in NotBorrowed(cursor, borrowedIds)
    decreases |cursor|
  {
    if k < |cursor| - 1 {
      NotBorrowedKeepsTheRest(cursor[..|cursor| - 1], borrowedIds, k);
    }
  }

  /** `set(...)` can hold the value: a list or a dict cannot be hashed. */
  predicate Hashable(v: Json) {
    !v.JList? && !v.JDoc?
  }

  predicate AllHashable(vs: seq<Json>) {
    forall i :: 0 <= i < |vs| ==> Hashable(vs[i])
  }

  /** `list(set(...))` succeeds on the categories and on the authors of the
      borrowed books. */
  predicate HashableBasis(h: seq<Doc>) {
    AllHashable(FieldValues(h, "category")) && AllHashable(FieldValues(h, "author"))
  }

  /** A valid member id whose history is read without error and is not empty. */
  predicate HasHistory(memberId: string, transactions: seq<Doc>, books: seq<Doc>) {
    IsValidObjectId(memberId) && History(memberId, transactions, books).Ok?
    && History(memberId, transactions, books).value != []
  }

  /** What the service answers for a member: 400 for an id that is not an
      ObjectId, the history's error if a transaction is malformed, the popular
      books for an empty history, an internal error when a borrowed book's
      category or author cannot be put in a set, and otherwise the similar
      books not yet borrowed together with the categories and authors they
      were chosen by. */
  function Recommend(memberId: string, transactions: seq<Doc>, books: seq<Doc>): (r: Result<Recommendation>)
    requires AllStored(books)
    ensures !IsValidObjectId(memberId) ==> r == Err(HttpError(400, "Invalid member ID"))
    ensures IsValidObjectId(memberId) && History(memberId, transactions, books).Err? ==>
      r == Err(HttpError(500, "Internal Server Error"))
    ensures r == Ok(PopularFallback) <==>
      IsValidObjectId(memberId) && History(memberId, transactions, books) == Ok([])
    ensures HasHistory(memberId, transactions, books) ==>
      (r.Ok? <==> HashableBasis(History(memberId, transactions, books).value))
    ensures HasHistory(memberId, transactions, books) && r.Ok? ==> r.value.FromHistory?
    ensures HasHistory(memberId, transactions, books) && r.Err? ==>
      r.error == HttpError(500, "Internal Server Error")
    ensures r.Ok? && r.value.FromHistory? ==>
      var recs := r.value.recommendations;
      var h := History(memberId, transactions, books).value;
      && IsValidObjectId(memberId) && History(memberId, transactions, books).Ok? && h != []
      && AllStored(h)
      && |recs| <= 10
      && (forall i :: 0 <= i < |recs| ==> "id" in recs[i] && recs[i]["id"].JStr? && recs[i]["id"].s !in IdsOf(h))
      && r.value.categories == Distinct(FieldValues(h, "category"))
      && r.value.authors == Distinct(FieldValues(h, "author"))
      && recs == NotBorrowed(SimilarHits(books, r.value.categories, r.value.authors), IdsOf(h))
  {
    if !IsValidObjectId(memberId) then Err(HttpError(400, "Invalid member ID"))
    else match History(memberId, transactions, books)
      case Err(e) => Err(e)
      case Ok(h) =>
        if h == [] then Ok(PopularFallback)
        else if !HashableBasis(h) then Err(HttpError(500, "Internal Server Error"))
        else
          assert AllStored(h) by {
            forall k | 0 <= k < |h| ensures Stored(h[k]) { assert h[k] in books; }
          }
          var categories := Distinct(FieldValues(h, "category"));
          var authors := Distinct(FieldValues(h, "author"));
          Ok(FromHistory(NotBorrowed(SimilarHits(books, categories, authors), IdsOf(h)), categories, authors))
  }

  /** Where the recommendations come from: given the history's categories
      and authors and its borrowed ids, each recommendation is a book of the
      collection among the first ten sharing a category or an author, not
      borrowed, with its id exposed; and every such book is recommended. */
  lemma RecommendationsAreSimilarBooks(books: seq<Doc>, categories: seq<Json>, authors: seq<Json>,
                                       borrowedIds: seq<string>)
    requires AllStored(books)
    ensures var hits := SimilarHits(books, categories, authors);
      var recs := NotBorrowed(hits, borrowedIds);
      && (forall i :: 0 <= i < |recs| ==>
            exists k :: 0 <= k < |hits| && hits[k] in books && Similar(hits[k], categories, authors)
                        && IdText(hits[k]["_id"]) !in borrowedIds && recs[i] == Exposed(hits[k]))
      && (forall k :: 0 <= k < |hits| && IdText(hits[k]["_id"]) !in borrowedIds ==> Exposed(hits[k]) in recs)
  {
    var hits := SimilarHits(books, categories, authors);
    var recs := NotBorrowed(hits, borrowedIds);
    NotBorrowedFromCursor(hits, borrowedIds);
    forall i | 0 <= i < |recs|
      ensures exists k :: 0 <= k < |hits| && hits[k] in books && Similar(hits[k], categories, authors)
                          && IdText(hits[k]["_id"]) !in borrowedIds && recs[i] == Exposed(hits[k])
    {
      var k :| 0 <= k < |hits| && IdText(hits[k]["_id"]) !in borrowedIds && recs[i] == Exposed(hits[k]);
      assert hits[k] in books && Similar(hits[k], categories, authors);
    }
    forall k | 0 <= k < |hits| && IdText(hits[k]["_id"]) !in borrowedIds
      ensures Exposed(hits[k]) in recs
    {
      NotBorrowedKeepsTheRest(hits, borrowedIds, k);
    }
  }

  /** Each book `NotBorrowed` keeps is an unborrowed book of the cursor. */
  lemma NotBorrowedFromCursor(cursor: seq<Doc>, borrowedIds: seq<string>)
    requires AllStored(cursor)
    ensures var r := NotBorrowed(cursor, borrowedIds);
      forall i :: 0 <= i < |r| ==>
        exists k :: 0 <= k < |cursor| && IdText(cursor[k]["_id"]) !in borrowedIds && r[i] == Exposed(cursor[k])
  {
    var r := NotBorrowed(cursor, borrowedIds);
    var kept := Filter(cursor, Unborrowed(borrowedIds));
    forall i | 0 <= i < |r|
      ensures exists k :: 0 <= k < |cursor| && IdText(cursor[k]["_id"]) !in borrowedIds && r[i] == Exposed(cursor[k])
    {
      assert kept[i] in cursor && Unborrowed(borrowedIds)(kept[i]);
      var k :| 0 <= k < |cursor| && cursor[k] == kept[i];
      assert r[i] == Exposed(cursor[k]);
    }
  }

  /** The history loop: the member's transactions in collection order, each
      book looked up by its id; a malformed id ends the request. */
  method BorrowedBooks(memberId: string, transactions: seq<Doc>, books: seq<Doc>) returns (h: Result<seq<Doc>>)
    ensures h == History(memberId, transactions, books)
  {
    var borrowed: seq<Doc> := [];
    var i := 0;
    while i < |transactions|
      invariant 0 <= i <= |transactions|
      invariant History(memberId, transactions[..i], books) == Ok(borrowed)
    {
      var t := transactions[i];
      assert transactions[..i + 1][..i] == transactions[..i];
      if Borrows(t, memberId) {
        var ref := BookRefOf(t);
        if ref.Refused? {
          HistoryErrorPersists(memberId, transactions, books, i + 1);
          return Err(HttpError(500, "Internal Server Error"));
        }
        if ref.Named? {
          var found := FindById(books, ref.id);
          if found.Some? {
            borrowed := borrowed + [found.value];
          }
        }
      }
      i := i + 1;
    }
    assert transactions[..i] == transactions;
    h := Ok(borrowed);
  }

  /** The exclusion loop over the similar books. */
  method ExcludeBorrowed(cursor: seq<Doc>, borrowedIds: seq<string>) returns (recommendations: seq<Doc>)
    requires AllStored(cursor)
    ensures recommendations == NotBorrowed(cursor, borrowedIds)
  {
    recommendations := [];
    var j := 0;
    while j < |cursor|
      invariant 0 <= j <= |cursor|
      invariant recommendations == NotBorrowed(cursor[..j], borrowedIds)
    {
      NotBorrowedSnoc(cursor, j, borrowedIds);
      if IdText(cursor[j]["_id"]) !in borrowedIds {
        recommendations := recommendations + [Exposed(cursor[j])];
      }
      j := j + 1;
    }
    assert cursor[..j] == cursor;
  }

  /** Recommendations for a member, computed as the service does: the history
      transaction by transaction, then the similar books not yet borrowed. */
  method GetRecommendations(memberId: string, transactions: seq<Doc>, books: seq<Doc>)
    returns (r: Result<Recommendation>)
    requires AllStored(books)
    ensures r == Recommend(memberId, transactions, books)
  {
    if !IsValidObjectId(memberId) {
      return Err(HttpError(400, "Invalid member ID"));
    }
    var history := BorrowedBooks(memberId, transactions, books);
    if history.Err? {
      return Err(history.error);
    }
    var borrowed := history.value;
    if borrowed == [] {
      return Ok(PopularFallback);
    }
    if !HashableBasis(borrowed) {
      return Err(HttpError(500, "Internal Server Error"));
    }
    assert AllStored(borrowed) by {
      forall k | 0 <= k < |borrowed| ensures Stored(borrowed[k]) { assert borrowed[k] in books; }
    }
    var categories := Distinct(FieldValues(borrowed, "category"));
    var authors := Distinct(FieldValues(borrowed, "author"));
    var cursor := SimilarHits(books, categories, authors);
    var recommendations := ExcludeBorrowed(cursor, IdsOf(borrowed));
    r := Ok(FromHistory(recommendations, categories, authors));
  }
}
