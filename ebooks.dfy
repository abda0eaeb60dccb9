/** The e-books catalogue page: a filtered view, the category options, the
    summary cards and the per-book buttons. */
module EBooks {
  import opened Common
  import opened Views

  datatype EBook = EBook(
    id: int,
    title: string,
    author: string,
    category: string,
    downloads: int,
    availableCopies: int,
    isFeatured: bool)

  predicate EBookMatches(e: EBook, query: string, category: string) {
    (ContainsFolded(e.title, query) || ContainsFolded(e.author, query) || ContainsFolded(e.category, query))
    && (category == "All" || e.category == category)
  }

  function FilteredEBooks(ebooks: seq<EBook>, query: string, category: string): seq<EBook> {
    Filter(ebooks, e => EBookMatches(e, query, category))
  }

  /** The view is an order-preserving subsequence: a shown e-book has the folded
      query in its title, author or category, and the selected category unless
      the selection is 'All'; every such e-book is shown. */
  lemma FilteredEBooksSpec(ebooks: seq<EBook>, query: string, category: string)
    ensures IsSubsequence(FilteredEBooks(ebooks, query, category), ebooks)
    ensures forall e :: e in FilteredEBooks(ebooks, query, category) <==>
      e in ebooks
      && (ContainsFolded(e.title, query) || ContainsFolded(e.author, query) || ContainsFolded(e.category, query))
      && (category == "All" || e.category == category)
  {
    FilterIsSubsequence(ebooks, e => EBookMatches(e, query, category));
  }

  /** The empty query with 'All' shows the whole catalogue. */
  lemma FilteredEBooksIdentity(ebooks: seq<EBook>)
    ensures FilteredEBooks(ebooks, "", "All") == ebooks
  {
    forall i | 0 <= i < |ebooks|
      ensures EBookMatches(ebooks[i], "", "All")
    {
      ContainsEmpty(Lower(ebooks[i].title));
    }
    FilterKeepsAll(ebooks, e => EBookMatches(e, "", "All"));
  }

  function Categories(ebooks: seq<EBook>): seq<string> {
    ["All"] + Distinct(MapSeq(ebooks, (e: EBook) => e.category))
  }

  /** 'All' first, then every category once, in order of first occurrence. */
  lemma CategoriesSpec(ebooks: seq<EBook>)
    ensures Categories(ebooks)[0] == "All"
    ensures NoDup(Categories(ebooks)[1..])
    ensures IsSubsequence(Categories(ebooks)[1..], MapSeq(ebooks, (e: EBook) => e.category))
    ensures forall c :: c in Categories(ebooks)[1..] <==> exists e :: e in ebooks && e.category == c
  {
    var cs := MapSeq(ebooks, (e: EBook) => e.category);
    DistinctIsSubsequence(cs);
    assert Categories(ebooks)[1..] == Distinct(cs);
    forall c | c in Distinct(cs)
      ensures exists e :: e in ebooks && e.category == c
    {
      var k :| 0 <= k < |cs| && cs[k] == c;
      assert ebooks[k] in ebooks;
    }
    forall e | e in ebooks
      ensures e.category in Distinct(cs)
    {
      var k :| 0 <= k < |ebooks| && ebooks[k] == e;
      assert cs[k] == e.category;
    }
  }

  function TotalEBooks(ebooks: seq<EBook>): nat { |ebooks| }
  function TotalDownloads(ebooks: seq<EBook>): int { Sum(ebooks, (e: EBook) => e.downloads) }
  function AvailableEBooks(ebooks: seq<EBook>): nat { Count(ebooks, (e: EBook) => e.availableCopies > 0) }
  function FeaturedEBooks(ebooks: seq<EBook>): nat { Count(ebooks, (e: EBook) => e.isFeatured) }

  /** The download card is taken over the whole catalogue: it is what the
      current view holds plus what the filter hides. */
  lemma DownloadsSplitByView(ebooks: seq<EBook>, query: string, category: string)
    ensures TotalDownloads(ebooks)
         == TotalDownloads(FilteredEBooks(ebooks, query, category))
          + TotalDownloads(Filter(ebooks, e => !EBookMatches(e, query, category)))
  {
    SumPartition(ebooks, e => EBookMatches(e, query, category), e => !EBookMatches(e, query, category),
                 (e: EBook) => e.downloads);
  }

  /** The available and featured cards never exceed the total card. */
  lemma CardsBounded(ebooks: seq<EBook>)
    ensures AvailableEBooks(ebooks) <= TotalEBooks(ebooks)
    ensures FeaturedEBooks(ebooks) <= TotalEBooks(ebooks)
  {
  }

  /** The download button: disabled exactly when no copy is available; labelled
      "Download" when a copy is available and "Unavailable" otherwise. */
  datatype DownloadControl = DownloadControl(disabled: bool, caption: string)

  function DownloadButton(e: EBook): (c: DownloadControl)
    ensures c.disabled <==> e.availableCopies == 0
    ensures c.caption == "Download" <==> e.availableCopies > 0
  {
    DownloadControl(e.availableCopies == 0, if e.availableCopies > 0 then "Download" else "Unavailable")
  }

  /** For the catalogue's non-negative copy counts the label and the disabled
      state agree. */
  lemma DownloadLabelAgrees(e: EBook)
    requires e.availableCopies >= 0
    ensures DownloadButton(e).disabled <==> DownloadButton(e).caption == "Unavailable"
  {
  }

  /** What a per-book button reports; the title is absent when no e-book has the id. */
  datatype ActionNotice =
    | StartingDownload(title: Option<string>)
    | OpeningPreview(title: Option<string>)
    | Editing(title: Option<string>)

  function FindEBook(ebooks: seq<EBook>, id: int): (r: Option<EBook>)
    ensures r.Some? ==> r.value in ebooks && r.value.id == id
    ensures r.None? ==> forall e :: e in ebooks ==> e.id != id
  {
    if ebooks == [] then None
    else if ebooks[0].id == id then Some(ebooks[0])
    else FindEBook(ebooks[1..], id)
  }

  function HandleAction(ebooks: seq<EBook>, action: string, id: int): (n: Option<ActionNotice>)
    ensures n.None? <==> action !in {"download", "preview", "edit"}
    ensures n.Some? ==> n.value.title == (match FindEBook(ebooks, id) case Some(e) => Some(e.title) case None => None)
  {
    var title := match FindEBook(ebooks, id) case Some(e) => Some(e.title) case None => None;
    if action == "download" then Some(StartingDownload(title))
    else if action == "preview" then Some(OpeningPreview(title))
    else if action == "edit" then Some(Editing(title))
    else None
  }
}
