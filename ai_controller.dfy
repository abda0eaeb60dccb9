/** The assistant service: a keyword-rule chat with an in-memory conversation
    store, keyword dispatch of natural-language data questions, and the
    analytics summary with its insight guards. The collections are sequences
    of documents; the clock and the id generator are parameters. */
module AiController {
  import opened Common
  import opened Views
  import opened Documents

  // ---------------------------------------------------------------------------
  // Keyword rules
  // ---------------------------------------------------------------------------

  /** A rule fires when the text contains any of its keywords. */
  datatype Rule<T> = Rule(keywords: seq<string>, outcome: T)

  predicate Mentions(text: string, keywords: seq<string>) {
    exists i :: 0 <= i < |keywords| && Contains(text, keywords[i])
  }

  /** The outcome of the first rule that fires, or the default when none does. */
  function FirstMatch<T>(text: string, rules: seq<Rule<T>>, default: T): (r: T)
    decreases |rules|
  {
    if rules == [] then default
    else if Mentions(text, rules[0].keywords) then rules[0].outcome
    else FirstMatch(text, rules[1..], default)
  }

  /** Rule `i` decides when it fires and no earlier rule does. */
  lemma {:induction false} FirstMatchIsFirst<T>(text: string, rules: seq<Rule<T>>, default: T, i: nat)
    requires i < |rules| && Mentions(text, rules[i].keywords)
    requires forall j :: 0 <= j < i ==> !Mentions(text, rules[j].keywords)
    ensures FirstMatch(text, rules, default) == rules[i].outcome
    decreases i
  {
    if i > 0 {
      assert !Mentions(text, rules[0].keywords);
      FirstMatchIsFirst(text, rules[1..], default, i - 1);
    }
  }

  /** When no rule fires the default decides. */
  lemma {:induction false} FirstMatchNone<T>(text: string, rules: seq<Rule<T>>, default: T)
    requires forall j :: 0 <= j < |rules| ==> !Mentions(text, rules[j].keywords)
    ensures FirstMatch(text, rules, default) == default
    decreases |rules|
  {
    if rules != [] {
      assert !Mentions(text, rules[0].keywords);
      FirstMatchNone(text, rules[1..], default);
    }
  }

  // ---------------------------------------------------------------------------
  // Chat
  // ---------------------------------------------------------------------------

  datatype Topic = Hours | Borrowing | LateFees | Renewal | Membership | Searching | Help

  /** The rule order of the chat: the first topic whose keyword occurs wins. */
  const ChatRules: seq<Rule<Topic>> := [
    Rule(["hours", "open"], Hours),
    Rule(["borrow", "checkout"], Borrowing),
    Rule(["fine", "late"], LateFees),
    Rule(["renew"], Renewal),
    Rule(["membership"], Membership),
    Rule(["search", "find"], Searching)
  ]

  /** The `if`/`elif` chain on the lower-cased message. */
  function ChatTopic(message: string): Topic {
    var m := Lower(message);
    if Contains(m, "hours") || Contains(m, "open") then Hours
    else if Contains(m, "borrow") || Contains(m, "checkout") then Borrowing
    else if Contains(m, "fine") || Contains(m, "late") then LateFees
    else if Contains(m, "renew") then Renewal
    else if Contains(m, "membership") then Membership
    else if Contains(m, "search") || Contains(m, "find") then Searching
    else Help
  }

  function ReplyText(t: Topic): string {
    match t
    case Hours => "The library is open Monday-Friday: 9 AM - 8 PM, Saturday-Sunday: 10 AM - 6 PM."
    case Borrowing => "You can borrow up to 5 books for 14 days. Premium members can borrow up to 10 books."
    case LateFees => "Late fees are $5.00 per day. Please return books on time to avoid fines."
    case Renewal => "You can renew books online or at the library desk, provided there are no reservations."
    case Membership => "We offer Standard and Premium memberships. Visit our desk to sign up!"
    case Searching => "You can search for books using our advanced search feature. Try searching by title, author, or category."
    case Help => "I'm here to help! You can ask me about library hours, borrowing policies, fines, renewals, or how to search for books."
  }

  /** The chain is the rule table read in order on the lower-cased message. */
  lemma ChatTopicFollowsRules(message: string)
    ensures ChatTopic(message) == FirstMatch(Lower(message), ChatRules, Help)
  {
    var m := Lower(message);
    MentionsPair(m, "hours", "open");
    MentionsPair(m, "borrow", "checkout");
    MentionsPair(m, "fine", "late");
    MentionsSingle(m, "renew");
    MentionsSingle(m, "membership");
    MentionsPair(m, "search", "find");
    var rules := ChatRules;
    assert rules[1..] == ChatRules[1..];
    assert rules[1..][1..][1..][1..][1..][1..] == [];
  }

  lemma MentionsSingle(text: string, a: string)
    ensures Mentions(text, [a]) <==> Contains(text, a)
  {
    if Contains(text, a) {
      assert [a][0] == a;
    }
  }

  lemma MentionsPair(text: string, a: string, b: string)
    ensures Mentions(text, [a, b]) <==> Contains(text, a) || Contains(text, b)
  {
    if Contains(text, a) {
      assert [a, b][0] == a;
    }
    if Contains(text, b) {
      assert [a, b][1] == b;
    }
  }

  /** The reply ignores letter case, because the message is lower-cased first. */
  lemma ChatTopicIgnoresCase(message: string)
    ensures ChatTopic(Lower(message)) == ChatTopic(message)
  {
    LowerIdempotent(message);
  }

  /** `chat_data.conversation_id or str(uuid.uuid4())`: a missing or empty id
      is replaced by the fresh one. */
  function ConversationId(given: Option<string>, freshId: string): (id: string)
    ensures given.Some? && given.value != "" ==> id == given.value
    ensures given.None? || given.value == "" ==> id == freshId
  {
    if given.Some? && given.value != "" then given.value else freshId
  }

  /** One exchange of a conversation: the message as sent, the reply, the time. */
  datatype Exchange = Exchange(user: string, assistant: string, timestamp: int)

  function HistoryOf(conversations: map<string, seq<Exchange>>, id: string): seq<Exchange> {
    if id in conversations then conversations[id] else []
  }

  /** The store after recording one exchange: that conversation grows by exactly
      that exchange, created empty first if it was unknown, and every other
      conversation is as it was. */
  function Recorded(conversations: map<string, seq<Exchange>>, id: string, e: Exchange)
    : (r: map<string, seq<Exchange>>)
    ensures id in r && r[id] == HistoryOf(conversations, id) + [e]
    ensures forall k :: k != id ==> (k in r <==> k in conversations)
    ensures forall k :: k != id && k in conversations ==> r[k] == conversations[k]
  {
    conversations[id := HistoryOf(conversations, id) + [e]]
  }

  /** Recording appends: each exchange of a conversation stays where it was. */
  lemma RecordedKeepsHistory(conversations: map<string, seq<Exchange>>, id: string, e: Exchange, k: string)
    ensures HistoryOf(conversations, k) <= HistoryOf(Recorded(conversations, id, e), k)
    ensures |HistoryOf(Recorded(conversations, id, e), k)| ==
      |HistoryOf(conversations, k)| + (if k == id then 1 else 0)
  {
  }

  /** The module-level `conversations` dictionary. */
  class ConversationStore {
    var conversations: map<string, seq<Exchange>>

    constructor ()
      ensures conversations == map[]
    {
      conversations := map[];
    }

    /** Answers a message and records the exchange under the conversation id
        used, which is returned. */
    method ChatAssistant(message: string, conversationId: Option<string>, freshId: string, now: int)
      returns (response: string, usedId: string)
      modifies this`conversations
      ensures usedId == ConversationId(conversationId, freshId)
      ensures response == ReplyText(ChatTopic(message))
      ensures conversations == Recorded(old(conversations), usedId, Exchange(message, response, now))
    {
      usedId := ConversationId(conversationId, freshId);
      response := ReplyText(ChatTopic(message));
      var entry := Exchange(message, response, now);
      RecordedInTwoSteps(conversations, usedId, entry);
      if usedId !in conversations {
        conversations := conversations[usedId := []];
      }
      conversations := conversations[usedId := conversations[usedId] + [entry]];
    }
  }

  /** Creating the conversation when it is unknown and then appending to it
      records the exchange. */
  lemma RecordedInTwoSteps(conversations: map<string, seq<Exchange>>, id: string, e: Exchange)
    ensures var created := if id in conversations then conversations else conversations[id := []];
      created[id := created[id] + [e]] == Recorded(conversations, id, e)
  {
  }

  // ---------------------------------------------------------------------------
  // Data questions
  // ---------------------------------------------------------------------------

  datatype Intent = CountBooks | CountAvailable | CountOverdue | CountMembers | NotUnderstood

  const QueryRules: seq<Rule<Intent>> := [
    Rule(["how many books"], CountBooks),
    Rule(["available books"], CountAvailable),
    Rule(["overdue"], CountOverdue),
    Rule(["members"], CountMembers)
  ]

  function QueryIntent(query: string): Intent {
    var q := Lower(query);
    if Contains(q, "how many books") then CountBooks
    else if Contains(q, "available books") then CountAvailable
    else if Contains(q, "overdue") then CountOverdue
    else if Contains(q, "members") then CountMembers
    else NotUnderstood
  }

  /** The dispatch is the rule table read in order on the lower-cased query. */
  lemma QueryIntentFollowsRules(query: string)
    ensures QueryIntent(query) == FirstMatch(Lower(query), QueryRules, NotUnderstood)
  {
    var q := Lower(query);
    MentionsSingle(q, "how many books");
    MentionsSingle(q, "available books");
    MentionsSingle(q, "overdue");
    MentionsSingle(q, "members");
    var rules := QueryRules;
    assert rules[1..][1..][1..][1..] == [];
  }

  predicate InStock(d: Doc) {
    "available_copies" in d && d["available_copies"].JInt? && d["available_copies"].i > 0
  }

  /** `{"status": "borrowed", "due_date": {"$lt": now}}`. */
  predicate Overdue(t: Doc, now: int) {
    "status" in t && t["status"] == JStr("borrowed")
    && "due_date" in t && t["due_date"].JInt? && t["due_date"].i < now
  }

  datatype QueryAnswer = QueryAnswer(query: string, result: string, data: map<string, int>)

  /** The answer to a question: one count, chosen by the first phrase found,
      echoed with the question. */
  function QueryData(query: string, books: seq<Doc>, transactions: seq<Doc>, members: seq<Doc>, now: int)
    : (a: QueryAnswer)
    ensures a.query == query
    ensures a.data == map[] <==> QueryIntent(query) == NotUnderstood
    ensures QueryIntent(query) == CountBooks ==> a.data == map["total_books" := |books|]
    ensures QueryIntent(query) == CountAvailable ==> a.data == map["available_books" := Count(books, InStock)]
    ensures QueryIntent(query) == CountOverdue ==>
      a.data == map["overdue_count" := Count(transactions, t => Overdue(t, now))]
    ensures QueryIntent(query) == CountMembers ==> a.data == map["total_members" := |members|]
  {
    match QueryIntent(query)
    case CountBooks =>
      assert "total_books" in map["total_books" := |books|];
      QueryAnswer(query, "There are " + NatToString(|books|) + " books in the library.",
                  map["total_books" := |books|])
    case CountAvailable =>
      var available := Count(books, InStock);
      assert "available_books" in map["available_books" := available];
      QueryAnswer(query, "There are " + NatToString(available) + " books currently available.",
                  map["available_books" := available])
    case CountOverdue =>
      var overdue := Count(transactions, t => Overdue(t, now));
      assert "overdue_count" in map["overdue_count" := overdue];
      QueryAnswer(query, "There are " + NatToString(overdue) + " overdue transactions.",
                  map["overdue_count" := overdue])
    case CountMembers =>
      assert "total_members" in map["total_members" := |members|];
      QueryAnswer(query, "There are " + NatToString(|members|) + " registered members.",
                  map["total_members" := |members|])
    case NotUnderstood =>
      QueryAnswer(query, "I couldn't understand that query. Try asking about books, members, or overdue items.",
                  map[])
  }

  // ---------------------------------------------------------------------------
  // Analytics
  // ---------------------------------------------------------------------------

  /** `active_borrows / total_books * 100`, guarded: 0 for an empty collection. */
  function UtilizationRate(activeBorrows: nat, totalBooks: nat): (r: real)
    ensures r >= 0.0
    ensures totalBooks == 0 ==> r == 0.0
    ensures totalBooks > 0 ==> r * totalBooks as real == activeBorrows as real * 100.0
  {
    if totalBooks > 0 then activeBorrows as real / totalBooks as real * 100.0 else 0.0
  }

  const HighUtilization := "High book utilization! Consider expanding the collection."
  const LowUtilization := "Low book utilization. Consider marketing campaigns to increase borrowing."
  const LowAvailability := "Low book availability. Many books are currently borrowed."

  /** The insights: the utilization one (high above 70, low below 30, none in
      between), then the availability one when fewer than a fifth of the books
      are available. */
  function Insights(rate: real, availableBooks: nat, totalBooks: nat): (r: seq<string>)
    ensures |r| <= 2
    ensures HighUtilization in r <==> rate > 70.0
    ensures LowUtilization in r <==> rate < 30.0
    ensures !(HighUtilization in r && LowUtilization in r)
    ensures LowAvailability in r <==> (availableBooks as real) < totalBooks as real * 0.2
  {
    var utilization :=
      if rate > 70.0 then [HighUtilization]
      else if rate < 30.0 then [LowUtilization]
      else [];
    utilization + (if (availableBooks as real) < totalBooks as real * 0.2 then [LowAvailability] else [])
  }

  /** `$group` by category (a missing category groups as null). */
  function CategoryOf(d: Doc): Json {
    Get(d, "category", JNull)
  }

  function CategoryCount(books: seq<Doc>, c: Json): nat {
    Count(books, d => CategoryOf(d) == c)
  }

  /** A candidate with the largest count. */
  function MostCommon(candidates: seq<Json>, books: seq<Doc>): (r: Json)
    requires candidates != []
    ensures r in candidates
    ensures forall i :: 0 <= i < |candidates| ==> CategoryCount(books, candidates[i]) <= CategoryCount(books, r)
    decreases |candidates|
  {
    if |candidates| == 1 then candidates[0]
    else
      var rest := MostCommon(candidates[1..], books);
      if CategoryCount(books, candidates[0]) >= CategoryCount(books, rest) then candidates[0] else rest
  }

  /** The top group of `$sort: {count: -1}, $limit: 1`, or "N/A" without books. */
  function MostPopularCategory(books: seq<Doc>): (r: Json)
    ensures books == [] ==> r == JStr("N/A")
    ensures books != [] ==> r in MapSeq(books, CategoryOf)
    ensures forall i :: 0 <= i < |books| ==> CategoryCount(books, CategoryOf(books[i])) <= CategoryCount(books, r)
  {
    if books == [] then JStr("N/A")
    else
      var categories := MapSeq(books, CategoryOf);
      MostCommon(categories, books)
  }

  datatype Analytics = Analytics(
    totalBooks: nat,
    availableBooks: nat,
    utilizationRate: real,
    totalTransactions: nat,
    activeBorrows: nat,
    totalMembers: nat,
    mostPopularCategory: Json)

  datatype AnalyticsReport = AnalyticsReport(analytics: Analytics, insights: seq<string>, generatedAt: int)

  predicate Borrowed(t: Doc) {
    "status" in t && t["status"] == JStr("borrowed")
  }

  /** The analytics report: the collection sizes, the in-stock and borrowed
      counts, the rate they give, the most popular category and the insights
      the rate and the stock call for, stamped with the given time. */
  function GetAnalytics(books: seq<Doc>, transactions: seq<Doc>, members: seq<Doc>, now: int): (r: AnalyticsReport)
    ensures r.analytics.totalBooks == |books| && r.analytics.totalTransactions == |transactions|
    ensures r.analytics.totalMembers == |members| && r.generatedAt == now
    ensures r.analytics.availableBooks == Count(books, InStock) <= |books|
    ensures r.analytics.activeBorrows == Count(transactions, Borrowed) <= |transactions|
    ensures r.analytics.utilizationRate == UtilizationRate(r.analytics.activeBorrows, |books|)
    ensures HighUtilization in r.insights <==> r.analytics.utilizationRate > 70.0
    ensures LowUtilization in r.insights <==> r.analytics.utilizationRate < 30.0
    ensures LowAvailability in r.insights <==> (r.analytics.availableBooks as real) < |books| as real * 0.2
    ensures forall i :: 0 <= i < |books| ==>
      CategoryCount(books, CategoryOf(books[i])) <= CategoryCount(books, r.analytics.mostPopularCategory)
  {
    var totalBooks := |books|;
    var availableBooks := Count(books, InStock);
    var activeBorrows := Count(transactions, Borrowed);
    var rate := UtilizationRate(activeBorrows, totalBooks);
    AnalyticsReport(
      Analytics(totalBooks, availableBooks, rate, |transactions|, activeBorrows, |members|,
                MostPopularCategory(books)),
      Insights(rate, availableBooks, totalBooks),
      now)
  }

  /** An empty collection reads as unused, not as a division by zero: the rate
      is 0, the low-utilization insight is the only one, and the category is
      "N/A". */
  lemma EmptyLibraryAnalytics(transactions: seq<Doc>, members: seq<Doc>, now: int)
    ensures GetAnalytics([], transactions, members, now).analytics.utilizationRate == 0.0
    ensures GetAnalytics([], transactions, members, now).insights == [LowUtilization]
    ensures GetAnalytics([], transactions, members, now).analytics.mostPopularCategory == JStr("N/A")
  {
  }

  /** Counting from the collections: every available book and every active
      borrow is counted once, so neither count exceeds its collection. */
  lemma AnalyticsCountsBounded(books: seq<Doc>, transactions: seq<Doc>, members: seq<Doc>, now: int)
    ensures GetAnalytics(books, transactions, members, now).analytics.availableBooks
      <= GetAnalytics(books, transactions, members, now).analytics.totalBooks
    ensures GetAnalytics(books, transactions, members, now).analytics.activeBorrows
      <= GetAnalytics(books, transactions, members, now).analytics.totalTransactions
    ensures |GetAnalytics(books, transactions, members, now).insights| <= 2
  {
  }
}
