/** The article table's record type and `fetchArticles`, which turns a set of
    search parameters into a query description (table, ordering, filters,
    inclusive row range) and hands it to the backend. The backend itself is a
    function parameter: what its filters match is the managed service's business. */
module Supabase {
  import opened Js

  /** A row of the `articles` table. */
  datatype Article = Article(
    id: string,
    title: string,
    articleText: string,
    articleDate: string,
    sourceUrl: Nullable<string>,
    mainImageUrl: Nullable<string>,
    tags: Nullable<seq<string>>,
    createdAt: string,
    sentiment: Nullable<string>)

  /** `ArticleSearchParams`: every property may be left out. */
  datatype ArticleSearchParams = ArticleSearchParams(
    limit: Optional<int>,
    offset: Optional<int>,
    searchTerm: Optional<string>,
    sentiment: Optional<Nullable<string>>,
    startDate: Optional<string>,
    endDate: Optional<string>)

  /** The object literal `{}`. */
  const NoParams := ArticleSearchParams(Undefined, Undefined, Undefined, Undefined, Undefined, Undefined)

  /** The parameters after destructuring with their defaults. */
  datatype SearchArgs = SearchArgs(
    limit: int,
    offset: int,
    searchTerm: string,
    sentiment: Nullable<string>,
    startDate: string,
    endDate: string)

  const DefaultLimit := 5
  const DefaultOffset := 0

  function OrDefault<T>(o: Optional<T>, default: T): (r: T)
    ensures o.Given? ==> r == o.value
    ensures o.Undefined? ==> r == default
  {
    match o
    case Undefined => default
    case Given(v) => v
  }

  /** The destructuring pattern of `fetchArticles`: a default replaces only an
      absent property, so an explicit `sentiment: null` stays null. */
  function Resolve(p: ArticleSearchParams): SearchArgs {
    SearchArgs(
      OrDefault(p.limit, DefaultLimit),
      OrDefault(p.offset, DefaultOffset),
      OrDefault(p.searchTerm, ""),
      OrDefault(p.sentiment, Null),
      OrDefault(p.startDate, ""),
      OrDefault(p.endDate, ""))
  }

  /** Each property is defaulted on its own: an absent one takes its default
      (limit 5, offset 0, an empty term, a null sentiment, empty dates) and a
      given one is kept, whatever the other properties are. */
  lemma ResolveDefaults(p: ArticleSearchParams)
    ensures p.limit.Undefined? ==> Resolve(p).limit == 5
    ensures p.offset.Undefined? ==> Resolve(p).offset == 0
    ensures p.searchTerm.Undefined? ==> Resolve(p).searchTerm == ""
    ensures p.sentiment.Undefined? ==> Resolve(p).sentiment == Null
    ensures p.startDate.Undefined? ==> Resolve(p).startDate == ""
    ensures p.endDate.Undefined? ==> Resolve(p).endDate == ""
    ensures p.limit.Given? ==> Resolve(p).limit == p.limit.value
    ensures p.offset.Given? ==> Resolve(p).offset == p.offset.value
    ensures p.searchTerm.Given? ==> Resolve(p).searchTerm == p.searchTerm.value
    ensures p.sentiment.Given? ==> Resolve(p).sentiment == p.sentiment.value
    ensures p.startDate.Given? ==> Resolve(p).startDate == p.startDate.value
    ensures p.endDate.Given? ==> Resolve(p).endDate == p.endDate.value
  {
  }

  /** Calling with no properties gives limit 5, offset 0, an empty search term,
      a null sentiment and two empty dates. */
  lemma NoParamsDefaults()
    ensures Resolve(NoParams) == SearchArgs(5, 0, "", Null, "", "")
  {
    ResolveDefaults(NoParams);
  }

  // ---------------------------------------------------------------- queries

  datatype Column = Title | ArticleText | ArticleDate | CreatedAt | Sentiment

  datatype Order = Order(column: Column, ascending: bool)

  /** One condition inside an `or(...)` filter. */
  datatype Cond = ILike(column: Column, pattern: string) | IsNull(column: Column) | CondEq(column: Column, value: string)

  /** One filter call on the query builder: `or`, `eq`, `gte` or `lte`. */
  datatype Filter =
    | Or(conds: seq<Cond>)
    | Eq(column: Column, value: string)
    | Gte(column: Column, value: string)
    | Lte(column: Column, value: string)

  /** What `query.range(from, to)` is finally awaited on. */
  datatype Query = Query(table: string, columns: string, orders: seq<Order>, filters: seq<Filter>, from: int, to: int)

  /** Newest article date first, ties broken by newest creation time. */
  const NewestFirst := [Order(ArticleDate, false), Order(CreatedAt, false)]

  /** The search filter: the term (untrimmed) between `%` wildcards, on the title or the text. */
  function SearchFilter(term: string): Filter {
    Or([ILike(Title, "%" + term + "%"), ILike(ArticleText, "%" + term + "%")])
  }

  /** The neutral filter also admits articles whose sentiment is null. */
  const NeutralFilter := Or([IsNull(Sentiment), CondEq(Sentiment, "neutral")])

  /** `searchTerm && searchTerm.trim() !== ''`. */
  predicate HasSearchText(term: string) {
    Truthy(term) && Trim(term) != ""
  }

  /** The sentiment values that add an equality filter: truthy, neither `'neutral'` nor `'all'`. */
  predicate IsSentimentValue(s: Nullable<string>) {
    TruthyNullable(s) && s.value != "neutral" && s.value != "all"
  }

  function SearchFilters(term: string): (fs: seq<Filter>)
    ensures forall f :: f in fs <==> HasSearchText(term) && f == SearchFilter(term)
    ensures |fs| == Count(HasSearchText(term))
  {
    if HasSearchText(term) then [SearchFilter(term)] else []
  }

  function SentimentFilters(s: Nullable<string>): (fs: seq<Filter>)
    ensures forall f :: f in fs <==>
      (s == Value("neutral") && f == NeutralFilter) || (IsSentimentValue(s) && f == Eq(Sentiment, s.value))
    ensures |fs| == Count(s == Value("neutral")) + Count(IsSentimentValue(s))
  {
    if !TruthyNullable(s) then []
    else if s.value == "neutral" then [NeutralFilter]
    else if s.value != "all" then [Eq(Sentiment, s.value)]
    else []
  }

  function DateFilters(startDate: string, endDate: string): (fs: seq<Filter>)
    ensures forall f :: f in fs <==>
      (startDate != "" && f == Gte(ArticleDate, startDate)) || (endDate != "" && f == Lte(ArticleDate, endDate))
    ensures |fs| == Count(startDate != "") + Count(endDate != "")
  {
    (if Truthy(startDate) then [Gte(ArticleDate, startDate)] else []) +
    (if Truthy(endDate) then [Lte(ArticleDate, endDate)] else [])
  }

  function Count(b: bool): nat {
    if b then 1 else 0
  }

  /** The query `fetchArticles` builds for `p`, before it is sent: the filters
      are added in the order of the source's `if` statements. */
  function BuildQuery(p: ArticleSearchParams): (q: Query)
    ensures q.table == "articles" && q.columns == "*"
    ensures q.orders == NewestFirst
    ensures q.from == Resolve(p).offset && q.to - q.from + 1 == Resolve(p).limit
  {
    var a := Resolve(p);
    Query("articles", "*", NewestFirst,
          SearchFilters(a.searchTerm) + SentimentFilters(a.sentiment) + DateFilters(a.startDate, a.endDate),
          a.offset, a.offset + a.limit - 1)
  }

  /** The filters of a built query are those of the three rules, in order. */
  lemma FiltersOf(p: ArticleSearchParams)
    ensures var a := Resolve(p);
      forall f :: f in BuildQuery(p).filters <==>
        f in SearchFilters(a.searchTerm) || f in SentimentFilters(a.sentiment) || f in DateFilters(a.startDate, a.endDate)
  {
  }

  /** The search filter is present iff the term has a character that is not
      whitespace; the pattern holds the term as given, untrimmed. */
  lemma SearchFilterRule(p: ArticleSearchParams)
    ensures var t := Resolve(p).searchTerm;
      SearchFilter(t) in BuildQuery(p).filters <==> t != "" && !AllWhitespace(t)
    ensures forall f :: f in BuildQuery(p).filters && f.Or? && f != NeutralFilter ==>
      f == SearchFilter(Resolve(p).searchTerm)
  {
    var a := Resolve(p);
    var t := a.searchTerm;
    var search, sentiment, dates := SearchFilters(t), SentimentFilters(a.sentiment), DateFilters(a.startDate, a.endDate);
    assert BuildQuery(p).filters == search + sentiment + dates;
    var sf := SearchFilter(t);
    assert sf != NeutralFilter by { assert sf.conds[0] != NeutralFilter.conds[0]; }
    assert sf !in sentiment && sf !in dates;
    TrimEmptyIffAllWhitespace(t);
    assert HasSearchText(t) <==> t != "" && !AllWhitespace(t);
    forall f | f in BuildQuery(p).filters && f.Or? && f != NeutralFilter
      ensures f == sf
    {
      assert f in search + sentiment + dates;
      assert f !in sentiment && f !in dates;
    }
  }

  /** Sentiment: null, `''` and `'all'` add nothing; `'neutral'` adds "null or neutral";
      any other value adds an equality on that value. */
  lemma SentimentFilterRule(p: ArticleSearchParams)
    ensures var s := Resolve(p).sentiment;
      NeutralFilter in BuildQuery(p).filters <==> s == Value("neutral")
    ensures var s := Resolve(p).sentiment;
      forall v :: Eq(Sentiment, v) in BuildQuery(p).filters <==> IsSentimentValue(s) && s.value == v
    ensures forall f :: f in BuildQuery(p).filters ==> !f.Eq? || f.column == Sentiment
  {
    FiltersOf(p);
  }

  /** The start date adds `article_date >= start`, the end date `article_date <= end`,
      each when non-empty and independently of the other. */
  lemma DateFilterRule(p: ArticleSearchParams)
    ensures var d := Resolve(p).startDate;
      forall v :: Gte(ArticleDate, v) in BuildQuery(p).filters <==> d != "" && v == d
    ensures var d := Resolve(p).endDate;
      forall v :: Lte(ArticleDate, v) in BuildQuery(p).filters <==> d != "" && v == d
    ensures forall f :: f in BuildQuery(p).filters && (f.Gte? || f.Lte?) ==> f.column == ArticleDate
  {
    var a := Resolve(p);
    var search, sentiment, dates := SearchFilters(a.searchTerm), SentimentFilters(a.sentiment), DateFilters(a.startDate, a.endDate);
    assert BuildQuery(p).filters == search + sentiment + dates;
    assert forall f :: f in search || f in sentiment ==> !f.Gte? && !f.Lte?;
  }

  /** One filter per rule that applies, and no other. */
  lemma FilterCount(p: ArticleSearchParams)
    ensures var a := Resolve(p);
      |BuildQuery(p).filters| ==
        Count(HasSearchText(a.searchTerm)) + Count(a.sentiment == Value("neutral"))
        + Count(IsSentimentValue(a.sentiment)) + Count(a.startDate != "") + Count(a.endDate != "")
  {
  }

  /** The row positions an inclusive range `[lo, hi]` denotes. */
  function Positions(lo: int, hi: int): (s: set<int>)
    decreases hi - lo + 1
  {
    if hi < lo then {} else Positions(lo, hi - 1) + {hi}
  }

  lemma {:induction false} PositionsExactly(lo: int, hi: int)
    ensures forall i :: i in Positions(lo, hi) <==> lo <= i <= hi
    ensures |Positions(lo, hi)| == (if hi < lo then 0 else hi - lo + 1)
    decreases hi - lo + 1
  {
    if hi >= lo {
      PositionsExactly(lo, hi - 1);
      assert hi !in Positions(lo, hi - 1);
    }
  }

  /** For a positive limit the query covers exactly `limit` row positions, starting at `offset`. */
  lemma RangeCoversLimitRows(p: ArticleSearchParams)
    requires Resolve(p).limit >= 1
    ensures var q := BuildQuery(p); var a := Resolve(p);
      |Positions(q.from, q.to)| == a.limit &&
      forall i :: i in Positions(q.from, q.to) <==> a.offset <= i < a.offset + a.limit
  {
    var q := BuildQuery(p);
    PositionsExactly(q.from, q.to);
  }

  /** `fetchArticles({})`: no filter at all and rows 0 to 4. */
  lemma NoParamsQuery()
    ensures BuildQuery(NoParams).filters == []
    ensures BuildQuery(NoParams).from == 0 && BuildQuery(NoParams).to == 4
  {
  }

  /** The ordering does not depend on the parameters. */
  lemma OrderingIndependentOfParams(p: ArticleSearchParams, p': ArticleSearchParams)
    ensures BuildQuery(p).orders == BuildQuery(p').orders
  {
  }

  // ---------------------------------------------------------------- fetching

  /** What the awaited `query.range(...)` gives back: rows, an error object, or a rejection. */
  datatype Response = Data(rows: seq<Article>) | Error(message: string) | Threw

  /** The settled promise of `fetchArticles`. */
  datatype FetchOutcome = Resolved(articles: seq<Article>) | Rejected

  /** `fetchArticles(p)` against `backend`: an error object becomes the empty list;
      only a rejection of the request itself propagates. */
  function FetchArticles(p: ArticleSearchParams, backend: Query -> Response): (r: FetchOutcome)
    ensures backend(BuildQuery(p)).Error? ==> r == Resolved([])
    ensures backend(BuildQuery(p)).Data? ==> r == Resolved(backend(BuildQuery(p)).rows)
    ensures r.Rejected? <==> backend(BuildQuery(p)).Threw?
  {
    match backend(BuildQuery(p))
    case Data(rows) => Resolved(rows)
    case Error(_) => Resolved([])
    case Threw => Rejected
  }
}
