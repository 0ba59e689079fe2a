/** `NewsSearchFilter`: the search box and the advanced-filter popover. Its
    handlers set five fields; searching projects them into search parameters,
    resetting clears them and asks for the unfiltered list. */
module NewsSearchFilter {
  import opened Js
  import opened Supabase

  /** A JavaScript `Date`, by its time value in milliseconds since the epoch. */
  datatype Date = Date(timeValue: int)

  /** The select's `onValueChange`: `value === 'all' ? null : value`. */
  function StoredSentiment(value: string): (s: Nullable<string>)
    ensures s == Null <==> value == "all"
    ensures s.Value? ==> s.value == value
  {
    if value == "all" then Null else Value(value)
  }

  /** The select's `value`: `sentiment || 'all'`. */
  function DisplayedSentiment(s: Nullable<string>): (v: string)
    ensures TruthyNullable(s) ==> v == s.value
    ensures !TruthyNullable(s) ==> v == "all"
  {
    if TruthyNullable(s) then s.value else "all"
  }

  /** The select shows what was chosen. */
  lemma ChoiceIsDisplayed(value: string)
    requires value != ""
    ensures DisplayedSentiment(StoredSentiment(value)) == value
  {
  }

  /** For what the select can store, it shows `'all'` exactly when the stored value is null,
      and choosing the shown value stores the same thing again. */
  lemma DisplayedAllIffNull(s: Nullable<string>)
    requires s != Value("all") && s != Value("")
    ensures DisplayedSentiment(s) == "all" <==> s == Null
    ensures StoredSentiment(DisplayedSentiment(s)) == s
  {
  }

  /** `date ? format(date, 'yyyy-MM-dd') : ''`, with the date-fns formatter as a parameter. */
  function DateParam(d: Nullable<Date>, format: Date -> string): (r: string)
    ensures d.Null? ==> r == ""
    ensures d.Value? ==> r == format(d.value)
  {
    match d
    case Null => ""
    case Value(date) => format(date)
  }

  class Form {
    var searchTerm: string
    var sentiment: Nullable<string>
    var startDate: Nullable<Date>
    var endDate: Nullable<Date>
    var isAdvancedFilterOpen: bool

    /** The select never stores the sentinel `'all'`. */
    ghost predicate Valid()
      reads this
    {
      sentiment != Value("all")
    }

    /** The state on mount: everything empty, popover closed. */
    constructor ()
      ensures Valid()
      ensures searchTerm == "" && sentiment == Null && startDate == Null && endDate == Null
      ensures !isAdvancedFilterOpen
    {
      searchTerm := "";
      sentiment := Null;
      startDate := Null;
      endDate := Null;
      isAdvancedFilterOpen := false;
    }

    /** The search box's `onChange`. */
    method SetSearchTerm(value: string)
      modifies this`searchTerm
      ensures searchTerm == value
    {
      searchTerm := value;
    }

    /** The sentiment select's `onValueChange`. */
    method SelectSentiment(value: string)
      modifies this`sentiment
      ensures Valid()
      ensures sentiment == StoredSentiment(value)
    {
      sentiment := StoredSentiment(value);
    }

    /** The start calendar's `onSelect`; the calendar may also clear the date. */
    method SelectStartDate(d: Nullable<Date>)
      modifies this`startDate
      ensures startDate == d
    {
      startDate := d;
    }

    /** The end calendar's `onSelect`; the calendar may also clear the date. */
    method SelectEndDate(d: Nullable<Date>)
      modifies this`endDate
      ensures endDate == d
    {
      endDate := d;
    }

    /** The popover's `onOpenChange`. */
    method SetAdvancedFilterOpen(open: bool)
      modifies this`isAdvancedFilterOpen
      ensures isAdvancedFilterOpen == open
    {
      isAdvancedFilterOpen := open;
    }

    /** The parameters `handleSearch` passes to `onSearch`: term and sentiment as they
        are, each date formatted or `''`, no limit or offset. */
    function HandleSearch(format: Date -> string): (p: ArticleSearchParams)
      reads this
      ensures p.limit == Undefined && p.offset == Undefined
      ensures p.searchTerm == Given(searchTerm) && p.sentiment == Given(sentiment)
      ensures p.startDate == Given(DateParam(startDate, format))
      ensures p.endDate == Given(DateParam(endDate, format))
    {
      ArticleSearchParams(Undefined, Undefined, Given(searchTerm), Given(sentiment),
                          Given(DateParam(startDate, format)), Given(DateParam(endDate, format)))
    }

    /** The "Aplicar filtros" button: search with the current fields, then close the popover. */
    method ApplyFilters(format: Date -> string) returns (p: ArticleSearchParams)
      modifies this`isAdvancedFilterOpen
      ensures p == HandleSearch(format)
      ensures !isAdvancedFilterOpen
    {
      p := HandleSearch(format);
      isAdvancedFilterOpen := false;
    }

    /** `handleReset`: clear the four filter fields and ask for `{}`. The popover stays as it is. */
    method HandleReset() returns (p: ArticleSearchParams)
      modifies this`searchTerm, this`sentiment, this`startDate, this`endDate
      ensures Valid()
      ensures searchTerm == "" && sentiment == Null && startDate == Null && endDate == Null
      ensures p == NoParams
    {
      searchTerm := "";
      sentiment := Null;
      startDate := Null;
      endDate := Null;
      p := NoParams;
    }
  }

  /** The query a search builds follows the form: a date filter for each date that is
      set (the formatter never yields `''`), the neutral filter for `'neutral'`, an
      equality filter for any other chosen non-empty value (the select never stores
      `'all'`), and the default page of rows 0 to 4. */
  lemma SearchQueryFollowsForm(f: Form, format: Date -> string)
    requires f.Valid()
    requires forall d :: format(d) != ""
    ensures var q := BuildQuery(f.HandleSearch(format));
      (forall v :: Gte(ArticleDate, v) in q.filters <==> f.startDate.Value? && v == format(f.startDate.value))
      && (forall v :: Lte(ArticleDate, v) in q.filters <==> f.endDate.Value? && v == format(f.endDate.value))
      && (NeutralFilter in q.filters <==> f.sentiment == Value("neutral"))
      && (forall v :: Eq(Sentiment, v) in q.filters <==>
            f.sentiment.Value? && f.sentiment.value != "" && f.sentiment.value != "neutral" && v == f.sentiment.value)
      && (SearchFilter(f.searchTerm) in q.filters <==> f.searchTerm != "" && !AllWhitespace(f.searchTerm))
      && q.from == 0 && q.to == 4
  {
    var p := f.HandleSearch(format);
    DateFilterRule(p);
    SentimentFilterRule(p);
    SearchFilterRule(p);
  }

  /** Searching with a cleared form asks for the same query as the reset's `{}`. */
  lemma ClearedFormMatchesReset(f: Form, format: Date -> string)
    requires f.searchTerm == "" && f.sentiment == Null && f.startDate == Null && f.endDate == Null
    ensures BuildQuery(f.HandleSearch(format)) == BuildQuery(NoParams)
  {
  }

  /** Resetting the form and fetching with what it emits gives a query with no filter. */
  method ResetThenBuildQuery(f: Form) returns (q: Query)
    modifies f
    ensures q.filters == [] && q.from == 0 && q.to == 4
    ensures f.searchTerm == "" && f.sentiment == Null && f.startDate == Null && f.endDate == Null
  {
    var p := f.HandleReset();
    q := BuildQuery(p);
    NoParamsQuery();
  }
}
