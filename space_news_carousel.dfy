/** `SpaceNewsCarousel`: loads the first page of articles once, shows one
    slide at a time, advances on a timer while autoplay is on, and stops
    autoplay for good on any manual navigation. */
module SpaceNewsCarousel {
  import opened Js
  import opened Supabase
  import opened Slides

  /** The slide record this component displays. */
  datatype NewsItem = NewsItem(
    id: string,
    date: string,
    title: string,
    text: string,
    source: Nullable<string>,
    mainImage: Nullable<string>)

  /** `mapArticleToNewsItem`; `formatDate` (the pt-BR long-date formatter) is a parameter. */
  function MapArticleToNewsItem(a: Article, formatDate: string -> string): (item: NewsItem)
    ensures item.id == a.id && item.title == a.title && item.text == a.articleText
    ensures item.source == a.sourceUrl && item.mainImage == a.mainImageUrl
    ensures item.date == formatDate(a.articleDate)
  {
    NewsItem(a.id, formatDate(a.articleDate), a.title, a.articleText, a.sourceUrl, a.mainImageUrl)
  }

  /** Tags, creation time and sentiment do not reach the slide: two articles that
      agree on the other fields give the same item. */
  lemma ProjectionIgnoresHiddenFields(a: Article, b: Article, formatDate: string -> string)
    requires a.id == b.id && a.title == b.title && a.articleText == b.articleText
    requires a.articleDate == b.articleDate && a.sourceUrl == b.sourceUrl && a.mainImageUrl == b.mainImageUrl
    ensures MapArticleToNewsItem(a, formatDate) == MapArticleToNewsItem(b, formatDate)
  {
  }

  /** `articles.map(mapArticleToNewsItem)`: one item per article, in the same order. */
  function MapArticles(articles: seq<Article>, formatDate: string -> string): (items: seq<NewsItem>)
    ensures |items| == |articles|
    ensures forall k :: 0 <= k < |articles| ==> items[k] == MapArticleToNewsItem(articles[k], formatDate)
  {
    seq(|articles|, k requires 0 <= k < |articles| => MapArticleToNewsItem(articles[k], formatDate))
  }

  const LoadErrorMessage := "Falha ao carregar as notícias. Tente novamente mais tarde."

  /** The autoplay period in milliseconds; the timer itself is not modelled, each tick is a call. */
  const AutoPlayPeriodMs := 20000

  /** What the component renders: a loading notice, the error, an empty notice, or a slide. */
  datatype Screen =
    | LoadingScreen
    | ErrorScreen(message: string)
    | EmptyScreen
    | SlideScreen(item: NewsItem, dots: nat, activeDot: nat, autoPlayIndicator: bool)

  class Carousel {
    var currentIndex: int
    var isAutoPlay: bool
    var news: seq<NewsItem>
    var isLoading: bool
    var error: Nullable<string>

    /** The index always names a slide (or is 0 while there is none); while the
        load is pending nothing has arrived, and a failed load leaves no news. */
    ghost predicate Valid()
      reads this
    {
      && 0 <= currentIndex
      && (|news| == 0 ==> currentIndex == 0)
      && (|news| > 0 ==> currentIndex < |news|)
      && (isLoading ==> news == [] && error == Null)
      && (error.Value? ==> news == [] && !isLoading)
    }

    /** The state on mount. */
    constructor ()
      ensures Valid()
      ensures currentIndex == 0 && isAutoPlay && news == [] && isLoading && error == Null
    {
      currentIndex := 0;
      isAutoPlay := true;
      news := [];
      isLoading := true;
      error := Null;
    }

    /** `loadArticles`: fetch with no parameters; on success show the mapped items,
        on a rejection show the error message; either way loading ends. */
    method LoadArticles(backend: Query -> Response, formatDate: string -> string)
      requires Valid() && isLoading
      modifies this`news, this`error, this`isLoading
      ensures Valid() && !isLoading
      ensures FetchArticles(NoParams, backend).Rejected? ==>
        error == Value(LoadErrorMessage) && news == []
      ensures FetchArticles(NoParams, backend).Resolved? ==>
        error == Null && news == MapArticles(FetchArticles(NoParams, backend).articles, formatDate)
    {
      match FetchArticles(NoParams, backend) {
        case Resolved(articles) =>
          news := MapArticles(articles, formatDate);
        case Rejected =>
          error := Value(LoadErrorMessage);
      }
      isLoading := false;
    }

    /** One firing of the autoplay interval. The interval exists only while autoplay
        is on and there are slides, so otherwise a tick changes nothing. */
    method Tick()
      requires Valid()
      modifies this`currentIndex
      ensures Valid()
      ensures isAutoPlay && |news| > 0 ==> currentIndex == NextIndex(old(currentIndex), |news|)
      ensures !(isAutoPlay && |news| > 0) ==> currentIndex == old(currentIndex)
    {
      if isAutoPlay && |news| > 0 {
        currentIndex := NextIndex(currentIndex, |news|);
      }
    }

    /** The "next" arrow; it is rendered only when there are slides. */
    method GoToNext()
      requires Valid() && |news| > 0
      modifies this`currentIndex, this`isAutoPlay
      ensures Valid()
      ensures currentIndex == NextIndex(old(currentIndex), |news|) && !isAutoPlay
    {
      currentIndex := NextIndex(currentIndex, |news|);
      isAutoPlay := false;
    }

    /** The "previous" arrow; it is rendered only when there are slides. */
    method GoToPrevious()
      requires Valid() && |news| > 0
      modifies this`currentIndex, this`isAutoPlay
      ensures Valid()
      ensures currentIndex == PrevIndex(old(currentIndex), |news|) && !isAutoPlay
    {
      currentIndex := PrevIndex(currentIndex, |news|);
      isAutoPlay := false;
    }

    /** A navigation dot; there is one per slide, so `index` names a slide. */
    method GoToSlide(index: int)
      requires Valid() && 0 <= index < |news|
      modifies this`currentIndex, this`isAutoPlay
      ensures Valid()
      ensures currentIndex == index && !isAutoPlay
    {
      currentIndex := index;
      isAutoPlay := false;
    }

    /** The early returns of the render, then the slide at the current index
        with one dot per item and the autoplay indicator. */
    function Screen(): (s: Screen)
      requires Valid()
      reads this
      ensures s.LoadingScreen? <==> isLoading
      ensures s.ErrorScreen? <==> !isLoading && error.Value?
      ensures s.SlideScreen? <==> !isLoading && error == Null && |news| > 0
      ensures s.ErrorScreen? ==> s.message == error.value
      ensures s.SlideScreen? ==>
        s.item == news[currentIndex] && s.dots == |news| && s.activeDot == currentIndex && s.autoPlayIndicator == isAutoPlay
    {
      if isLoading then LoadingScreen
      else if error.Value? then ErrorScreen(error.value)
      else if |news| == 0 then EmptyScreen
      else SlideScreen(news[currentIndex], |news|, currentIndex, isAutoPlay)
    }
  }

  /** Going forward and then back shows the same slide again, with autoplay off. */
  method NextThenPreviousRestoresSlide(c: Carousel)
    requires c.Valid() && |c.news| > 0
    modifies c`currentIndex, c`isAutoPlay
    ensures c.Valid() && c.currentIndex == old(c.currentIndex) && !c.isAutoPlay
    ensures old(c.Screen()).SlideScreen? && c.Screen() == old(c.Screen()).(autoPlayIndicator := false)
  {
    c.GoToNext();
    c.GoToPrevious();
    NextThenPrevious(old(c.currentIndex), |c.news|);
  }
}
