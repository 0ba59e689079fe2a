/** `NewsCarousel`: shows the current slide of news handed down by its parent,
    with a sentiment badge, the source's domain, manual navigation, an autoplay
    toggle and a progress bar that fills over one autoplay period. */
module NewsCarousel {
  import opened Js
  import opened Slides

  /** The slide record this component displays. */
  datatype NewsItem = NewsItem(
    id: string,
    date: string,
    title: string,
    text: string,
    source: Nullable<string>,
    mainImage: Nullable<string>,
    sentiment: Nullable<string>)

  // ---------------------------------------------------------------- domain of the source link

  const WwwPrefix := "www."

  predicate HasWwwPrefix(host: string) {
    |host| >= |WwwPrefix| && host[..|WwwPrefix|] == WwwPrefix
  }

  /** `host.replace(/^www\./, '')`: the anchored pattern matches at most once. */
  function StripWww(host: string): (r: string)
    ensures HasWwwPrefix(host) ==> WwwPrefix + r == host
    ensures !HasWwwPrefix(host) ==> r == host
  {
    if HasWwwPrefix(host) then host[|WwwPrefix|..] else host
  }

  /** Putting the prefix back in front of a stripped name gives the name without its first `www.`. */
  lemma StripWwwOnce(rest: string)
    ensures StripWww(WwwPrefix + rest) == rest
  {
    assert (WwwPrefix + rest)[..|WwwPrefix|] == WwwPrefix;
    assert (WwwPrefix + rest)[|WwwPrefix|..] == rest;
  }

  /** Only one leading `www.` goes: `www.www.x` becomes `www.x`. */
  lemma StripWwwDoubled()
    ensures StripWww("www.www.x") == "www.x"
  {
    StripWwwOnce("www.x");
  }

  /** What `new URL(url).hostname` gives: a host name, or a thrown error for an invalid URL. */
  datatype UrlParse = Host(hostname: string) | InvalidUrl

  /** `getDomainFromUrl`; URL parsing is the parameter `parse`. */
  function GetDomainFromUrl(url: Nullable<string>, parse: string -> UrlParse): (r: string)
    ensures !TruthyNullable(url) ==> r == ""
    ensures TruthyNullable(url) && parse(url.value).InvalidUrl? ==> r == ""
    ensures TruthyNullable(url) && parse(url.value).Host? ==> r == StripWww(parse(url.value).hostname)
  {
    if !TruthyNullable(url) then ""
    else match parse(url.value)
      case Host(h) => StripWww(h)
      case InvalidUrl => ""
  }

  // ---------------------------------------------------------------- sentiment badge

  datatype Tone = Good | Bad | Plain

  datatype Badge = Badge(caption: string, tone: Tone)

  /** `sentiment && sentiment !== 'neutral'`. */
  predicate BadgeShown(sentiment: Nullable<string>) {
    TruthyNullable(sentiment) && sentiment.value != "neutral"
  }

  /** The badge above the title, or `Null` when none is rendered. */
  function SentimentBadge(sentiment: Nullable<string>): (b: Nullable<Badge>)
    ensures b.Value? <==> BadgeShown(sentiment)
    ensures sentiment == Value("positive") ==> b == Value(Badge("Boa notícia", Good))
    ensures sentiment == Value("negative") ==> b == Value(Badge("Má notícia", Bad))
    ensures b.Value? && sentiment != Value("positive") && sentiment != Value("negative") ==>
      b == Value(Badge("", Plain))
  {
    if !BadgeShown(sentiment) then Null
    else if sentiment.value == "positive" then Value(Badge("Boa notícia", Good))
    else if sentiment.value == "negative" then Value(Badge("Má notícia", Bad))
    else Value(Badge("", Plain))
  }

  /** A rendered badge has a non-empty label exactly for the two known sentiments. */
  lemma BadgeLabelled(sentiment: Nullable<string>)
    ensures (SentimentBadge(sentiment).Value? && SentimentBadge(sentiment).value.caption != "") <==>
      sentiment == Value("positive") || sentiment == Value("negative")
  {
  }

  // ---------------------------------------------------------------- progress bar

  /** One autoplay period, in milliseconds. */
  const Duration := 20000

  /** `Math.min((elapsed / duration) * 100, 100)`, in percent. */
  function ProgressPercent(elapsed: int): (r: real)
    ensures elapsed >= 0 ==> 0.0 <= r <= 100.0
    ensures r == 100.0 <==> elapsed >= Duration
    ensures elapsed < Duration ==> r < 100.0
  {
    var fraction := elapsed as real / Duration as real * 100.0;
    if fraction < 100.0 then fraction else 100.0
  }

  /** The bar never moves backwards while time passes. */
  lemma ProgressMonotone(earlier: int, later: int)
    requires earlier <= later
    ensures ProgressPercent(earlier) <= ProgressPercent(later)
  {
  }

  // ---------------------------------------------------------------- the component

  /** The component's state. `news`, `currentIndex` and `isAutoPlay` are owned by
      the parent and changed through its setters; `progress` is local, and
      `frameScheduled` says whether an animation frame request is outstanding. */
  class Carousel {
    const news: seq<NewsItem>
    var currentIndex: int
    var isAutoPlay: bool
    var progress: real
    var frameScheduled: bool

    /** The progress effect animates only while autoplay is on and there is news. */
    predicate Animating()
      reads this
    {
      isAutoPlay && |news| > 0
    }

    /** The index names a slide; when not animating the bar is empty and no frame
        is pending; when animating a frame is pending exactly until the bar is full. */
    ghost predicate Valid()
      reads this
    {
      && (|news| > 0 ==> 0 <= currentIndex < |news|)
      && 0.0 <= progress <= 100.0
      && (Animating() ==> (frameScheduled <==> progress < 100.0))
      && (!Animating() ==> progress == 0.0 && !frameScheduled)
    }

    /** Mounting with the parent's props runs the effect once. */
    constructor (news: seq<NewsItem>, currentIndex: int, isAutoPlay: bool)
      requires |news| > 0 ==> 0 <= currentIndex < |news|
      ensures Valid()
      ensures this.news == news && this.currentIndex == currentIndex && this.isAutoPlay == isAutoPlay
      ensures progress == 0.0 && frameScheduled == (isAutoPlay && |news| > 0)
    {
      this.news := news;
      this.currentIndex := currentIndex;
      this.isAutoPlay := isAutoPlay;
      progress := 0.0;
      frameScheduled := isAutoPlay && |news| > 0;
    }

    /** A change of `isAutoPlay` or `currentIndex`: the old effect's cleanup cancels
        its frame and empties the bar, then the new effect either empties the bar
        or requests the first frame of a fresh period. */
    method RerunEffect()
      requires |news| > 0 ==> 0 <= currentIndex < |news|
      modifies this`progress, this`frameScheduled
      ensures Valid()
      ensures progress == 0.0 && frameScheduled == Animating()
    {
      progress := 0.0;
      frameScheduled := false;
      if Animating() {
        frameScheduled := true;
      }
    }

    /** `animate`, run `elapsed` milliseconds after the effect started: set the bar
        and request another frame only while the period is not over. */
    method Frame(elapsed: int)
      requires Valid() && frameScheduled && elapsed >= 0
      modifies this`progress, this`frameScheduled
      ensures Valid()
      ensures progress == ProgressPercent(elapsed)
      ensures frameScheduled <==> elapsed < Duration
    {
      progress := ProgressPercent(elapsed);
      frameScheduled := elapsed < Duration;
    }

    /** The "previous" arrow; rendered only when there is news. */
    method GoToPrevious()
      requires Valid() && |news| > 0
      modifies this`currentIndex, this`isAutoPlay, this`progress, this`frameScheduled
      ensures Valid()
      ensures currentIndex == PrevIndex(old(currentIndex), |news|) && !isAutoPlay
      ensures progress == 0.0 && !frameScheduled
    {
      currentIndex := PrevIndex(currentIndex, |news|);
      isAutoPlay := false;
      RerunEffect();
    }

    /** The "next" arrow; rendered only when there is news. */
    method GoToNext()
      requires Valid() && |news| > 0
      modifies this`currentIndex, this`isAutoPlay, this`progress, this`frameScheduled
      ensures Valid()
      ensures currentIndex == NextIndex(old(currentIndex), |news|) && !isAutoPlay
      ensures progress == 0.0 && !frameScheduled
    {
      currentIndex := NextIndex(currentIndex, |news|);
      isAutoPlay := false;
      RerunEffect();
    }

    /** A navigation dot; there is one per slide. */
    method GoToSlide(index: int)
      requires Valid() && 0 <= index < |news|
      modifies this`currentIndex, this`isAutoPlay, this`progress, this`frameScheduled
      ensures Valid()
      ensures currentIndex == index && !isAutoPlay
      ensures progress == 0.0 && !frameScheduled
    {
      currentIndex := index;
      isAutoPlay := false;
      RerunEffect();
    }

    /** The play/pause button: flips autoplay and restarts the bar from empty. */
    method ToggleAutoPlay()
      requires Valid()
      modifies this`isAutoPlay, this`progress, this`frameScheduled
      ensures Valid()
      ensures isAutoPlay == !old(isAutoPlay)
      ensures progress == 0.0 && frameScheduled == Animating()
    {
      isAutoPlay := !isAutoPlay;
      RerunEffect();
    }

    /** Unmounting runs the cleanup: the pending frame is cancelled and the bar emptied. */
    method Unmount()
      modifies this`progress, this`frameScheduled
      ensures progress == 0.0 && !frameScheduled
    {
      progress := 0.0;
      frameScheduled := false;
    }
  }

  /** Pressing the toggle twice gives autoplay back its old value, with the bar restarted. */
  method ToggleTwice(c: Carousel)
    requires c.Valid()
    modifies c
    ensures c.Valid()
    ensures c.isAutoPlay == old(c.isAutoPlay) && c.currentIndex == old(c.currentIndex)
    ensures c.progress == 0.0
  {
    c.ToggleAutoPlay();
    c.ToggleAutoPlay();
  }
}
