# Space News Portal — a Dafny model of its query building and carousel state

The portal is a browser front end that reads news articles from a hosted
table and shows them as an auto-advancing slideshow or a filterable list.
This project models the parts of it that carry logic:

- `fetchArticles` (module `Supabase`, file `supabase.dfy`): how search
  parameters, with their defaults, become a query description: the table,
  the fixed ordering (newest `article_date`, then newest `created_at`), one
  filter per applicable rule (search term, sentiment, start date, end date)
  and the inclusive row range `[offset, offset + limit - 1]`. The hosted
  backend is a function parameter `Query -> Response`. Its error object
  becomes the empty list; only a rejected request propagates.
- `SpaceNewsCarousel` (module `SpaceNewsCarousel`, class `Carousel`): the
  one-time load, the autoplay tick, next, previous and go-to-slide, the
  choice of screen, and the `Article`-to-slide projection. The object
  invariant keeps the index on a slide.
- `NewsCarousel` (module `NewsCarousel`, class `Carousel`): the same
  navigation, the autoplay toggle and the progress bar. The progress effect
  is modelled as explicit frame calls carrying the elapsed milliseconds. The
  invariant is that a frame is pending exactly while autoplay runs and the
  bar is not full. Also modelled: the sentiment badge and the `www.`
  stripping of the source link's domain.
- `NewsSearchFilter` (module `NewsSearchFilter`, class `Form`): the five
  form fields, their handlers, the parameters a search emits, and reset.
  Lemmas compose these with `fetchArticles`: after a reset the query has no
  filter, and a search with a cleared form builds that same query.

Two helper modules: `Js` (`js.dfy`) holds the JavaScript semantics the code
relies on. That is `null` versus an absent property, the truthiness of
strings, `String.prototype.trim` with ECMAScript's whitespace set, and the
truncating `%`. `Slides` (`slides.dfy`) holds the index arithmetic both
carousels share.

Two behaviours of the code worth knowing:
- The sentiment filter is not limited to three values. `'neutral'` adds the
  neutral-or-null filter, `'all'` and a missing, null or empty sentiment add
  nothing, and any other value adds an equality filter. Because an empty
  string is falsy, `''` is treated like null, and it also hides the
  sentiment badge.
- No modelled file clamps the slide index when the news changes, so the
  navigation handlers require an index that names a slide.

## Model

| member | source | states |
|---|---|---|
| `Js.TrimEmptyIffAllWhitespace` | src/lib/supabase.ts:45 | `term.trim()` is empty exactly when every character is white space or a line terminator |
| `Js.TrimStart` | src/lib/supabase.ts:45 | trimming the start leaves the longest suffix with no leading white space; all removed characters are white space |
| `Js.TrimEnd` | src/lib/supabase.ts:45 | trimming the end leaves the longest prefix with no trailing white space; all removed characters are white space |
| `Js.Rem` | src/components/SpaceNewsCarousel.tsx:75 | JavaScript `%`: `a == trunc(a/n)*n + r`, `abs(r) < n`, and `r` has the sign of `a` |
| `Supabase.ResolveDefaults` | src/lib/supabase.ts:30-37 | each omitted property defaults on its own (limit 5, offset 0, term `''`, sentiment null, both dates `''`) and each given property, including an explicit null sentiment, is kept |
| `Supabase.NoParamsDefaults` | src/lib/supabase.ts:30-37 | called with `{}`, every property takes its default |
| `Supabase.BuildQuery` | src/lib/supabase.ts:38-42 | the query reads `*` from `articles`, ordered by `article_date` then `created_at`, both descending; `from` is the offset and the inclusive range holds `limit` positions |
| `Supabase.OrderingIndependentOfParams` | src/lib/supabase.ts:38-42 | the ordering is the same whatever the parameters |
| `Supabase.SearchFilterRule` | src/lib/supabase.ts:44-47 | the title-or-text pattern `%term%` is present iff the term is not empty and not all white space; the pattern uses the untrimmed term; it is the only `or` filter besides the neutral one |
| `Supabase.SentimentFilterRule` | src/lib/supabase.ts:49-57 | `'neutral'` adds "sentiment is null or neutral"; null, `''` and `'all'` add nothing; any other value `v` adds `sentiment = v` and nothing else; every equality filter is on sentiment |
| `Supabase.DateFilterRule` | src/lib/supabase.ts:59-68 | a non-empty start date adds exactly `article_date >= start`, a non-empty end date exactly `article_date <= end`, each independently |
| `Supabase.FilterCount` | src/lib/supabase.ts:44-68 | there is one filter per rule that applies and no other |
| `Supabase.SearchFilters` | src/lib/supabase.ts:45-47 | the search step adds the pattern filter iff `searchTerm && searchTerm.trim() !== ''` |
| `Supabase.SentimentFilters` | src/lib/supabase.ts:50-57 | the sentiment step adds the neutral-or-null filter or one equality; what it adds depends on the sentiment value as above |
| `Supabase.DateFilters` | src/lib/supabase.ts:60-68 | the date steps add `gte` then `lte`, each iff its date is truthy |
| `Supabase.PositionsExactly` | src/lib/supabase.ts:74 | the inclusive range `[lo, hi]` is the set of integers from `lo` to `hi`, of size `hi - lo + 1` (0 when `hi < lo`) |
| `Supabase.RangeCoversLimitRows` | src/lib/supabase.ts:74 | for `limit >= 1` the range covers exactly `limit` row positions, `offset` to `offset + limit - 1` |
| `Supabase.NoParamsQuery` | src/lib/supabase.ts:30-74 | `fetchArticles({})` sends no filter and asks for rows 0 to 4 |
| `Supabase.FetchArticles` | src/lib/supabase.ts:74-81 | a backend error object yields the empty list; rows are returned as received; only a rejected request rejects |
| `Slides.NextIndex` | src/components/SpaceNewsCarousel.tsx:74-77 | `(i+1) % n` stays in `[0, n)` and wraps from the last slide to the first |
| `Slides.PrevIndex` | src/components/SpaceNewsCarousel.tsx:79-82 | `(i-1+n) % n` stays in `[0, n)` and wraps from slide 0 to `n-1` |
| `Slides.NextThenPrevious` | src/components/SpaceNewsCarousel.tsx:74-82 | next then previous returns to the starting slide |
| `Slides.PreviousThenNext` | src/components/NewsCarousel.tsx:78-86 | previous then next returns to the starting slide |
| `Slides.AdvanceIsModular` | src/components/SpaceNewsCarousel.tsx:67-69 | after `k` autoplay ticks from slide `i` the carousel shows slide `(i+k) mod n` |
| `Slides.FullCycle` | src/components/SpaceNewsCarousel.tsx:67-69 | `n` ticks bring the carousel back to where it started |
| `SpaceNewsCarousel.MapArticleToNewsItem` | src/components/SpaceNewsCarousel.tsx:29-36 | id, title, text, source and image are copied unchanged; only the date goes through `formatDate` |
| `SpaceNewsCarousel.ProjectionIgnoresHiddenFields` | src/components/SpaceNewsCarousel.tsx:29-36 | tags, creation time and sentiment do not affect the slide |
| `SpaceNewsCarousel.MapArticles` | src/components/SpaceNewsCarousel.tsx:50 | one slide per article, in the same order |
| `SpaceNewsCarousel.Carousel.constructor` | src/components/SpaceNewsCarousel.tsx:39-43 | the initial state: index 0, autoplay on, no news, loading, no error |
| `SpaceNewsCarousel.Carousel.LoadArticles` | src/components/SpaceNewsCarousel.tsx:46-61 | loading ends either way; success shows the mapped articles of `fetchArticles()`; only a rejection sets the error message; the index stays valid |
| `SpaceNewsCarousel.Carousel.Tick` | src/components/SpaceNewsCarousel.tsx:64-72 | a tick moves to `(i+1) mod n` only while autoplay is on and there are slides; it never touches autoplay |
| `SpaceNewsCarousel.Carousel.GoToNext` | src/components/SpaceNewsCarousel.tsx:74-77 | the index becomes `(i+1) mod n`, autoplay goes off, the index stays on a slide |
| `SpaceNewsCarousel.Carousel.GoToPrevious` | src/components/SpaceNewsCarousel.tsx:79-82 | the index becomes `(i-1+n) mod n`, autoplay goes off, the index stays on a slide |
| `SpaceNewsCarousel.Carousel.GoToSlide` | src/components/SpaceNewsCarousel.tsx:84-87 | a dot `k` (one per slide) selects slide `k` and turns autoplay off |
| `SpaceNewsCarousel.Carousel.Screen` | src/components/SpaceNewsCarousel.tsx:89-172 | loading, then the error, then the empty notice take precedence; the error screen shows the stored message; otherwise the slide at the current index is shown with one dot per item, the current one highlighted |
| `SpaceNewsCarousel.NextThenPreviousRestoresSlide` | src/components/SpaceNewsCarousel.tsx:74-82 | pressing next and then previous changes only the index and autoplay, and renders the original screen with the autoplay indicator off |
| `NewsCarousel.StripWww` | src/components/NewsCarousel.tsx:32 | `/^www\./` is removed once when the host starts with it; otherwise the host is unchanged |
| `NewsCarousel.StripWwwOnce` | src/components/NewsCarousel.tsx:32 | stripping `www.` + rest gives rest |
| `NewsCarousel.StripWwwDoubled` | src/components/NewsCarousel.tsx:32 | `www.www.x` becomes `www.x` |
| `NewsCarousel.GetDomainFromUrl` | src/components/NewsCarousel.tsx:28-37 | a null or empty URL and an unparsable URL give `''`; otherwise exactly `StripWww` of the host name |
| `NewsCarousel.SentimentBadge` | src/components/NewsCarousel.tsx:120-133 | a badge appears iff the sentiment is truthy and not `'neutral'`; positive reads "Boa notícia", negative "Má notícia", any other shown value has an empty label |
| `NewsCarousel.BadgeLabelled` | src/components/NewsCarousel.tsx:120-133 | a badge with a non-empty label appears exactly for `'positive'` and `'negative'` |
| `NewsCarousel.ProgressPercent` | src/components/NewsCarousel.tsx:57-62 | for non-negative elapsed time the bar lies in `[0, 100]`; it is 100 exactly when the 20-second period is over |
| `NewsCarousel.ProgressMonotone` | src/components/NewsCarousel.tsx:60-62 | the bar never decreases as time passes |
| `NewsCarousel.Carousel.constructor` | src/components/NewsCarousel.tsx:48-76 | mounting starts with an empty bar; a frame is requested iff autoplay is on and there is news |
| `NewsCarousel.Carousel.RerunEffect` | src/components/NewsCarousel.tsx:50-76 | after cleanup and re-run, the bar is empty and a frame is pending iff autoplay is on and there is news |
| `NewsCarousel.Carousel.Frame` | src/components/NewsCarousel.tsx:60-68 | a frame sets the bar to the formula's value and requests the next frame iff `elapsed < duration` |
| `NewsCarousel.Carousel.GoToPrevious` | src/components/NewsCarousel.tsx:78-81 | the index becomes `(i-1+n) mod n`; autoplay goes off, so the bar is reset and no frame is pending |
| `NewsCarousel.Carousel.GoToNext` | src/components/NewsCarousel.tsx:83-86 | the index becomes `(i+1) mod n`; autoplay goes off, so the bar is reset and no frame is pending |
| `NewsCarousel.Carousel.GoToSlide` | src/components/NewsCarousel.tsx:88-91 | dot `k` selects slide `k`; autoplay goes off, so the bar is reset and no frame is pending |
| `NewsCarousel.Carousel.ToggleAutoPlay` | src/components/NewsCarousel.tsx:195 | the button flips autoplay and restarts the bar from empty |
| `NewsCarousel.Carousel.Unmount` | src/components/NewsCarousel.tsx:72-75 | cleanup cancels the pending frame and resets the bar to 0 |
| `NewsCarousel.ToggleTwice` | src/components/NewsCarousel.tsx:195 | pressing the toggle twice restores autoplay and the index; the bar is left empty |
| `NewsSearchFilter.StoredSentiment` | src/components/NewsSearchFilter.tsx:71 | choosing `'all'` stores null; any other option is stored verbatim |
| `NewsSearchFilter.DisplayedSentiment` | src/components/NewsSearchFilter.tsx:71 | the select shows the stored value when it is truthy, else `'all'` |
| `NewsSearchFilter.ChoiceIsDisplayed` | src/components/NewsSearchFilter.tsx:71 | after choosing a non-empty option the select shows that option |
| `NewsSearchFilter.DisplayedAllIffNull` | src/components/NewsSearchFilter.tsx:71 | for a value the select may store, it shows `'all'` iff the stored value is null; choosing what is shown stores it again |
| `NewsSearchFilter.DateParam` | src/components/NewsSearchFilter.tsx:29-30 | a null date becomes `''`; a set date becomes its `yyyy-MM-dd` rendering |
| `NewsSearchFilter.Form.constructor` | src/components/NewsSearchFilter.tsx:19-23 | the form starts empty, with a null sentiment, no dates and the popover closed |
| `NewsSearchFilter.Form.SetSearchTerm` | src/components/NewsSearchFilter.tsx:50 | typing sets the search term and nothing else |
| `NewsSearchFilter.Form.SelectSentiment` | src/components/NewsSearchFilter.tsx:71 | the select stores the mapped choice and never the sentinel `'all'` |
| `NewsSearchFilter.Form.SelectStartDate` | src/components/NewsSearchFilter.tsx:94-99 | the start calendar sets, or clears, the start date only |
| `NewsSearchFilter.Form.SelectEndDate` | src/components/NewsSearchFilter.tsx:114-119 | the end calendar sets, or clears, the end date only |
| `NewsSearchFilter.Form.SetAdvancedFilterOpen` | src/components/NewsSearchFilter.tsx:59 | the popover trigger opens or closes the popover only |
| `NewsSearchFilter.Form.HandleSearch` | src/components/NewsSearchFilter.tsx:25-32 | a search passes term and sentiment unchanged, formats each date or sends `''`, and leaves limit and offset out; it changes no field |
| `NewsSearchFilter.Form.ApplyFilters` | src/components/NewsSearchFilter.tsx:128-131 | "Aplicar filtros" emits the search parameters and closes the popover |
| `NewsSearchFilter.Form.HandleReset` | src/components/NewsSearchFilter.tsx:34-40 | reset clears term, sentiment and both dates, then emits `{}` |
| `NewsSearchFilter.SearchQueryFollowsForm` | src/components/NewsSearchFilter.tsx:25-32 | the query built from a search has a date filter per set date, the neutral filter iff neutral is chosen, an equality filter on exactly the chosen value iff another non-empty value is chosen, the search filter iff the term is not blank, and rows 0 to 4 |
| `NewsSearchFilter.ClearedFormMatchesReset` | src/components/NewsSearchFilter.tsx:34-40 | a search with a cleared form builds the same query as the reset's `{}` |
| `NewsSearchFilter.ResetThenBuildQuery` | src/components/NewsSearchFilter.tsx:39 | reset followed by `fetchArticles` sends a query with no filter for rows 0 to 4 |

## Left out

- Rendering: JSX, class strings, images, `window.open`, the font-size toggle. They produce markup, not state.
- The hosted client: `createClient`, the HTTP request, what `ilike`/`or`/`eq`/`gte`/`lte` match on the server, and the `console.log` and `console.error` calls. The backend is a parameter, and `Response.Threw` stands for a request that rejects.
- The textual encoding of the `or(...)` filter. The model keeps its two conditions as structured values. A search term containing `,`, `.` or parentheses would be read differently by the backend's filter parser, and that is not captured.
- A `data` value of `null` without an error is not modelled; the model's `Data` always carries a list.
- Timers: `setInterval`, `requestAnimationFrame`, `cancelAnimationFrame` and `Date.now()`. Each interval tick and each animation frame is a method call, and a frame takes its elapsed milliseconds as an argument.
- Floating point: the progress formula is computed on `real`, so JavaScript's rounding is not modelled. `limit` and `offset` are integers, so fractional or `NaN` numbers are not modelled either.
- `formatDate` (pt-BR long dates), date-fns `format` and `new URL(...).hostname` are library calls and become function parameters.
- The parent components that own `news`, `currentIndex` and `isAutoPlay` for `NewsCarousel` are not part of this model. `NewsCarousel.Carousel.news` is therefore fixed for the object's lifetime.
- Load-more accumulation, clamping the index when the list shrinks, and the real-time subscription with its reconnect backoff are not in the modelled files.
- React effect scheduling and batching, and the order in which overlapping responses arrive, are not modelled.
- The arrow and dot handlers are modelled only for non-empty news, because the component renders them only then. With no news, JavaScript's `% 0` would give `NaN`.
- `String.prototype.trim` works on UTF-16 code units, and Dafny's `char` is a Unicode scalar value. Every code point `trim` removes lies in the Basic Multilingual Plane, so the two agree.
- `src/components/NewsListView.tsx` (rendering only) and `cn` in `src/lib/utils.ts` (a class-name helper) are not part of this model.
