# stock-photos: the fetch and pagination controller

This project models the controller inside the `App` component of the stock-photos
client. The client shows photos from the Unsplash API in a grid. Scrolling near the
bottom of the page loads the next page. A search term switches from the curated feed
to search results.

The controller state is six variables: `loading`, `photos`, `page`, `query`,
`newImages` (the continuation signal), and the `mounted` ref. The model has three
modules.

- `PhotoApi` (`photo_api.dfy`) builds the request URL. `BuildUrl` gives the curated
  endpoint with the access key and page, or the search endpoint with the access key,
  page and term. `ParseUrl` reads a URL back, and the round-trip lemma shows that a
  URL encodes exactly its page and term.
- `Controller` (`controller.dfy`) is the state machine on values. Each handler
  (`fetchImages` start and completion, scroll, submit, input) is followed by the
  effects whose dependencies it changed. The `[page]` effect fetches. The
  `[newImages]` effect skips its first run and then advances the page. A page change
  made by the `[newImages]` effect triggers the `[page]` effect. `Dispatch` performs
  one event and `Run` performs a sequence. The lemmas state what each event does and
  what holds over every sequence of events.
- `Component` (`app.dfy`) is the class `App`. The state variables are fields, and one
  method per handler or effect updates them step by step. Each event method is proved
  to reach the state and issue the fetches that `Controller.Dispatch` gives, and to
  keep `page >= 1`.

A fetch is split in two. `FetchImages` sets `loading`, builds the URL, and returns the
`Request`, which is the `(page, query)` pair that the fetch's closure captured. Later,
`FetchSucceeded(req, items)` or `FetchFailed(req)` completes it. The merge uses the
request's own page and term, but it is applied to whatever `photos` holds when the
response arrives. This is what the JavaScript closure does.

### What the code does not guarantee

- Only the scroll path checks `loading` (src/App.jsx:62). `handleSubmit` fetches, or
  resets the page, whatever is loading (src/App.jsx:85-89), so two fetches can be in
  flight at once (`SubmitFetchesFirstPage`, `OnlySubmitFetchesWhileLoading`).
- No response is discarded. The updater applies to the photos held when the response
  arrives (src/App.jsx:34-41), so a feed response that arrives after a search response
  is appended to the search results (`LateFeedResponseAppendsToSearch`).
- `handleSubmit` skips only the empty term (src/App.jsx:84), so a term of spaces is
  searched.

## Model

| member | source | states |
|---|---|---|
| `PhotoApi.Decimal` | src/App.jsx:23 | the page is rendered as a non-empty string of digits with no leading zero, one digit exactly for pages below 10 |
| `PhotoApi.DecimalRoundTrip` | src/App.jsx:23 | reading the rendered digits back gives the page number |
| `PhotoApi.BuildUrl` | src/App.jsx:22-30 | a non-empty term selects the search endpoint and an empty term selects the curated endpoint |
| `PhotoApi.SearchUrlRoundTrip` | src/App.jsx:26-27 | a search URL reads back as its page and its term |
| `PhotoApi.CuratedUrlRoundTrip` | src/App.jsx:28-29 | a curated URL reads back as its page with no search term, so it carries no query parameter |
| `PhotoApi.UrlRoundTrip` | src/App.jsx:22-30 | every URL a fetch builds encodes exactly the page and term it was built from |
| `PhotoApi.UrlInjective` | src/App.jsx:22-30 | two fetches with different pages or terms request different URLs |
| `Controller.Merge` | src/App.jsx:34-42 | a page-1 search response replaces the collection; any other response is appended, the old collection stays a prefix, the lengths add, and duplicates are kept (multiset sum) |
| `Controller.MountFetchesWithoutAdvancing` | src/App.jsx:52-59 | mount issues one fetch for the current page and term; the first run of the continuation effect only sets `mounted` and never moves the page |
| `Controller.StartupFetchesFeedPageOne` | src/App.jsx:13-54 | from the hooks' initial values, mount issues exactly one request, for curated page 1, with URL `mainUrl + "?client_id=" + key + "&page=1"` |
| `Controller.DispatchKeepsInv` | src/App.jsx:56-90 | every event keeps the page at 1 or above and the component mounted, and requests only pages 1 and above |
| `Controller.PageMoves` | src/App.jsx:56-90 | every event leaves the page unchanged, advances it by exactly 1, or resets it to 1 |
| `Controller.AdvanceOnlyOnIdleScroll` | src/App.jsx:56-74 | the page advances if and only if a scroll near the bottom raises the signal from false while nothing is loading; the advance then fetches the next page of the current term; a scroll that does not advance leaves the page and the loading flag unchanged and requests nothing (the whole step is `ScrollStep`) |
| `Controller.ScrollStep` | src/App.jsx:56-74 | the whole next state and requests of a scroll: near the bottom with the signal low and nothing loading, the signal goes up, the page advances by 1, `loading` is set and the next page of the current term is requested; otherwise only the signal may go up, and page, loading, photos and term stay the same with no request |
| `Controller.ScrollFetchesOnlyWhenIdle` | src/App.jsx:56-74 | a scroll starts a fetch if and only if it is near the bottom, the signal was low and nothing was loading |
| `Controller.ScrollRaisesSignal` | src/App.jsx:66-74 | after a scroll, the signal is the old signal or-ed with `innerHeight + scrollY >= scrollHeight - 10`; the signal is never lowered, and photos and term stay the same |
| `Controller.SubmitFetchesFirstPage` | src/App.jsx:82-90 | an empty term changes nothing and fetches nothing; a non-empty term makes the page 1 and issues one request for page 1 of that term, on both paths and whatever is loading |
| `Controller.TypingOnlySetsQuery` | src/App.jsx:92-94 | input replaces the term, changes nothing else, and starts no fetch |
| `Controller.SuccessMerges` | src/App.jsx:32-44 | a success merges the response into the current photos, clears the signal and the loading flag, and starts no fetch |
| `Controller.FailureIsolated` | src/App.jsx:45-49 | a failure leaves photos, page and term unchanged, clears the loading flag and the signal, and does not retry |
| `Controller.OnlySubmitFetchesWhileLoading` | src/App.jsx:52-90 | only a submit can start a fetch while another is loading |
| `Controller.OnlySuccessChangesPhotos` | src/App.jsx:33-42 | no event except a successful fetch changes the photos |
| `Controller.RunKeepsInv` | src/App.jsx:15-90 | over every sequence of events, the page stays at 1 or above and every request has page 1 or above |
| `Controller.RunAppendsWithoutFreshSearch` | src/App.jsx:34-42 | over a sequence of events with no page-1 search response, the old photos stay a prefix of the new photos |
| `Controller.BrowseThenSearch` | src/App.jsx:20-90 | feed page 1, a scroll, feed page 2, then a search and a scroll: the requests are feed page 2, search page 1 and search page 2, and the photos end as the two search pages |
| `Controller.LateFeedResponseAppendsToSearch` | src/App.jsx:20-90 | a search submitted while the first feed page loads fetches at once, and the late feed response is appended to the search results |
| `Component.App.constructor` | src/App.jsx:13-18 | the fields start at the hooks' initial values |
| `Component.App.FetchImages` | src/App.jsx:20-30 | sets `loading` and returns the request for the current page and term, with the URL that `BuildUrl` gives for it |
| `Component.App.ContinuationEffect` | src/App.jsx:56-64 | the state becomes the continuation effect's result on the old state |
| `Component.App.SignalChanged` | src/App.jsx:56-64 | runs the continuation effect only if the signal changed, and then fetches if the page moved |
| `Component.App.Mount` | src/App.jsx:52-64 | mount gives the state and the single fetch of `Controller.Mount` |
| `Component.App.Scroll` | src/App.jsx:66-74 | a scroll event gives the state and the fetches of `Dispatch`, and the page stays at 1 or above |
| `Component.App.Submit` | src/App.jsx:82-90 | a submit gives the state and the fetches of `Dispatch`, and the page stays at 1 or above |
| `Component.App.Input` | src/App.jsx:92-94 | input gives the state of `Dispatch` |
| `Component.App.FetchSucceeded` | src/App.jsx:32-44 | a response gives the state of `Dispatch`, with the photos merged by `Merge` |
| `Component.App.FetchFailed` | src/App.jsx:45-49 | a failure gives the state of `Dispatch`, with the photos kept |

## Left out

- Rendering (the JSX, the `Photo` and `Loading` components, and the `nanoid` keys) is presentation only.
- The HTTP call `axios.get` is not modelled. A fetch is modelled as a `Request` that the event methods return. Its outcome arrives later as a `Succeeded` event carrying the photo list or as a `Failed` event.
- The response body is reduced to its photo list: `data` from the curated endpoint, or `data.results` from the search endpoint. A body without that list is not modelled. In the code, such a body crashes the render: the append paths throw in the updater, and a page-1 search stores `undefined`, so `photos.map` throws (src/App.jsx:115). The `catch` of `fetchImages` catches neither.
- The `console.log` of the error is I/O.
- The access key is read from the build environment. Here it is the constant `accessKey`, set by the constructor.
- The viewport reads `innerHeight`, `scrollY` and `scrollHeight` are integer parameters. Fractional scroll offsets are not modelled.
- Attaching and detaching the scroll listener is environment plumbing.
- React's batching and effect scheduling become discrete steps. Each event is a handler, then the effects whose dependencies changed, in declaration order. No handler changes both `page` and `newImages`, so the two effects never run in the same render.
- The term is placed in the URL verbatim, as in the code. Percent-encoding (section 2.1 of RFC 3986) is not modelled.
- The page is an unbounded natural number. JavaScript's loss of integer precision above 2^53 is not modelled.
