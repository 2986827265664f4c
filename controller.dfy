/** The fetch/pagination controller of the App component as a state machine on
    values. A `State` holds the component's six state variables; each event is a
    handler followed by the effects whose dependencies the handler changed,
    run in declaration order (the `[page]` effect before the `[newImages]`
    effect), and it yields the next state and the fetches it started. */
module Controller {
  import opened PhotoApi

  /** A photo as the API returns it; the controller only stores and orders them. */
  type Photo(==)

  /** The component state: `loading`, `photos`, `page`, `query` and `newImages`
      are React state, `mounted` is the ref that suppresses the first run of the
      continuation effect. */
  datatype State = State(
    loading: bool,
    photos: seq<Photo>,
    page: nat,
    query: string,
    newImages: bool,
    mounted: bool)

  /** The state before mount: the initial values of the hooks. */
  const Initial: State := State(false, [], 1, "", false, false)

  /** The state after an event and the fetches it started, in order. */
  datatype Step = Step(next: State, issued: seq<Request>)

  /** The events the component reacts to after mount. `Succeeded` and `Failed`
      are the completion of an earlier fetch, identified by its request. */
  datatype Event =
    | Typed(text: string)
    | Submitted
    | Scrolled(innerHeight: int, scrollY: int, scrollHeight: int)
    | Succeeded(req: Request, items: seq<Photo>)
    | Failed(req: Request)

  /** The page starts at 1 and is only ever incremented or reset to 1. */
  predicate PageValid(s: State) {
    s.page >= 1
  }

  /** After mount: a valid page, and the component has mounted. */
  predicate Inv(s: State) {
    PageValid(s) && s.mounted
  }

  /** A response that starts a new search collection: a non-empty term on page 1. */
  predicate FreshSearch(req: Request) {
    req.query != "" && req.page == 1
  }

  /** The photos updater of a successful fetch: the response of a fresh search
      replaces the collection; any other response is appended, duplicates kept. */
  function Merge(prev: seq<Photo>, req: Request, items: seq<Photo>): (r: seq<Photo>)
    ensures FreshSearch(req) ==> r == items
    ensures !FreshSearch(req) ==> |r| == |prev| + |items| && prev <= r && r[|prev|..] == items
    ensures !FreshSearch(req) ==> multiset(r) == multiset(prev) + multiset(items)
  {
    if req.query != "" && req.page == 1 then items
    else if req.query != "" then prev + items
    else prev + items
  }

  /** fetchImages up to the await: raise `loading` and issue one request with
      the current page and term. */
  function StartFetch(s: State): Step {
    Step(s.(loading := true), [Request(s.page, s.query)])
  }

  /** The body of the `[newImages]` effect. */
  function Continue(s: State): State {
    if !s.mounted then s.(mounted := true)
    else if !s.newImages then s
    else if s.loading then s
    else s.(page := s.page + 1)
  }

  /** The scroll handler's test: the bottom of the viewport is within 10 pixels
      of the end of the document. */
  predicate NearBottom(innerHeight: int, scrollY: int, scrollHeight: int) {
    innerHeight + scrollY >= scrollHeight - 10
  }

  /** The scroll handler: raise `newImages` near the bottom. */
  function OnScroll(s: State, innerHeight: int, scrollY: int, scrollHeight: int): State {
    if NearBottom(innerHeight, scrollY, scrollHeight) then s.(newImages := true) else s
  }

  /** Runs the `[newImages]` effect if `newImages` differs from its value
      `signalBefore` at the previous render, and then the `[page]` effect if
      the continuation moved the page. */
  function AfterSignal(signalBefore: bool, s: State): Step {
    if s.newImages == signalBefore then Step(s, [])
    else
      var c := Continue(s);
      if c.page != s.page then StartFetch(c) else Step(c, [])
  }

  /** Mount runs every effect once, in declaration order: the `[page]` effect
      fetches, the `[newImages]` effect only marks the component mounted. */
  function Mount(s: State): Step {
    var f := StartFetch(s);
    Step(Continue(f.next), f.issued)
  }

  /** One event: its handler, then the effects its state change triggers. */
  function Dispatch(s: State, e: Event): Step {
    match e
    case Typed(text) => Step(s.(query := text), [])
    case Submitted =>
      if s.query == "" then Step(s, [])
      else if s.page == 1 then StartFetch(s)
      else StartFetch(s.(page := 1))
    case Scrolled(h, y, sh) => AfterSignal(s.newImages, OnScroll(s, h, y, sh))
    case Succeeded(req, items) =>
      AfterSignal(s.newImages, s.(photos := Merge(s.photos, req, items), newImages := false, loading := false))
    case Failed(_) =>
      AfterSignal(s.newImages, s.(newImages := false, loading := false))
  }

  /** A sequence of events from a state: the final state and every fetch
      started along the way, in order. */
  function Run(s: State, events: seq<Event>): Step
    decreases |events|
  {
    if events == [] then Step(s, [])
    else
      var first := Dispatch(s, events[0]);
      var rest := Run(first.next, events[1..]);
      Step(rest.next, first.issued + rest.issued)
  }

  // ---------------------------------------------------------------------------
  // Properties of single events

  /** Mount fetches the current page and term and only marks the component
      mounted: the suppressed first continuation never moves the page. */
  lemma MountFetchesWithoutAdvancing(s: State)
    requires !s.mounted
    ensures Mount(s) == Step(s.(loading := true, mounted := true), [Request(s.page, s.query)])
  {
  }

  /** On startup exactly one fetch happens, for page 1 of the curated feed. */
  lemma StartupFetchesFeedPageOne(key: string)
    ensures Mount(Initial) == Step(State(true, [], 1, "", false, true), [Request(1, "")])
    ensures BuildUrl(key, 1, "") == MainUrl + "?client_id=" + key + "&page=1"
    ensures Inv(Mount(Initial).next)
  {
    assert Decimal(1) == "1";
  }

  /** Every event keeps the page at 1 or above, keeps the component mounted, and
      requests only pages 1 and above. */
  lemma DispatchKeepsInv(s: State, e: Event)
    requires Inv(s)
    ensures Inv(Dispatch(s, e).next)
    ensures forall r :: r in Dispatch(s, e).issued ==> r.page >= 1
  {
  }

  /** The page stays, advances by exactly one, or resets to 1. */
  lemma PageMoves(s: State, e: Event)
    requires Inv(s)
    ensures var p := Dispatch(s, e).next.page; p == s.page || p == s.page + 1 || p == 1
  {
  }

  /** The page advances exactly when a scroll near the bottom raises the
      continuation signal while no fetch is loading; that fetches the next
      page of the current term. */
  lemma AdvanceOnlyOnIdleScroll(s: State, e: Event)
    requires Inv(s)
    ensures Dispatch(s, e).next.page == s.page + 1 <==>
      e.Scrolled? && NearBottom(e.innerHeight, e.scrollY, e.scrollHeight) && !s.newImages && !s.loading
    ensures Dispatch(s, e).next.page == s.page + 1 ==>
      Dispatch(s, e).issued == [Request(s.page + 1, s.query)] && Dispatch(s, e).next.loading
    ensures e.Scrolled? && Dispatch(s, e).next.page != s.page + 1 ==>
      Dispatch(s, e).next.page == s.page && Dispatch(s, e).next.loading == s.loading &&
      Dispatch(s, e).issued == []
  {
  }

  /** A scroll fetches only when nothing is loading and the signal was low. */
  lemma ScrollFetchesOnlyWhenIdle(s: State, h: int, y: int, sh: int)
    requires Inv(s)
    ensures Dispatch(s, Scrolled(h, y, sh)).issued != [] <==>
      NearBottom(h, y, sh) && !s.newImages && !s.loading
  {
  }

  /** The scroll handler raises the signal exactly near the bottom and never
      lowers it; it leaves the collection and the term alone. */
  lemma ScrollRaisesSignal(s: State, h: int, y: int, sh: int)
    requires Inv(s)
    ensures Dispatch(s, Scrolled(h, y, sh)).next.newImages == (s.newImages || NearBottom(h, y, sh))
    ensures Dispatch(s, Scrolled(h, y, sh)).next.photos == s.photos
    ensures Dispatch(s, Scrolled(h, y, sh)).next.query == s.query
  {
  }

  /** The whole step of a scroll: near the bottom with the signal low and
      nothing loading, it raises the signal, advances the page and fetches the
      next page; otherwise it only raises the signal near the bottom, and the
      page, the loading flag and everything else stay as they were. */
  lemma ScrollStep(s: State, h: int, y: int, sh: int)
    requires Inv(s)
    ensures Dispatch(s, Scrolled(h, y, sh)) ==
      if NearBottom(h, y, sh) && !s.newImages && !s.loading then
        Step(s.(newImages := true, page := s.page + 1, loading := true), [Request(s.page + 1, s.query)])
      else
        Step(s.(newImages := s.newImages || NearBottom(h, y, sh)), [])
  {
  }

  /** Submitting an empty term does nothing; a non-empty one always requests
      page 1 of that term and leaves the page at 1, whatever is loading. */
  lemma SubmitFetchesFirstPage(s: State)
    ensures s.query == "" ==> Dispatch(s, Submitted) == Step(s, [])
    ensures s.query != "" ==>
      Dispatch(s, Submitted) == Step(s.(page := 1, loading := true), [Request(1, s.query)])
  {
  }

  /** Typing replaces the term and nothing else, and starts no fetch. */
  lemma TypingOnlySetsQuery(s: State, text: string)
    ensures Dispatch(s, Typed(text)).next.query == text
    ensures Dispatch(s, Typed(text)).next.(query := s.query) == s
    ensures Dispatch(s, Typed(text)).issued == []
  {
  }

  /** A successful fetch merges its response into the current collection,
      clears the signal and the loading flag, and starts nothing. */
  lemma SuccessMerges(s: State, req: Request, items: seq<Photo>)
    requires Inv(s)
    ensures Dispatch(s, Succeeded(req, items)) ==
      Step(s.(photos := Merge(s.photos, req, items), newImages := false, loading := false), [])
  {
  }

  /** A failed fetch leaves the collection, the page and the term unchanged,
      clears the signal and the loading flag, and does not retry. */
  lemma FailureIsolated(s: State, req: Request)
    requires Inv(s)
    ensures Dispatch(s, Failed(req)).next.photos == s.photos
    ensures Dispatch(s, Failed(req)).next.page == s.page
    ensures Dispatch(s, Failed(req)).next.query == s.query
    ensures !Dispatch(s, Failed(req)).next.loading && !Dispatch(s, Failed(req)).next.newImages
    ensures Dispatch(s, Failed(req)).issued == []
  {
  }

  /** Only a submit starts a fetch while another is loading: the loading flag
      guards the scroll path and nothing else. */
  lemma OnlySubmitFetchesWhileLoading(s: State, e: Event)
    requires Inv(s) && s.loading
    requires Dispatch(s, e).issued != []
    ensures e.Submitted?
  {
  }

  /** Only a successful fetch changes the collection. */
  lemma OnlySuccessChangesPhotos(s: State, e: Event)
    requires Inv(s)
    requires !e.Succeeded?
    ensures Dispatch(s, e).next.photos == s.photos
  {
  }

  // ---------------------------------------------------------------------------
  // Properties of event sequences

  lemma {:induction false} RunKeepsInv(s: State, events: seq<Event>)
    requires Inv(s)
    ensures Inv(Run(s, events).next)
    ensures forall r :: r in Run(s, events).issued ==> r.page >= 1
    decreases |events|
  {
    if events != [] {
      DispatchKeepsInv(s, events[0]);
      RunKeepsInv(Dispatch(s, events[0]).next, events[1..]);
    }
  }

  /** Without a fresh-search response the collection only grows at its end:
      what was shown stays a prefix of what is shown. */
  lemma {:induction false} RunAppendsWithoutFreshSearch(s: State, events: seq<Event>)
    requires Inv(s)
    requires forall i :: 0 <= i < |events| && events[i].Succeeded? ==> !FreshSearch(events[i].req)
    ensures s.photos <= Run(s, events).next.photos
    decreases |events|
  {
    if events != [] {
      var next := Dispatch(s, events[0]).next;
      DispatchKeepsInv(s, events[0]);
      assert s.photos <= next.photos;
      RunAppendsWithoutFreshSearch(next, events[1..]);
    }
  }

  /** Run over a non-empty sequence is the first event followed by the rest. */
  lemma RunCons(s: State, e: Event, events: seq<Event>)
    ensures Run(s, [e] + events) ==
      var first := Dispatch(s, e);
      var rest := Run(first.next, events);
      Step(rest.next, first.issued + rest.issued)
  {
    assert ([e] + events)[1..] == events;
  }

  /** Browsing the feed and then searching: two feed pages are appended, the
      submitted search replaces them with its first page, and scrolling
      appends the second search page. */
  lemma BrowseThenSearch(p1: seq<Photo>, p2: seq<Photo>, c1: seq<Photo>, c2: seq<Photo>)
    ensures Run(Mount(Initial).next,
      [ Succeeded(Request(1, ""), p1), Scrolled(800, 1200, 2000), Succeeded(Request(2, ""), p2),
        Typed("cats"), Submitted, Succeeded(Request(1, "cats"), c1),
        Scrolled(800, 1200, 2000), Succeeded(Request(2, "cats"), c2) ])
      == Step(State(false, c1 + c2, 2, "cats", false, true),
              [Request(2, ""), Request(1, "cats"), Request(2, "cats")])
  {
    var near := Scrolled(800, 1200, 2000);
    var s0 := Mount(Initial).next;
    var s1 := State(false, p1, 1, "", false, true);
    var s2 := State(true, p1, 2, "", true, true);
    var s3 := State(false, p1 + p2, 2, "", false, true);
    var s4 := s3.(query := "cats");
    var s5 := s4.(page := 1, loading := true);
    var s6 := State(false, c1, 1, "cats", false, true);
    var s7 := State(true, c1, 2, "cats", true, true);
    var s8 := State(false, c1 + c2, 2, "cats", false, true);
    assert Dispatch(s0, Succeeded(Request(1, ""), p1)) == Step(s1, []);
    assert Dispatch(s1, near) == Step(s2, [Request(2, "")]);
    assert Dispatch(s2, Succeeded(Request(2, ""), p2)) == Step(s3, []);
    assert Dispatch(s3, Typed("cats")) == Step(s4, []);
    assert Dispatch(s4, Submitted) == Step(s5, [Request(1, "cats")]);
    assert Dispatch(s5, Succeeded(Request(1, "cats"), c1)) == Step(s6, []);
    assert Dispatch(s6, near) == Step(s7, [Request(2, "cats")]);
    assert Dispatch(s7, Succeeded(Request(2, "cats"), c2)) == Step(s8, []);
    RunCons(s7, Succeeded(Request(2, "cats"), c2), []);
    RunCons(s6, near, [Succeeded(Request(2, "cats"), c2)]);
    RunCons(s5, Succeeded(Request(1, "cats"), c1), [near, Succeeded(Request(2, "cats"), c2)]);
    RunCons(s4, Submitted, [Succeeded(Request(1, "cats"), c1), near, Succeeded(Request(2, "cats"), c2)]);
    RunCons(s3, Typed("cats"),
      [Submitted, Succeeded(Request(1, "cats"), c1), near, Succeeded(Request(2, "cats"), c2)]);
    RunCons(s2, Succeeded(Request(2, ""), p2),
      [Typed("cats"), Submitted, Succeeded(Request(1, "cats"), c1), near, Succeeded(Request(2, "cats"), c2)]);
    RunCons(s1, near,
      [Succeeded(Request(2, ""), p2), Typed("cats"), Submitted, Succeeded(Request(1, "cats"), c1),
       near, Succeeded(Request(2, "cats"), c2)]);
    RunCons(s0, Succeeded(Request(1, ""), p1),
      [near, Succeeded(Request(2, ""), p2), Typed("cats"), Submitted, Succeeded(Request(1, "cats"), c1),
       near, Succeeded(Request(2, "cats"), c2)]);
  }

  /** Nothing discards a stale response: a search submitted while the first
      feed page is still loading starts a second fetch at once, and the feed
      response that arrives after the search response is appended to the
      search results. */
  lemma LateFeedResponseAppendsToSearch(p: seq<Photo>, c: seq<Photo>)
    ensures Run(Mount(Initial).next,
      [ Typed("cats"), Submitted, Succeeded(Request(1, "cats"), c), Succeeded(Request(1, ""), p) ])
      == Step(State(false, c + p, 1, "cats", false, true), [Request(1, "cats")])
  {
    var s0 := Mount(Initial).next;
    var s1 := s0.(query := "cats");
    var s3 := State(false, c, 1, "cats", false, true);
    var s4 := State(false, c + p, 1, "cats", false, true);
    assert s0.loading && s1.loading;
    assert Dispatch(s1, Submitted) == Step(s1, [Request(1, "cats")]);
    assert Dispatch(s1, Succeeded(Request(1, "cats"), c)) == Step(s3, []);
    assert Dispatch(s3, Succeeded(Request(1, ""), p)) == Step(s4, []);
    RunCons(s3, Succeeded(Request(1, ""), p), []);
    RunCons(s1, Succeeded(Request(1, "cats"), c), [Succeeded(Request(1, ""), p)]);
    RunCons(s1, Submitted, [Succeeded(Request(1, "cats"), c), Succeeded(Request(1, ""), p)]);
    RunCons(s0, Typed("cats"), [Submitted, Succeeded(Request(1, "cats"), c), Succeeded(Request(1, ""), p)]);
  }
}
