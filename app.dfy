/** The App component as an object: its state variables are fields that the
    event handlers and effects update step by step. Each event method is proved
    to produce the state and the fetches that `Controller.Dispatch` describes. */
module Component {
  import opened PhotoApi
  import opened Controller

  class App {
    /** The access key read from the build configuration. */
    const accessKey: string

    var loading: bool
    var photos: seq<Photo>
    var page: nat
    var query: string
    var newImages: bool
    var mounted: bool

    /** The fields as a value of the state machine. */
    function Model(): State
      reads this
    {
      State(loading, photos, page, query, newImages, mounted)
    }

    /** The page never drops below 1. */
    ghost predicate Valid()
      reads this
    {
      PageValid(Model())
    }

    /** The hooks' initial values: not loading, no photos, page 1, no term,
        no continuation signal, not yet mounted. */
    constructor (accessKey: string)
      ensures Valid()
      ensures this.accessKey == accessKey
      ensures Model() == Initial
    {
      this.accessKey := accessKey;
      loading := false;
      photos := [];
      page := 1;
      query := "";
      newImages := false;
      mounted := false;
    }

    /** fetchImages up to the await: raise `loading`, build the URL for the
        current page and term, and return it with the request it stands for. */
    method FetchImages() returns (req: Request, url: string)
      modifies this`loading
      ensures Model() == StartFetch(old(Model())).next
      ensures [req] == StartFetch(old(Model())).issued
      ensures url == BuildUrl(accessKey, req.page, req.query)
    {
      loading := true;
      var urlPage := "&page=" + Decimal(page);
      var urlQuery := "&query=" + query;
      if query != "" {
        url := SearchUrl + ClientId(accessKey) + urlPage + urlQuery;
      } else {
        url := MainUrl + ClientId(accessKey) + urlPage;
      }
      req := Request(page, query);
    }

    /** The `[newImages]` effect: its first run only marks the component
        mounted; later runs advance the page when the signal is up and nothing
        is loading. */
    method ContinuationEffect()
      modifies this`mounted, this`page
      ensures Model() == Continue(old(Model()))
    {
      if !mounted {
        mounted := true;
        return;
      }
      if !newImages {
        return;
      }
      if loading {
        return;
      }
      page := page + 1;
    }

    /** Re-render after the continuation signal may have changed from
        `signalBefore`: run the `[newImages]` effect if it did, and the
        `[page]` effect if that moved the page. */
    method SignalChanged(signalBefore: bool) returns (issued: seq<Request>)
      modifies this`mounted, this`page, this`loading
      ensures Model() == AfterSignal(signalBefore, old(Model())).next
      ensures issued == AfterSignal(signalBefore, old(Model())).issued
    {
      issued := [];
      if newImages != signalBefore {
        var pageBefore := page;
        ContinuationEffect();
        if page != pageBefore {
          var req, url := FetchImages();
          issued := [req];
        }
      }
    }

    /** First render: the `[page]` effect fetches, then the `[newImages]`
        effect runs for the first time. */
    method Mount() returns (issued: seq<Request>)
      requires Valid()
      modifies this
      ensures Valid()
      ensures Model() == Controller.Mount(old(Model())).next
      ensures issued == Controller.Mount(old(Model())).issued
    {
      var req, url := FetchImages();
      issued := [req];
      ContinuationEffect();
    }

    /** The scroll listener, followed by the effects it triggers. */
    method Scroll(innerHeight: int, scrollY: int, scrollHeight: int) returns (issued: seq<Request>)
      requires Valid()
      modifies this
      ensures Valid()
      ensures Model() == Dispatch(old(Model()), Scrolled(innerHeight, scrollY, scrollHeight)).next
      ensures issued == Dispatch(old(Model()), Scrolled(innerHeight, scrollY, scrollHeight)).issued
    {
      var signalBefore := newImages;
      if innerHeight + scrollY >= scrollHeight - 10 {
        newImages := true;
      }
      issued := SignalChanged(signalBefore);
    }

    /** handleSubmit: ignored without a term; on page 1 it fetches directly,
        otherwise it resets the page and the `[page]` effect fetches. */
    method Submit() returns (issued: seq<Request>)
      requires Valid()
      modifies this
      ensures Valid()
      ensures Model() == Dispatch(old(Model()), Submitted).next
      ensures issued == Dispatch(old(Model()), Submitted).issued
    {
      if query == "" {
        return [];
      }
      if page == 1 {
        var req, url := FetchImages();
        return [req];
      }
      page := 1;
      var req, url := FetchImages();
      issued := [req];
    }

    /** handleChange: replace the term; no effect depends on it. */
    method Input(text: string)
      requires Valid()
      modifies this
      ensures Valid()
      ensures Model() == Dispatch(old(Model()), Typed(text)).next
    {
      query := text;
    }

    /** The rest of fetchImages after a response to `req`: merge it into the
        photos held now, clear the signal and the loading flag. */
    method FetchSucceeded(req: Request, items: seq<Photo>) returns (issued: seq<Request>)
      requires Valid()
      modifies this
      ensures Valid()
      ensures Model() == Dispatch(old(Model()), Succeeded(req, items)).next
      ensures issued == Dispatch(old(Model()), Succeeded(req, items)).issued
    {
      var signalBefore := newImages;
      photos := Merge(photos, req, items);
      newImages := false;
      loading := false;
      issued := SignalChanged(signalBefore);
    }

    /** The catch branch of fetchImages: clear the signal and the loading flag,
        keep the photos. */
    method FetchFailed(req: Request) returns (issued: seq<Request>)
      requires Valid()
      modifies this
      ensures Valid()
      ensures Model() == Dispatch(old(Model()), Failed(req)).next
      ensures issued == Dispatch(old(Model()), Failed(req)).issued
    {
      var signalBefore := newImages;
      newImages := false;
      loading := false;
      issued := SignalChanged(signalBefore);
    }
  }
}
