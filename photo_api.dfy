/** The photo API client: the two endpoint URLs, the access-key parameter and the
    request URL that one fetch sends, together with a parser that recovers the
    page and the search term from such a URL. */
module PhotoApi {

  datatype Option<T> = None | Some(value: T)

  /** The curated-feed endpoint. */
  const MainUrl: string := "https://api.unsplash.com/photos/"
  /** The search endpoint. */
  const SearchUrl: string := "https://api.unsplash.com/search/photos/"

  /** The parameters one fetch was issued with: the page number and the search
      term (empty for the curated feed). */
  datatype Request = Request(page: nat, query: string)

  /** The first query parameter, carrying the access key verbatim. */
  function ClientId(key: string): string {
    "?client_id=" + key
  }

  predicate IsDigit(c: char) {
    '0' <= c <= '9'
  }

  function DigitChar(d: nat): (c: char)
    requires d < 10
    ensures IsDigit(c)
  {
    (48 + d) as char
  }

  function DigitValue(c: char): (d: nat)
    requires IsDigit(c)
    ensures d < 10 && DigitChar(d) == c
  {
    c as int - 48
  }

  /** The decimal rendering of a page number, as a template literal renders an
      integer: digits only, never empty, no leading zero. */
  function Decimal(n: nat): (s: string)
    ensures |s| > 0
    ensures forall i :: 0 <= i < |s| ==> IsDigit(s[i])
    ensures n > 0 ==> s[0] != '0'
    ensures n < 10 <==> |s| == 1
  {
    if n < 10 then [DigitChar(n)] else Decimal(n / 10) + [DigitChar(n % 10)]
  }

  /** The number a string of decimal digits denotes. */
  function DigitsValue(s: string): nat
    requires forall i :: 0 <= i < |s| ==> IsDigit(s[i])
  {
    if s == [] then 0 else DigitsValue(s[..|s| - 1]) * 10 + DigitValue(s[|s| - 1])
  }

  lemma {:induction false} DecimalRoundTrip(n: nat)
    ensures DigitsValue(Decimal(n)) == n
  {
    var s := Decimal(n);
    if n < 10 {
      assert s[..|s| - 1] == [];
    } else {
      assert s[..|s| - 1] == Decimal(n / 10);
      DecimalRoundTrip(n / 10);
    }
  }

  /** The length of the longest run of digits that starts the string. */
  function LeadingDigits(s: string): (k: nat)
    ensures k <= |s|
    ensures forall i :: 0 <= i < k ==> IsDigit(s[i])
    ensures k < |s| ==> !IsDigit(s[k])
  {
    if s == [] || !IsDigit(s[0]) then 0 else 1 + LeadingDigits(s[1..])
  }

  /** The URL one fetch requests (App.jsx, fetchImages): the search endpoint
      with the page and the term when the term is non-empty, otherwise the
      curated endpoint with the page only. The term is not percent-encoded. */
  function BuildUrl(key: string, page: nat, query: string): (url: string)
    ensures query != "" ==> SearchUrl <= url
    ensures query == "" ==> MainUrl <= url
  {
    if query != "" then
      SearchUrl + ClientId(key) + "&page=" + Decimal(page) + "&query=" + query
    else
      MainUrl + ClientId(key) + "&page=" + Decimal(page)
  }

  /** What a search URL holds after its fixed prefix: the page digits, then the
      term parameter. */
  function ParseSearchTail(rest: string): Option<Request> {
    var k := LeadingDigits(rest);
    var tail := rest[k..];
    if 0 < k && "&query=" <= tail && |tail| > 7 then
      Some(Request(DigitsValue(rest[..k]), tail[7..]))
    else
      None
  }

  /** What a curated-feed URL holds after its fixed prefix: the page digits and
      nothing else. */
  function ParseFeedTail(rest: string): Option<Request> {
    if 0 < LeadingDigits(rest) == |rest| then Some(Request(DigitsValue(rest), "")) else None
  }

  /** Reads back the page and the term from a URL built with the given key;
      None for anything that is not such a URL. */
  function ParseUrl(key: string, url: string): Option<Request> {
    var search := SearchUrl + ClientId(key) + "&page=";
    var main := MainUrl + ClientId(key) + "&page=";
    if search <= url then ParseSearchTail(url[|search|..])
    else if main <= url then ParseFeedTail(url[|main|..])
    else None
  }

  /** The digit run of `d + rest` is exactly `d` when `rest` does not start
      with a digit. */
  lemma DigitsThenOther(d: string, rest: string)
    requires forall i :: 0 <= i < |d| ==> IsDigit(d[i])
    requires rest == [] || !IsDigit(rest[0])
    ensures LeadingDigits(d + rest) == |d|
    ensures (d + rest)[..|d|] == d && (d + rest)[|d|..] == rest
  {
  }

  /** The curated-feed URL and the search URL never share the other's prefix. */
  lemma EndpointsDiffer(x: string, y: string)
    ensures !(SearchUrl + x <= MainUrl + y)
  {
    var a := SearchUrl + x;
    var b := MainUrl + y;
    assert a[25] == 's' && b[25] == 'p';
  }

  lemma SearchTailRoundTrip(page: nat, query: string)
    requires query != ""
    ensures ParseSearchTail(Decimal(page) + "&query=" + query) == Some(Request(page, query))
  {
    var d := Decimal(page);
    var tail := "&query=" + query;
    var rest := d + tail;
    DigitsThenOther(d, tail);
    DecimalRoundTrip(page);
    assert rest == Decimal(page) + "&query=" + query;
    assert rest[..|d|] == d && rest[|d|..] == tail;
    assert "&query=" <= tail && tail[7..] == query;
  }

  lemma SearchUrlRoundTrip(key: string, page: nat, query: string)
    requires query != ""
    ensures ParseUrl(key, BuildUrl(key, page, query)) == Some(Request(page, query))
  {
    var url := BuildUrl(key, page, query);
    var search := SearchUrl + ClientId(key) + "&page=";
    var rest := Decimal(page) + "&query=" + query;
    assert url == search + rest;
    assert url[|search|..] == rest;
    SearchTailRoundTrip(page, query);
  }

  lemma CuratedUrlRoundTrip(key: string, page: nat)
    ensures ParseUrl(key, BuildUrl(key, page, "")) == Some(Request(page, ""))
  {
    var url := BuildUrl(key, page, "");
    var main := MainUrl + ClientId(key) + "&page=";
    var d := Decimal(page);
    assert url == main + d;
    EndpointsDiffer(ClientId(key) + "&page=", ClientId(key) + "&page=" + d);
    var rest := url[|main|..];
    assert rest == d;
    DigitsThenOther(d, "");
    assert d + "" == d;
    DecimalRoundTrip(page);
  }

  /** Every URL a fetch builds is read back to exactly the page and term it was
      built from: the curated URL carries no search term. */
  lemma UrlRoundTrip(key: string, page: nat, query: string)
    ensures ParseUrl(key, BuildUrl(key, page, query)) == Some(Request(page, query))
  {
    if query != "" {
      SearchUrlRoundTrip(key, page, query);
    } else {
      CuratedUrlRoundTrip(key, page);
    }
  }

  /** Distinct requests give distinct URLs. */
  lemma UrlInjective(key: string, p1: nat, q1: string, p2: nat, q2: string)
    requires BuildUrl(key, p1, q1) == BuildUrl(key, p2, q2)
    ensures p1 == p2 && q1 == q2
  {
    UrlRoundTrip(key, p1, q1);
    UrlRoundTrip(key, p2, q2);
  }
}
