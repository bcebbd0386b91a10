/**
 * The site as the crawler sees it. Fetching and HTML parsing are external
 * collaborators: every URL maps to one response, already taken apart into the
 * pieces the analysis reads, and the same snapshot answers every request made
 * for that URL.
 */
module Page {
  import opened Wrappers
  import opened Text

  type Url = string

  /** One HTTP response, with what BeautifulSoup extracts from its body. */
  datatype Response = Response(
    status: int,
    headers: map<string, string>,  // field names lower-cased: requests' headers are case-insensitive
    bodyLength: nat,               // len(response.content)
    anchors: seq<string>,          // href of every <a href=...>, in document order
    scripts: seq<string>,          // src of every <script src=...>
    linkHrefs: seq<string>,        // href of every <link href=...>
    comments: seq<string>,         // the text of every HTML comment
    imgTags: nat,                  // number of <img> elements
    styles: seq<string>,           // value of every style attribute
    text: string)                  // the stripped text nodes joined with single spaces

  /** A URL without an entry is one whose request raises (connection error,
      timeout, retries exhausted). */
  type Site = map<Url, Response>

  /** `session.get(url)`: the response, or None when the request raises. */
  function Get(site: Site, url: Url): Option<Response> {
    if url in site then Some(site[url]) else None
  }

  /** `raise_for_status()` raises for client and server error statuses. */
  predicate RaisesForStatus(r: Response) {
    400 <= r.status < 600
  }

  /** `session.get(url)` and then `raise_for_status()` both return normally. */
  predicate Fetches(site: Site, url: Url) {
    url in site && !RaisesForStatus(site[url])
  }

  /** `response.headers.get(name, default)`; `name` is given lower-cased. */
  function HeaderOr(r: Response, name: string, default: string): string {
    if name in r.headers then r.headers[name] else default
  }

  /** `int(response.headers['Content-Length'])` can only be read when the
      header, if present, is a run of decimal digits. */
  predicate ContentLengthNumeric(r: Response) {
    "content-length" in r.headers ==> IsDecimal(r.headers["content-length"])
  }

  /** Bytes one page adds to the bandwidth total: the declared Content-Length
      when the header is present, otherwise the length of the body. A header
      of `k` digits declares fewer than `10^k` bytes, whatever the body. */
  function Bandwidth(r: Response): (n: nat)
    requires ContentLengthNumeric(r)
    ensures "content-length" in r.headers ==> n < Pow10(|r.headers["content-length"]|)
    ensures "content-length" !in r.headers ==> n == r.bodyLength
  {
    if "content-length" in r.headers then
      DecimalValueBound(r.headers["content-length"]);
      DecimalValue(r.headers["content-length"])
    else r.bodyLength
  }

  /** A declared Content-Length of 1024 wins over a 500-byte body. */
  lemma BandwidthPrefersHeader(r: Response)
    requires r.headers == map["content-length" := "1024"] && r.bodyLength == 500
    ensures ContentLengthNumeric(r) && Bandwidth(r) == 1024
  {
    assert IsDecimal("1024");
    assert "1024"[..3] == "102" && "102"[..2] == "10" && "10"[..1] == "1" && "1"[..0] == "";
    assert DecimalValue("1024") == DecimalValue("102") * 10 + 4;
    assert DecimalValue("102") == DecimalValue("10") * 10 + 2;
    assert DecimalValue("10") == DecimalValue("1") * 10;
    assert DecimalValue("1") == DecimalValue("") * 10 + 1;
  }
}
