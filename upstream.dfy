/** Configuration and the single upstream call: `_headers`, and the URL and
    status handling of `_post_search`. The network exchange itself is the
    parameter `upstream`, the answer the search service gives to a request. */
module Upstream {
  import opened Json
  import opened Errors
  import Text

  const DATAJUD_BASE: string := "https://api-publica.datajud.cnj.jus.br"
  const DEFAULT_ALIAS: string := "api_publica_tjrj"
  const SEARCH_SUFFIX: string := "/_search"
  const KEY_VARIABLE: string := "DATAJUD_API_KEY"

  /** A POST the adapter sends: target URL, headers and JSON body. */
  datatype Request = Request(url: string, headers: map<string, string>, body: Json)

  /** What comes back: the status code, the raw body text and its parsed JSON. */
  datatype Response = Response(status: int, text: string, body: Json)

  /** The API key read once at start-up: the environment variable with
      surrounding whitespace removed, or "" when it is not set. */
  function ConfiguredKey(env: map<string, string>): (key: string)
    ensures Text.Trimmed(key)
    ensures KEY_VARIABLE !in env ==> key == ""
    ensures KEY_VARIABLE in env && Text.AllSpace(env[KEY_VARIABLE]) ==> key == ""
    ensures KEY_VARIABLE in env && Text.Trimmed(env[KEY_VARIABLE]) ==> key == env[KEY_VARIABLE]
    ensures KEY_VARIABLE in env ==> exists pre, post :: Text.Surrounds(pre, key, post, env[KEY_VARIABLE])
  {
    var raw := if KEY_VARIABLE in env then env[KEY_VARIABLE] else "";
    assert Text.AllSpace(raw) ==> Text.Strip(raw) == [] by {
      if Text.AllSpace(raw) { Text.StripAllSpace(raw); }
    }
    assert Text.Trimmed(raw) ==> Text.Strip(raw) == raw by {
      if Text.Trimmed(raw) { Text.StripKeepsTrimmed(raw); }
    }
    Text.Strip(raw)
  }

  /** `_headers()`: always a JSON content type; an `APIKey` authorization
      exactly when a key is configured; no other header. */
  function Headers(key: string): (h: map<string, string>)
    ensures "Content-Type" in h && h["Content-Type"] == "application/json"
    ensures "Authorization" in h <==> key != ""
    ensures "Authorization" in h ==> h["Authorization"] == "APIKey " + key
    ensures h.Keys <= {"Content-Type", "Authorization"}
  {
    if key == "" then map["Content-Type" := "application/json"]
    else map["Authorization" := "APIKey " + key, "Content-Type" := "application/json"]
  }

  /** The search endpoint of an index: the base address, a slash, the alias,
      then `/_search`. */
  function SearchUrl(alias: string): (url: string)
    ensures |url| == |DATAJUD_BASE| + 1 + |alias| + |SEARCH_SUFFIX|
    ensures url[..|DATAJUD_BASE| + 1] == DATAJUD_BASE + "/"
    ensures url[|DATAJUD_BASE| + 1..|url| - |SEARCH_SUFFIX|] == alias
    ensures url[|url| - |SEARCH_SUFFIX|..] == SEARCH_SUFFIX
  {
    DATAJUD_BASE + "/" + alias + SEARCH_SUFFIX
  }

  /** Reads the alias back out of a search URL; None for any other URL. */
  function AliasOfUrl(url: string): (alias: Option<string>)
    ensures alias.Some? ==> SearchUrl(alias.value) == url
  {
    var head := DATAJUD_BASE + "/";
    if |url| >= |head| + |SEARCH_SUFFIX|
       && url[..|head|] == head
       && url[|url| - |SEARCH_SUFFIX|..] == SEARCH_SUFFIX
    then
      var a := url[|head|..|url| - |SEARCH_SUFFIX|];
      assert url == url[..|head|] + a + url[|url| - |SEARCH_SUFFIX|..];
      Some(a)
    else None
  }

  /** Every search URL names its alias: the URL determines the index queried. */
  lemma AliasOfSearchUrl(alias: string)
    ensures AliasOfUrl(SearchUrl(alias)) == Some(alias)
  {
    var url := SearchUrl(alias);
    assert url[..|DATAJUD_BASE + "/"|] == DATAJUD_BASE + "/";
  }

  /** Two different aliases never reach the same endpoint. */
  lemma SearchUrlInjective(a: string, b: string)
    ensures SearchUrl(a) == SearchUrl(b) ==> a == b
  {
    AliasOfSearchUrl(a);
    AliasOfSearchUrl(b);
  }

  /** The request `_post_search` sends for an alias and a query body: to the
      search endpoint of that alias (which names no other alias), with the
      headers of the key and the body as given. */
  function SearchRequest(key: string, alias: string, body: Json): (rq: Request)
    ensures AliasOfUrl(rq.url) == Some(alias)
    ensures rq.headers == Headers(key) && rq.body == body
  {
    AliasOfSearchUrl(alias);
    Request(SearchUrl(alias), Headers(key), body)
  }

  /** The status check of `_post_search`: 400 and above is an error that
      carries the status and the body text; below 400 the parsed body
      passes through unchanged. */
  function Classify(resp: Response): (r: Result<Json>)
    ensures r.Err? <==> resp.status >= 400
    ensures r.Err? ==> r.error == Upstream(resp.status, "Erro DataJud: " + resp.text)
    ensures r.Ok? ==> r.value == resp.body
  {
    if resp.status >= 400 then Err(Upstream(resp.status, "Erro DataJud: " + resp.text))
    else Ok(resp.body)
  }

  /** `_post_search(alias, body)` against the service `upstream`: exactly one
      request, to the alias's endpoint; an answer of 400 or more is that
      upstream error, any other answer its parsed body. */
  function PostSearch(key: string, alias: string, body: Json,
                      upstream: Request -> Response): (r: Result<Json>)
    ensures var resp := upstream(SearchRequest(key, alias, body));
      && (r.Err? <==> resp.status >= 400)
      && (r.Err? ==> r.error == Upstream(resp.status, "Erro DataJud: " + resp.text))
      && (r.Ok? ==> r.value == resp.body)
  {
    Classify(upstream(SearchRequest(key, alias, body)))
  }
}
