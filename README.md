# DataJud tool adapter — a Dafny model

The DataJud adapter is a small HTTP service. It exposes three tools for a
public court-records search service: `buscar_por_numero` (look up one case by
its CNJ number), `buscar_por_classe` (list cases with a class code) and
`movimentacoes` (the movement history of one case). Each tool call goes through
the same steps:

1. normalise the payload (a flat object, or one wrapped under `arguments`);
2. default the index alias to `api_publica_tjrj`;
3. build one search body;
4. POST it to `<base>/<alias>/_search`, with an `APIKey` authorization header
   when a key is configured;
5. turn an upstream status of 400 or more into an error;
6. take the result from the hits and wrap it in a `{"ok": true, ...}` envelope.

The model covers this request-shaping and result-extraction layer as pure
functions over a JSON value datatype:

- `json.dfy` (module `Json`): JSON values, Python's truth value and `dict.get`.
- `text.dfy` (module `Text`): `str.strip()`.
- `errors.dfy` (module `Errors`): the failures a call can end in.
- `upstream.dfy` (module `Upstream`): the key, headers, URL and status check of
  the single upstream call.
- `tools.dfy` (module `Tools`): arguments, query bodies, hit extraction,
  envelopes, the three handlers, and lemmas that give each tool's exact
  answer for a well-formed search result.

Python's `None` and JSON `null` are the same value, so `JNull` stands for
both. Python exceptions become `Err` values: a `KeyError` for a missing
argument, a `TypeError` or `AttributeError` on an unexpected shape, and the
`HTTPException` raised for an upstream error. The network exchange is the
parameter `upstream: Request -> Response`, which gives the status, raw text and
parsed body the service returns for a request. The API key is a parameter.

## Model

| member | source | states |
|---|---|---|
| `Json.Get` | mcp_datajud_server.py:83 | `d.get(k, default)` is the stored value when the key is present and the default otherwise |
| `Json.FalsyValues` | mcp_datajud_server.py:96 | `if not v` holds exactly for null, false, 0, "", [] and {} |
| `Text.TrimStart` | mcp_datajud_server.py:90 | the result is a suffix of the input; only whitespace was removed before it; it does not start with whitespace |
| `Text.TrimEnd` | mcp_datajud_server.py:90 | the result is a prefix of the input; only whitespace was removed after it; it does not end with whitespace |
| `Text.TrimmedCore` | mcp_datajud_server.py:90 | stripping the start and then the end gives a trimmed core that only whitespace surrounded |
| `Text.Strip` | mcp_datajud_server.py:90 | the result has no surrounding whitespace, and the input is the result with only whitespace added on either side |
| `Text.TrimStartPast` | mcp_datajud_server.py:90 | dropping leading whitespace stops exactly at the first non-space character |
| `Text.TrimEndPast` | mcp_datajud_server.py:90 | dropping trailing whitespace stops exactly after the last non-space character |
| `Text.StripUnique` | mcp_datajud_server.py:90 | any trimmed core surrounded only by whitespace is what `strip` returns |
| `Text.StripIdempotent` | mcp_datajud_server.py:116 | stripping an already stripped case number changes nothing |
| `Text.StripAllSpace` | mcp_datajud_server.py:11 | a whitespace-only value strips to "" |
| `Text.StripKeepsTrimmed` | mcp_datajud_server.py:90 | a value without surrounding whitespace is left unchanged |
| `Upstream.ConfiguredKey` | mcp_datajud_server.py:11 | the key is the variable's value with only surrounding whitespace removed, and is itself trimmed; it is "" when the variable is unset or blank, and the value itself when already trimmed |
| `Upstream.Headers` | mcp_datajud_server.py:65-72 | `Content-Type: application/json` is always present; `Authorization: APIKey <key>` is present if and only if the key is non-empty; there is no other header |
| `Upstream.SearchUrl` | mcp_datajud_server.py:75 | the URL is the base address, `/`, the alias, then `/_search`, piece by piece |
| `Upstream.AliasOfUrl` | mcp_datajud_server.py:75 | any alias read back from a URL rebuilds that same URL |
| `Upstream.AliasOfSearchUrl` | mcp_datajud_server.py:75 | the alias can be read back from the URL built for it |
| `Upstream.SearchUrlInjective` | mcp_datajud_server.py:75 | different aliases give different search URLs |
| `Upstream.Classify` | mcp_datajud_server.py:78-80 | the call fails if and only if the status is at least 400, with that status and `"Erro DataJud: " + body text`; below 400 the parsed body passes through unchanged |
| `Upstream.SearchRequest` | mcp_datajud_server.py:74-77 | the request goes to the search endpoint from which exactly the given alias reads back, with the key's headers and the body unchanged |
| `Upstream.PostSearch` | mcp_datajud_server.py:74-80 | one request for the alias and body; an answer with status 400 or more is that upstream error with its text, any other answer gives its parsed body |
| `Tools.Arguments` | mcp_datajud_server.py:89 | the arguments are `payload["arguments"]` when that key exists, otherwise the whole payload |
| `Tools.ResolveAlias` | mcp_datajud_server.py:91 | an absent or falsy alias becomes `api_publica_tjrj`, a truthy string alias is kept, and the resolved alias is never empty |
| `Tools.NumberArguments` | mcp_datajud_server.py:89-91 | non-object arguments, a missing `numero_cnj` and a non-string `numero_cnj` are the matching errors; a string `numero_cnj` succeeds if and only if the alias resolves; on success the number is the stripped `numero_cnj` (so it is trimmed) and the alias is the resolved one |
| `Tools.ClassArguments` | mcp_datajud_server.py:102-105 | non-object arguments, a missing or non-integer `classe_codigo` and a non-integer `size` are the matching errors; with both well typed the call succeeds if and only if the alias resolves; on success the class is the given code, the size the given one or 10 when absent, the alias the resolved one |
| `Tools.NumberQuery` | mcp_datajud_server.py:93 | the body is exactly `{"query":{"match":{"numeroProcesso":n}},"size":1}`, stated key set by key set and leaf by leaf |
| `Tools.HistoryQuery` | mcp_datajud_server.py:119-123 | the body is the number lookup's body plus `_source.includes` = numeroProcesso, movimentos, classe, orgaoJulgador, tribunal, and nothing else |
| `Tools.ClassQuery` | mcp_datajud_server.py:107 | the body is exactly `{"query":{"term":{"classe.codigo":c}},"size":size}` |
| `Tools.HitList` | mcp_datajud_server.py:83 | a non-object answer or a non-object `hits` is malformed; an absent `hits` gives []; otherwise the inner `hits`, or [] when that is absent |
| `Tools.FirstHit` | mcp_datajud_server.py:82-84 | for any answer: a malformed one is an error; a falsy hit list gives null; a first hit that is an object gives its `_source` (null when missing), any other first hit is an error; a non-null result is always the first hit's `_source` |
| `Tools.Sources` | mcp_datajud_server.py:110 | no more entries than hits; every entry is the `_source` of some hit that has one; every hit's `_source` appears |
| `Tools.SourcesAppend` | mcp_datajud_server.py:110 | the listing keeps hit order: the sources of two runs of hits are concatenated |
| `Tools.SourcesAllKeyed` | mcp_datajud_server.py:110 | when every hit has a `_source`, entry i is hit i's source, null sources included |
| `Tools.ClassResults` | mcp_datajud_server.py:109-110 | for any answer: a malformed answer or a hit list that is not an array is an error; an array of object hits gives exactly their sources; an array with a non-object hit is an error |
| `Tools.NumberEnvelope` | mcp_datajud_server.py:96-98 | `ok` is true; `result` is null if and only if the source is falsy (null, false, 0, "", [] or {}; a missing source is null), and otherwise it is the source unchanged |
| `Tools.ClassEnvelope` | mcp_datajud_server.py:111 | `ok` is true; `results` is the listing and `count` its length |
| `Tools.HistoryEnvelope` | mcp_datajud_server.py:126-127 | `ok` is true and the number is echoed; `movimentos` is [] without a truthy source, otherwise the source's `movimentos` or [] when that key is absent; a truthy non-object source is an error |
| `Tools.NumberResponse` | mcp_datajud_server.py:95-98 | a built answer has `ok` true and a `result` that is null or truthy, never an empty object |
| `Tools.ClassResponse` | mcp_datajud_server.py:109-111 | a built answer has `ok` true and `count` equal to the length of `results` |
| `Tools.HistoryResponse` | mcp_datajud_server.py:125-127 | a built answer has `ok` true and echoes the case number |
| `Tools.NumberResponseOfAnswer` | mcp_datajud_server.py:95-98 | for any answer whose hit list `hits` is empty or starts with an object hit, the result is the first hit's source, or null when there is no hit, no source or a falsy source |
| `Tools.ClassResponseOfAnswer` | mcp_datajud_server.py:109-111 | for any answer whose hit list `hits` holds only object hits, the listing holds the sources of the hits that have one, in order, with their count, which is at most the number of hits |
| `Tools.HistoryResponseOfAnswer` | mcp_datajud_server.py:125-127 | for any answer whose hit list `hits` is empty or starts with an object hit, and whose truthy first source is an object, `movimentos` is the first source's `movimentos`, or [] when there is no usable source or the key is absent |
| `Tools.BuscarPorNumero` | mcp_datajud_server.py:87-98 | argument errors come before any call; the request goes to the resolved alias with the number query; a status of 400 or more is returned as that upstream error; below 400 the answer is built from the parsed body |
| `Tools.BuscarPorClasse` | mcp_datajud_server.py:100-111 | the same three steps, with the class query |
| `Tools.Movimentacoes` | mcp_datajud_server.py:113-127 | the same three steps, with the history query, and the answer echoes the stripped case number |
| `Tools.DefaultIndex` | mcp_datajud_server.py:91 | a payload without an alias is sent to the default index by all three tools |
| `Tools.PlainNumberArguments` | mcp_datajud_server.py:89-91 | a flat payload with only a string `numero_cnj` is accepted, with the stripped number and the default alias |
| `Tools.NoHitsNull` | mcp_datajud_server.py:87-98 | for any payload whose arguments are accepted (flat or wrapped, with or without an alias), an answer below 400 with no hit gives `{"ok": true, "result": null}` |
| `Tools.NoHitsNoMovements` | mcp_datajud_server.py:113-127 | for any payload whose arguments are accepted, an answer below 400 with no hit gives the stripped number and an empty `movimentos` |
| `Tools.ClassListing` | mcp_datajud_server.py:100-111 | a listing by class with no size or alias asks the default index for 10 hits and returns the sources of the object hits, in order, with their count |
| `Tools.NumberLookupExample` | mcp_datajud_server.py:87-98 | looking up `0001234-56.2020.8.19.0001` against an answer (with timing and total) whose one hit holds the record returns that record unchanged |

## Left out

- The HTTP exchange itself is left out: the `httpx.AsyncClient`, the 30 s / 15 s timeouts, serialising the body with `json.dumps` and parsing the answer with `r.json()`. The exchange is the `upstream` parameter. A body that is not valid JSON is not modelled.
- FastAPI routing, `async`/`await`, and how an exception becomes an HTTP status are left out. Failures are `Err` values. For errors other than the upstream one, the status the client sees is not modelled.
- The `/sse` discovery stream and its keep-alive loop are left out: they are long-lived streaming, disconnect polling and sleeping. The `/health` endpoint and the static `TOOLS` catalog are left out too: they are constant data.
- Reading the environment is left out: `Upstream.ConfiguredKey` takes the environment as a map, and the handlers take the key as a parameter.
- `Tools.NumberArguments` does not model Python's `str()` coercion: a non-string `numero_cnj` is an `UnsupportedValue` error, while Python would convert it to text.
- `Tools.ResolveAlias` does not model `str()` either: a truthy alias that is not a string is an error, while Python would convert it.
- `Tools.ClassArguments` does not model `int()` coercion: `classe_codigo` and `size` must be JSON integers. Python would also accept booleans, numeric strings and floats.
- JSON floating-point numbers are not part of the value datatype.
- `Text.Strip` removes only whitespace in the ASCII range: tab through carriage return, the four separators 0x1C-0x1F, and space. Unicode whitespace above that range, which Python also strips, is not modelled.
- `Tools.ClassResults` treats a hit list that is not an array, and every hit that is not an object, as a malformed answer. Python iterates a string or object hit list by characters or keys and returns an empty listing where the model gives an error; it raises, as the model does, when an object hit list has a key containing `_source`. For a single hit in an array, Python raises for most non-objects but silently skips one for which `"_source" in h` is false, such as a list without that string.
