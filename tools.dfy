/** The three tool handlers of the adapter, `buscar_por_numero`,
    `buscar_por_classe` and `movimentacoes`: argument normalisation, the query
    body each one sends, the extraction of hits from the answer and the
    response envelope. Each handler is a function of the configured key, the
    request payload and the upstream service. */
module Tools {
  import opened Json
  import opened Errors
  import opened Upstream
  import Text

  // ---------------------------------------------------------------------
  // Arguments

  /** `payload.get("arguments", payload)`: a wrapped call and a flat call are
      both accepted. */
  function Arguments(payload: map<string, Json>): (args: Json)
    ensures "arguments" in payload ==> args == payload["arguments"]
    ensures "arguments" !in payload ==> args == JObject(payload)
  {
    Get(payload, "arguments", JObject(payload))
  }

  /** `args.get("alias") or DEFAULT_ALIAS`: an absent or falsy alias falls back
      to the default index, so the alias used is never empty. */
  function ResolveAlias(args: map<string, Json>): (r: Result<string>)
    ensures "alias" !in args || !Truthy(args["alias"]) ==> r == Ok(DEFAULT_ALIAS)
    ensures "alias" in args && args["alias"].JString? && Truthy(args["alias"])
      ==> r == Ok(args["alias"].s)
    ensures "alias" in args && !args["alias"].JString? && Truthy(args["alias"])
      ==> r == Err(UnsupportedValue("alias"))
    ensures r.Ok? ==> r.value != ""
  {
    var given := Get(args, "alias", JNull);
    if !Truthy(given) then Ok(DEFAULT_ALIAS)
    else match given
      case JString(s) => Ok(s)
      case _ => Err(UnsupportedValue("alias"))
  }

  /** The arguments of the two lookups by case number. */
  datatype NumberArgs = NumberArgs(numero: string, alias: string)

  /** The argument handling shared by `buscar_por_numero` and
      `movimentacoes`: the case number with surrounding whitespace removed,
      then the alias. */
  function NumberArguments(payload: map<string, Json>): (r: Result<NumberArgs>)
    ensures !Arguments(payload).JObject? ==> r == Err(ArgumentsNotObject)
    ensures Arguments(payload).JObject? && "numero_cnj" !in Arguments(payload).fields
      ==> r == Err(MissingArgument("numero_cnj"))
    ensures Arguments(payload).JObject? && "numero_cnj" in Arguments(payload).fields
            && !Arguments(payload).fields["numero_cnj"].JString?
      ==> r == Err(UnsupportedValue("numero_cnj"))
    ensures Arguments(payload).JObject? && "numero_cnj" in Arguments(payload).fields
            && Arguments(payload).fields["numero_cnj"].JString?
      ==> (r.Ok? <==> ResolveAlias(Arguments(payload).fields).Ok?)
    ensures r.Ok? ==>
      && Arguments(payload).JObject?
      && "numero_cnj" in Arguments(payload).fields
      && Arguments(payload).fields["numero_cnj"].JString?
      && r.value.numero == Text.Strip(Arguments(payload).fields["numero_cnj"].s)
      && Text.Trimmed(r.value.numero)
      && ResolveAlias(Arguments(payload).fields) == Ok(r.value.alias)
  {
    match Arguments(payload)
    case JObject(args) =>
      if "numero_cnj" !in args then Err(MissingArgument("numero_cnj"))
      else if !args["numero_cnj"].JString? then Err(UnsupportedValue("numero_cnj"))
      else
        var alias :- ResolveAlias(args);
        Ok(NumberArgs(Text.Strip(args["numero_cnj"].s), alias))
    case _ => Err(ArgumentsNotObject)
  }

  /** The arguments of the listing by class. */
  datatype ClassArgs = ClassArgs(classe: int, size: int, alias: string)

  /** The argument handling of `buscar_por_classe`: the class code, the page
      size (10 when absent), then the alias. */
  function ClassArguments(payload: map<string, Json>): (r: Result<ClassArgs>)
    ensures !Arguments(payload).JObject? ==> r == Err(ArgumentsNotObject)
    ensures Arguments(payload).JObject? && "classe_codigo" !in Arguments(payload).fields
      ==> r == Err(MissingArgument("classe_codigo"))
    ensures Arguments(payload).JObject? && "classe_codigo" in Arguments(payload).fields
            && !Arguments(payload).fields["classe_codigo"].JInt?
      ==> r == Err(UnsupportedValue("classe_codigo"))
    ensures Arguments(payload).JObject? && "classe_codigo" in Arguments(payload).fields
            && Arguments(payload).fields["classe_codigo"].JInt?
            && "size" in Arguments(payload).fields
            && !Arguments(payload).fields["size"].JInt?
      ==> r == Err(UnsupportedValue("size"))
    ensures Arguments(payload).JObject? && "classe_codigo" in Arguments(payload).fields
            && Arguments(payload).fields["classe_codigo"].JInt?
            && ("size" in Arguments(payload).fields ==> Arguments(payload).fields["size"].JInt?)
      ==> (r.Ok? <==> ResolveAlias(Arguments(payload).fields).Ok?)
    ensures r.Ok? ==>
      && Arguments(payload).JObject?
      && "classe_codigo" in Arguments(payload).fields
      && Arguments(payload).fields["classe_codigo"] == JInt(r.value.classe)
      && ("size" !in Arguments(payload).fields ==> r.value.size == 10)
      && ("size" in Arguments(payload).fields
          ==> Arguments(payload).fields["size"] == JInt(r.value.size))
      && ResolveAlias(Arguments(payload).fields) == Ok(r.value.alias)
  {
    match Arguments(payload)
    case JObject(args) =>
      if "classe_codigo" !in args then Err(MissingArgument("classe_codigo"))
      else if !args["classe_codigo"].JInt? then Err(UnsupportedValue("classe_codigo"))
      else
        var size := Get(args, "size", JInt(10));
        if !size.JInt? then Err(UnsupportedValue("size"))
        else
          var alias :- ResolveAlias(args);
          Ok(ClassArgs(args["classe_codigo"].i, size.i, alias))
    case _ => Err(ArgumentsNotObject)
  }

  // ---------------------------------------------------------------------
  // Query bodies

  /** The value at `path` is an object with exactly the keys `keys`. */
  predicate KeysAt(v: Json, path: seq<string>, keys: set<string>) {
    var at := Lookup(v, path);
    at.Some? && at.value.JObject? && at.value.fields.Keys == keys
  }

  /** One step of `Lookup` spelled out. */
  lemma LookupPath1(v: Json, k1: string)
    ensures Lookup(v, [k1]) ==
      if v.JObject? && k1 in v.fields then Some(v.fields[k1]) else None
  {
    assert [k1][1..] == [];
  }

  /** Two steps of `Lookup`: the first key, then the rest of the path. */
  lemma LookupPath2(v: Json, k1: string, k2: string)
    ensures Lookup(v, [k1, k2]) ==
      if v.JObject? && k1 in v.fields then Lookup(v.fields[k1], [k2]) else None
  {
    assert [k1, k2][1..] == [k2];
  }

  /** Three steps of `Lookup`: the first key, then the rest of the path. */
  lemma LookupPath3(v: Json, k1: string, k2: string, k3: string)
    ensures Lookup(v, [k1, k2, k3]) ==
      if v.JObject? && k1 in v.fields then Lookup(v.fields[k1], [k2, k3]) else None
  {
    assert [k1, k2, k3][1..] == [k2, k3];
  }

  /** The body of a lookup by case number: a `match` on `numeroProcesso`,
      one hit. */
  function NumberQuery(numero: string): (q: Json)
    ensures KeysAt(q, [], {"query", "size"})
    ensures KeysAt(q, ["query"], {"match"})
    ensures KeysAt(q, ["query", "match"], {"numeroProcesso"})
    ensures Lookup(q, ["query", "match", "numeroProcesso"]) == Some(JString(numero))
    ensures Lookup(q, ["size"]) == Some(JInt(1))
  {
    var leaf := JObject(map["numeroProcesso" := JString(numero)]);
    var inner := JObject(map["match" := leaf]);
    var q := JObject(map["query" := inner, "size" := JInt(1)]);
    LookupPath3(q, "query", "match", "numeroProcesso");
    LookupPath2(inner, "match", "numeroProcesso");
    LookupPath1(leaf, "numeroProcesso");
    LookupPath2(q, "query", "match");
    LookupPath1(q, "size");
    LookupPath1(q, "query");
    q
  }

  /** The fields the movement history asks the service to return. */
  const HISTORY_FIELDS: seq<Json> := [
    JString("numeroProcesso"), JString("movimentos"), JString("classe"),
    JString("orgaoJulgador"), JString("tribunal")]

  /** The body of `movimentacoes`: the lookup by case number, restricted to
      the history fields. */
  function HistoryQuery(numero: string): (q: Json)
    ensures q.JObject? && q.fields - {"_source"} == NumberQuery(numero).fields
    ensures KeysAt(q, [], {"query", "size", "_source"})
    ensures KeysAt(q, ["_source"], {"includes"})
    ensures Lookup(q, ["_source", "includes"]) == Some(JArray(HISTORY_FIELDS))
  {
    var q := JObject(NumberQuery(numero).fields["_source" := JObject(map["includes" := JArray(HISTORY_FIELDS)])]);
    LookupPath2(q, "_source", "includes");
    LookupPath1(q, "_source");
    q
  }

  /** The body of `buscar_por_classe`: a `term` on `classe.codigo` with the
      requested page size. */
  function ClassQuery(classe: int, size: int): (q: Json)
    ensures KeysAt(q, [], {"query", "size"})
    ensures KeysAt(q, ["query"], {"term"})
    ensures KeysAt(q, ["query", "term"], {"classe.codigo"})
    ensures Lookup(q, ["query", "term", "classe.codigo"]) == Some(JInt(classe))
    ensures Lookup(q, ["size"]) == Some(JInt(size))
  {
    var leaf := JObject(map["classe.codigo" := JInt(classe)]);
    var inner := JObject(map["term" := leaf]);
    var q := JObject(map["query" := inner, "size" := JInt(size)]);
    LookupPath3(q, "query", "term", "classe.codigo");
    LookupPath2(inner, "term", "classe.codigo");
    LookupPath1(leaf, "classe.codigo");
    LookupPath2(q, "query", "term");
    LookupPath1(q, "size");
    LookupPath1(q, "query");
    q
  }

  // ---------------------------------------------------------------------
  // Extraction from the search answer

  /** A search answer holding `hits`, with the timing and total the service
      also sends; used by the example at the end. The lemmas below hold for
      any answer with a given hit list. */
  function SearchResult(hits: seq<Json>): Json {
    JObject(map[
      "took" := JInt(5),
      "timed_out" := JBool(false),
      "hits" := JObject(map["total" := JObject(map["value" := JInt(|hits|)]),
                            "hits" := JArray(hits)])])
  }

  /** `data.get("hits", {}).get("hits", [])`: the hit list, or an error when
      the answer or its `hits` member is not an object. */
  function HitList(data: Json): (r: Result<Json>)
    ensures !data.JObject? ==> r == Err(MalformedResponse)
    ensures data.JObject? && "hits" !in data.fields ==> r == Ok(JArray([]))
    ensures data.JObject? && "hits" in data.fields && !data.fields["hits"].JObject?
      ==> r == Err(MalformedResponse)
    ensures data.JObject? && "hits" in data.fields && data.fields["hits"].JObject?
      ==> r == Ok(Get(data.fields["hits"].fields, "hits", JArray([])))
  {
    match data
    case JObject(top) =>
      (match Get(top, "hits", JObject(map[]))
       case JObject(outer) => Ok(Get(outer, "hits", JArray([])))
       case _ => Err(MalformedResponse))
    case _ => Err(MalformedResponse)
  }

  /** A hit that is an object with a `_source` key. */
  predicate HasSource(h: Json) {
    h.JObject? && "_source" in h.fields
  }

  /** `_first_hit`: null (Python's None) when there is no hit, otherwise the
      first hit's `_source`, itself null when that key is missing. */
  function FirstHit(data: Json): (src: Result<Json>)
    ensures HitList(data).Err? ==> src == HitList(data)
    ensures HitList(data).Ok? && !Truthy(HitList(data).value) ==> src == Ok(JNull)
    ensures HitList(data).Ok? && Truthy(HitList(data).value) && !HitList(data).value.JArray?
      ==> src == Err(MalformedResponse)
    ensures HitList(data).Ok? && HitList(data).value.JArray? && HitList(data).value.items != []
      ==> var first := HitList(data).value.items[0];
          && (first.JObject? ==> src == Ok(Get(first.fields, "_source", JNull)))
          && (!first.JObject? ==> src == Err(MalformedResponse))
    ensures src.Ok? && src.value != JNull ==>
      && HitList(data).Ok? && HitList(data).value.JArray?
      && |HitList(data).value.items| > 0
      && HasSource(HitList(data).value.items[0])
      && HitList(data).value.items[0].fields["_source"] == src.value
  {
    var items :- HitList(data);
    if !Truthy(items) then Ok(JNull)
    else match items
      case JArray(hits) =>
        (match hits[0]
         case JObject(first) => Ok(Get(first, "_source", JNull))
         case _ => Err(MalformedResponse))
      case _ => Err(MalformedResponse)
  }

  /** `[h.get("_source") for h in hits if "_source" in h]`: the `_source` of
      every hit that has one, in hit order, null sources included. */
  function Sources(hits: seq<Json>): (r: seq<Json>)
    ensures |r| <= |hits|
    ensures forall x :: x in r ==>
      exists i :: 0 <= i < |hits| && HasSource(hits[i]) && hits[i].fields["_source"] == x
    ensures forall i :: 0 <= i < |hits| && HasSource(hits[i]) ==> hits[i].fields["_source"] in r
  {
    if hits == [] then []
    else
      var rest := Sources(hits[1..]);
      assert forall i :: 1 <= i < |hits| ==> hits[i] == hits[1..][i - 1];
      if HasSource(hits[0]) then [hits[0].fields["_source"]] + rest else rest
  }

  /** The listing keeps hit order: the sources of two runs of hits are the
      sources of the first run followed by those of the second. */
  lemma {:induction false} SourcesAppend(a: seq<Json>, b: seq<Json>)
    ensures Sources(a + b) == Sources(a) + Sources(b)
  {
    if a != [] {
      assert (a + b)[1..] == a[1..] + b;
      SourcesAppend(a[1..], b);
    } else {
      assert a + b == b;
    }
  }

  /** When every hit has a `_source`, the listing has one entry per hit, in
      order, whatever the sources are (null ones too). */
  lemma {:induction false} SourcesAllKeyed(hits: seq<Json>)
    requires forall i :: 0 <= i < |hits| ==> HasSource(hits[i])
    ensures |Sources(hits)| == |hits|
    ensures forall i :: 0 <= i < |hits| ==> Sources(hits)[i] == hits[i].fields["_source"]
  {
    if hits != [] {
      SourcesAllKeyed(hits[1..]);
    }
  }

  /** The result list of `buscar_por_classe`; every hit must be an object. */
  function ClassResults(data: Json): (r: Result<seq<Json>>)
    ensures data.JObject? && "hits" !in data.fields ==> r == Ok([])
    ensures HitList(data).Err? ==> r == Err(MalformedResponse)
    ensures HitList(data).Ok? && !HitList(data).value.JArray? ==> r == Err(MalformedResponse)
    ensures HitList(data).Ok? && HitList(data).value.JArray? ==>
      var hits := HitList(data).value.items;
      && ((forall i :: 0 <= i < |hits| ==> hits[i].JObject?) ==> r == Ok(Sources(hits)))
      && ((exists i :: 0 <= i < |hits| && !hits[i].JObject?) ==> r == Err(MalformedResponse))
    ensures r.Ok? ==>
      && HitList(data).Ok? && HitList(data).value.JArray?
      && r.value == Sources(HitList(data).value.items)
  {
    var items :- HitList(data);
    match items
    case JArray(hits) =>
      if forall h | h in hits :: h.JObject? then Ok(Sources(hits)) else Err(MalformedResponse)
    case _ => Err(MalformedResponse)
  }

  // ---------------------------------------------------------------------
  // Response envelopes

  /** The answer of `buscar_por_numero`: a falsy source (missing, null or an
      empty object) becomes null; any other source is returned unchanged. */
  function NumberEnvelope(src: Json): (env: Json)
    ensures env.JObject? && env.fields.Keys == {"ok", "result"}
    ensures env.fields["ok"] == JBool(true)
    ensures env.fields["result"] == JNull <==> !Truthy(src)
    ensures Truthy(src) ==> env.fields["result"] == src
  {
    JObject(map["ok" := JBool(true), "result" := if Truthy(src) then src else JNull])
  }

  /** The answer of `buscar_por_classe`: the results and their count. */
  function ClassEnvelope(results: seq<Json>): (env: Json)
    ensures env.JObject? && env.fields.Keys == {"ok", "count", "results"}
    ensures env.fields["ok"] == JBool(true)
    ensures env.fields["results"] == JArray(results)
    ensures env.fields["count"] == JInt(|results|)
  {
    JObject(map["ok" := JBool(true), "count" := JInt(|results|), "results" := JArray(results)])
  }

  /** The answer of `movimentacoes`: the case number echoed and the source's
      `movimentos` (an empty list when there is no source or it lacks them). */
  function HistoryEnvelope(numero: string, src: Json): (r: Result<Json>)
    ensures r.Ok? ==>
      && r.value.JObject? && r.value.fields.Keys == {"ok", "numeroProcesso", "movimentos"}
      && r.value.fields["ok"] == JBool(true)
      && r.value.fields["numeroProcesso"] == JString(numero)
    ensures !Truthy(src) ==> r.Ok? && r.value.fields["movimentos"] == JArray([])
    ensures Truthy(src) && src.JObject? ==>
      r.Ok? && r.value.fields["movimentos"] == Get(src.fields, "movimentos", JArray([]))
    ensures Truthy(src) && !src.JObject? ==> r == Err(MalformedResponse)
  {
    var movimentos :-
      if !Truthy(src) then Ok(JArray([]))
      else match src
        case JObject(fields) => Ok(Get(fields, "movimentos", JArray([])))
        case _ => Err(MalformedResponse);
    Ok(JObject(map["ok" := JBool(true), "numeroProcesso" := JString(numero),
                   "movimentos" := movimentos]))
  }

  // ---------------------------------------------------------------------
  // What each tool makes of a search answer

  /** The answer `buscar_por_numero` builds from the search result. */
  function NumberResponse(data: Json): (r: Result<Json>)
    ensures r.Ok? ==>
      && r.value.JObject? && r.value.fields.Keys == {"ok", "result"}
      && r.value.fields["ok"] == JBool(true)
      && (r.value.fields["result"] == JNull || Truthy(r.value.fields["result"]))
  {
    var src :- FirstHit(data);
    Ok(NumberEnvelope(src))
  }

  /** The answer `buscar_por_classe` builds from the search result. */
  function ClassResponse(data: Json): (r: Result<Json>)
    ensures r.Ok? ==>
      && r.value.JObject? && r.value.fields.Keys == {"ok", "count", "results"}
      && r.value.fields["ok"] == JBool(true)
      && r.value.fields["results"].JArray?
      && r.value.fields["count"] == JInt(|r.value.fields["results"].items|)
  {
    var results :- ClassResults(data);
    Ok(ClassEnvelope(results))
  }

  /** The answer `movimentacoes` builds from the search result. */
  function HistoryResponse(numero: string, data: Json): (r: Result<Json>)
    ensures r.Ok? ==>
      && r.value.JObject? && r.value.fields.Keys == {"ok", "numeroProcesso", "movimentos"}
      && r.value.fields["ok"] == JBool(true)
      && r.value.fields["numeroProcesso"] == JString(numero)
  {
    var src :- FirstHit(data);
    HistoryEnvelope(numero, src)
  }

  /** For any answer whose hit list is `hits`, `buscar_por_numero` gives the
      first hit's source, or null when there is no hit, the hit has no
      source, or the source is falsy. */
  lemma NumberResponseOfAnswer(data: Json, hits: seq<Json>)
    requires HitList(data) == Ok(JArray(hits))
    requires hits == [] || hits[0].JObject?
    ensures NumberResponse(data) == Ok(JObject(map[
      "ok" := JBool(true),
      "result" := if hits != [] && HasSource(hits[0]) && Truthy(hits[0].fields["_source"])
                  then hits[0].fields["_source"] else JNull]))
  {
    var src := if hits != [] && HasSource(hits[0]) then hits[0].fields["_source"] else JNull;
    assert FirstHit(data) == Ok(src);
  }

  /** For any answer whose hit list is `hits`, all of them objects,
      `buscar_por_classe` lists the sources of the hits that have one, in
      order, and counts them; the count never exceeds the number of hits. */
  lemma ClassResponseOfAnswer(data: Json, hits: seq<Json>)
    requires HitList(data) == Ok(JArray(hits))
    requires forall i :: 0 <= i < |hits| ==> hits[i].JObject?
    ensures ClassResponse(data) == Ok(JObject(map[
      "ok" := JBool(true),
      "count" := JInt(|Sources(hits)|),
      "results" := JArray(Sources(hits))]))
    ensures |Sources(hits)| <= |hits|
  {
    assert ClassResults(data) == Ok(Sources(hits));
  }

  /** For any answer whose hit list is `hits`, `movimentacoes` gives the first
      source's `movimentos`, or an empty list when there is no usable source. */
  lemma HistoryResponseOfAnswer(numero: string, data: Json, hits: seq<Json>)
    requires HitList(data) == Ok(JArray(hits))
    requires hits == [] || hits[0].JObject?
    requires hits != [] && HasSource(hits[0]) && Truthy(hits[0].fields["_source"])
             ==> hits[0].fields["_source"].JObject?
    ensures HistoryResponse(numero, data) == Ok(JObject(map[
      "ok" := JBool(true),
      "numeroProcesso" := JString(numero),
      "movimentos" :=
        if hits != [] && HasSource(hits[0]) && Truthy(hits[0].fields["_source"])
        then Get(hits[0].fields["_source"].fields, "movimentos", JArray([]))
        else JArray([])]))
  {
    var src := if hits != [] && HasSource(hits[0]) then hits[0].fields["_source"] else JNull;
    assert FirstHit(data) == Ok(src);
  }

  // ---------------------------------------------------------------------
  // The handlers

  /** `POST /invoke/buscar_por_numero`: argument errors come first; then the
      lookup is sent, an upstream error is passed on, and otherwise the
      answer is built from the parsed body. */
  function BuscarPorNumero(key: string, payload: map<string, Json>,
                           upstream: Request -> Response): (r: Result<Json>)
    ensures NumberArguments(payload).Err? ==> r == Err(NumberArguments(payload).error)
    ensures NumberArguments(payload).Ok? ==>
      var a := NumberArguments(payload).value;
      var resp := upstream(SearchRequest(key, a.alias, NumberQuery(a.numero)));
      && (resp.status >= 400 ==> r == Err(Upstream(resp.status, "Erro DataJud: " + resp.text)))
      && (resp.status < 400 ==> r == NumberResponse(resp.body))
  {
    var a :- NumberArguments(payload);
    var data :- PostSearch(key, a.alias, NumberQuery(a.numero), upstream);
    NumberResponse(data)
  }

  /** `POST /invoke/buscar_por_classe`, in the same three steps. */
  function BuscarPorClasse(key: string, payload: map<string, Json>,
                           upstream: Request -> Response): (r: Result<Json>)
    ensures ClassArguments(payload).Err? ==> r == Err(ClassArguments(payload).error)
    ensures ClassArguments(payload).Ok? ==>
      var a := ClassArguments(payload).value;
      var resp := upstream(SearchRequest(key, a.alias, ClassQuery(a.classe, a.size)));
      && (resp.status >= 400 ==> r == Err(Upstream(resp.status, "Erro DataJud: " + resp.text)))
      && (resp.status < 400 ==> r == ClassResponse(resp.body))
  {
    var a :- ClassArguments(payload);
    var data :- PostSearch(key, a.alias, ClassQuery(a.classe, a.size), upstream);
    ClassResponse(data)
  }

  /** `POST /invoke/movimentacoes`, in the same three steps. */
  function Movimentacoes(key: string, payload: map<string, Json>,
                         upstream: Request -> Response): (r: Result<Json>)
    ensures NumberArguments(payload).Err? ==> r == Err(NumberArguments(payload).error)
    ensures NumberArguments(payload).Ok? ==>
      var a := NumberArguments(payload).value;
      var resp := upstream(SearchRequest(key, a.alias, HistoryQuery(a.numero)));
      && (resp.status >= 400 ==> r == Err(Upstream(resp.status, "Erro DataJud: " + resp.text)))
      && (resp.status < 400 ==> r == HistoryResponse(a.numero, resp.body))
  {
    var a :- NumberArguments(payload);
    var data :- PostSearch(key, a.alias, HistoryQuery(a.numero), upstream);
    HistoryResponse(a.numero, data)
  }

  /** Any payload without an alias is looked up in the default index. */
  lemma DefaultIndex(payload: map<string, Json>)
    requires Arguments(payload).JObject? && "alias" !in Arguments(payload).fields
    ensures NumberArguments(payload).Ok? ==> NumberArguments(payload).value.alias == DEFAULT_ALIAS
    ensures ClassArguments(payload).Ok? ==> ClassArguments(payload).value.alias == DEFAULT_ALIAS
  {
  }

  /** A flat payload holding only a string case number is accepted: the
      number is stripped and the default index is used. */
  lemma PlainNumberArguments(n: string)
    ensures NumberArguments(map["numero_cnj" := JString(n)])
            == Ok(NumberArgs(Text.Strip(n), DEFAULT_ALIAS))
  {
    var payload := map["numero_cnj" := JString(n)];
    assert Arguments(payload) == JObject(payload);
    assert ResolveAlias(payload) == Ok(DEFAULT_ALIAS);
  }

  /** Any lookup by case number whose arguments are accepted and whose
      answer has no hit yields `{"ok": true, "result": null}`. */
  lemma NoHitsNull(key: string, payload: map<string, Json>, upstream: Request -> Response)
    requires NumberArguments(payload).Ok?
    requires var a := NumberArguments(payload).value;
             var resp := upstream(SearchRequest(key, a.alias, NumberQuery(a.numero)));
             resp.status < 400 && HitList(resp.body) == Ok(JArray([]))
    ensures BuscarPorNumero(key, payload, upstream)
            == Ok(JObject(map["ok" := JBool(true), "result" := JNull]))
  {
    var a := NumberArguments(payload).value;
    NumberResponseOfAnswer(upstream(SearchRequest(key, a.alias, NumberQuery(a.numero))).body, []);
  }

  /** Any history request whose arguments are accepted and whose answer has
      no hit yields an empty movement list, with the stripped number echoed. */
  lemma NoHitsNoMovements(key: string, payload: map<string, Json>, upstream: Request -> Response)
    requires NumberArguments(payload).Ok?
    requires var a := NumberArguments(payload).value;
             var resp := upstream(SearchRequest(key, a.alias, HistoryQuery(a.numero)));
             resp.status < 400 && HitList(resp.body) == Ok(JArray([]))
    ensures Movimentacoes(key, payload, upstream)
            == Ok(JObject(map["ok" := JBool(true),
                              "numeroProcesso" := JString(NumberArguments(payload).value.numero),
                              "movimentos" := JArray([])]))
  {
    var a := NumberArguments(payload).value;
    HistoryResponseOfAnswer(a.numero,
      upstream(SearchRequest(key, a.alias, HistoryQuery(a.numero))).body, []);
  }

  /** A valid listing by class (no size, no alias) sends a page size of 10 to
      the default index and lists the sources of the object hits it gets. */
  lemma ClassListing(key: string, c: int, upstream: Request -> Response, hits: seq<Json>)
    requires var resp := upstream(SearchRequest(key, DEFAULT_ALIAS, ClassQuery(c, 10)));
             resp.status < 400 && HitList(resp.body) == Ok(JArray(hits))
    requires forall i :: 0 <= i < |hits| ==> hits[i].JObject?
    ensures BuscarPorClasse(key, map["classe_codigo" := JInt(c)], upstream)
            == Ok(JObject(map["ok" := JBool(true), "count" := JInt(|Sources(hits)|),
                              "results" := JArray(Sources(hits))]))
  {
    var payload := map["classe_codigo" := JInt(c)];
    assert ClassArguments(payload) == Ok(ClassArgs(c, 10, DEFAULT_ALIAS));
    var resp := upstream(SearchRequest(key, DEFAULT_ALIAS, ClassQuery(c, 10)));
    ClassResponseOfAnswer(resp.body, hits);
  }

  /** A case number in the unmasked CNJ layout, used by the example below. */
  const SAMPLE_NUMBER: string := "0001234-56.2020.8.19.0001"

  /** The record the service holds for that case in the example below. */
  const SAMPLE_RECORD: Json := JObject(map[
    "numeroProcesso" := JString(SAMPLE_NUMBER),
    "classe" := JObject(map["codigo" := JInt(7)])])

  /** The sample number is already trimmed, so it is sent as given. */
  lemma SampleArguments()
    ensures NumberArguments(map["numero_cnj" := JString(SAMPLE_NUMBER)])
            == Ok(NumberArgs(SAMPLE_NUMBER, DEFAULT_ALIAS))
  {
    PlainNumberArguments(SAMPLE_NUMBER);
    assert Text.Trimmed(SAMPLE_NUMBER);
    Text.StripKeepsTrimmed(SAMPLE_NUMBER);
  }

  /** An answer whose one hit carries the sample record gives that record. */
  lemma SampleAnswer()
    ensures NumberResponse(SearchResult([JObject(map["_source" := SAMPLE_RECORD])]))
            == Ok(JObject(map["ok" := JBool(true), "result" := SAMPLE_RECORD]))
  {
    var hits := [JObject(map["_source" := SAMPLE_RECORD])];
    assert HitList(SearchResult(hits)) == Ok(JArray(hits));
    NumberResponseOfAnswer(SearchResult(hits), hits);
    assert HasSource(hits[0]) && hits[0].fields["_source"] == SAMPLE_RECORD;
    assert "numeroProcesso" in SAMPLE_RECORD.fields;
  }

  /** A lookup of one case number against an answer with one matching hit
      returns that hit's record unchanged. */
  lemma NumberLookupExample(key: string, upstream: Request -> Response)
    requires upstream(SearchRequest(key, DEFAULT_ALIAS, NumberQuery(SAMPLE_NUMBER)))
             == Response(200, "", SearchResult([JObject(map["_source" := SAMPLE_RECORD])]))
    ensures BuscarPorNumero(key, map["numero_cnj" := JString(SAMPLE_NUMBER)], upstream)
            == Ok(JObject(map["ok" := JBool(true), "result" := SAMPLE_RECORD]))
  {
    SampleArguments();
    SampleAnswer();
  }
}
