/**
 * The request-binding layer of the web framework (www/coroweb.py): the
 * route decorators, the analysis of a handler's parameter list, the way
 * a request handler builds the keyword arguments of a call from an
 * already-parsed request, and route registration.
 *
 * Deviations from the text of www/coroweb.py, modelled as evidently intended:
 *  - line 16 calls `func(&args, **kw)`; the wrapper passes its arguments through;
 *  - line 54 reads `KERYWORD_ONLY`; the model tests for keyword-only parameters;
 *  - lines 93 and 98 call `startwith`; the model tests prefixes, and reads
 *    the form type `mutipart/form-data` of line 98 as `multipart/form-data`;
 *  - line 102 returns `HTTPBadRequest` without its module; the model returns
 *    the same bad request as lines 91 and 96;
 *  - line 152 builds `RequestHandle`; the model builds the request handler.
 */
module Coroweb {
  import opened Values
  import opened Strings

  // ---------------------------------------------------------------- signatures

  /** `inspect.Parameter.kind` */
  datatype Kind = PositionalOnly | PositionalOrKeyword | VarPositional | KeywordOnly | VarKeyword

  /** One parameter of a handler's signature: its name, kind, and whether it has a default. */
  datatype Param = Param(name: string, kind: Kind, hasDefault: bool)

  /** Names of the keyword-only parameters, in signature order. */
  function Named(ps: seq<Param>): seq<string>
  {
    if ps == [] then []
    else Named(ps[..|ps| - 1]) + (if ps[|ps| - 1].kind == KeywordOnly then [ps[|ps| - 1].name] else [])
  }

  /** Names of the keyword-only parameters without a default, in signature order. */
  function Required(ps: seq<Param>): seq<string>
  {
    if ps == [] then []
    else
      var last := ps[|ps| - 1];
      Required(ps[..|ps| - 1]) + (if last.kind == KeywordOnly && !last.hasDefault then [last.name] else [])
  }

  /** A name is listed by Named exactly when some keyword-only parameter carries it. */
  lemma {:induction false} NamedMembers(ps: seq<Param>, n: string)
    ensures n in Named(ps) <==> exists i :: 0 <= i < |ps| && ps[i].name == n && ps[i].kind == KeywordOnly
  {
    if ps != [] {
      NamedMembers(ps[..|ps| - 1], n);
      assert forall i :: 0 <= i < |ps| - 1 ==> ps[..|ps| - 1][i] == ps[i];
    }
  }

  /** Every required keyword argument is a named one, and a named one is required exactly when it has no default. */
  lemma {:induction false} RequiredWithinNamed(ps: seq<Param>, n: string)
    ensures n in Required(ps) <==> exists i :: 0 <= i < |ps| && ps[i].name == n && ps[i].kind == KeywordOnly && !ps[i].hasDefault
    ensures n in Required(ps) ==> n in Named(ps)
  {
    if ps != [] {
      RequiredWithinNamed(ps[..|ps| - 1], n);
      assert forall i :: 0 <= i < |ps| - 1 ==> ps[..|ps| - 1][i] == ps[i];
    }
    NamedMembers(ps, n);
  }

  /** `get_named_kw_args(fn)` */
  method GetNamedKwArgs(ps: seq<Param>) returns (args: seq<string>)
    ensures args == Named(ps)
  {
    args := [];
    for i := 0 to |ps|
      invariant args == Named(ps[..i])
    {
      assert ps[..i + 1][..i] == ps[..i];
      if ps[i].kind == KeywordOnly {
        args := args + [ps[i].name];
      }
    }
    assert ps[..|ps|] == ps;
  }

  /** `get_required_kw_args(fn)` */
  method GetRequiredKwArgs(ps: seq<Param>) returns (args: seq<string>)
    ensures args == Required(ps)
  {
    args := [];
    for i := 0 to |ps|
      invariant args == Required(ps[..i])
    {
      assert ps[..i + 1][..i] == ps[..i];
      if ps[i].kind == KeywordOnly && !ps[i].hasDefault {
        args := args + [ps[i].name];
      }
    }
    assert ps[..|ps|] == ps;
  }

  /** `has_named_kw_arg(fn)`: whether some parameter is keyword-only. */
  method HasNamedKwArg(ps: seq<Param>) returns (b: bool)
    ensures b <==> exists i :: 0 <= i < |ps| && ps[i].kind == KeywordOnly
  {
    for i := 0 to |ps|
      invariant forall j :: 0 <= j < i ==> ps[j].kind != KeywordOnly
    {
      if ps[i].kind == KeywordOnly {
        return true;
      }
    }
    return false;
  }

  /** `has_var_kw_arg(fn)`: whether some parameter is `**kw`. */
  method HasVarKwArg(ps: seq<Param>) returns (b: bool)
    ensures b <==> exists i :: 0 <= i < |ps| && ps[i].kind == VarKeyword
  {
    for i := 0 to |ps|
      invariant forall j :: 0 <= j < i ==> ps[j].kind != VarKeyword
    {
      if ps[i].kind == VarKeyword {
        return true;
      }
    }
    return false;
  }

  /** The kinds that may follow `request`. */
  predicate MayFollowRequest(k: Kind)
  {
    k == VarKeyword || k == VarPositional || k == KeywordOnly
  }

  /** Some parameter after `request` is one that could be passed positionally. */
  predicate RequestMisplaced(ps: seq<Param>)
  {
    exists i, j :: 0 <= i < j < |ps| && ps[i].name == "request" && ps[j].name != "request" && !MayFollowRequest(ps[j].kind)
  }

  const RequestNotLast := "The parameter [request] must be the last named parameter"

  /** `has_request_arg(fn)`: whether a parameter is named `request`; ValueError when it is not last among the named ones. */
  method HasRequestArg(ps: seq<Param>) returns (r: Result<bool>)
    ensures r.Err? <==> RequestMisplaced(ps)
    ensures r.Err? ==> r.error == ValueError(RequestNotLast)
    ensures r.Ok? ==> (r.value <==> exists i :: 0 <= i < |ps| && ps[i].name == "request")
  {
    var found := false;
    for j := 0 to |ps|
      invariant found <==> exists i :: 0 <= i < j && ps[i].name == "request"
      invariant !exists i, k :: 0 <= i < k < j && ps[i].name == "request" && ps[k].name != "request" && !MayFollowRequest(ps[k].kind)
    {
      if ps[j].name == "request" {
        found := true;
        continue;
      }
      if found && !MayFollowRequest(ps[j].kind) {
        return Err(ValueError(RequestNotLast));
      }
    }
    return Ok(found);
  }

  /** What `RequestHandler.__init__` records about its handler; none of it changes afterwards. */
  datatype Handler = Handler(
    hasRequestArg: bool,
    hasVarKwArg: bool,
    hasNamedKwArg: bool,
    namedKwArgs: seq<string>,
    requiredKwArgs: seq<string>)

  /** The analysis of a parameter list. */
  function HandlerOf(ps: seq<Param>): Handler
  {
    Handler(
      exists i :: 0 <= i < |ps| && ps[i].name == "request",
      exists i :: 0 <= i < |ps| && ps[i].kind == VarKeyword,
      exists i :: 0 <= i < |ps| && ps[i].kind == KeywordOnly,
      Named(ps),
      Required(ps))
  }

  /** A handler has named keyword arguments exactly when it lists some. */
  lemma HasNamedIffListed(ps: seq<Param>)
    ensures HandlerOf(ps).hasNamedKwArg <==> HandlerOf(ps).namedKwArgs != []
  {
    if HandlerOf(ps).hasNamedKwArg {
      var i :| 0 <= i < |ps| && ps[i].kind == KeywordOnly;
      NamedMembers(ps, ps[i].name);
    } else if Named(ps) != [] {
      NamedMembers(ps, Named(ps)[0]);
    }
  }

  /** `RequestHandler(app, fn)`: the analysis, or the ValueError of `has_request_arg`. */
  method NewHandler(ps: seq<Param>) returns (r: Result<Handler>)
    ensures r.Err? <==> RequestMisplaced(ps)
    ensures r.Err? ==> r.error == ValueError(RequestNotLast)
    ensures r.Ok? ==> r.value == HandlerOf(ps)
  {
    var hasRequest := HasRequestArg(ps);
    if hasRequest.Err? {
      return Err(hasRequest.error);
    }
    var hasVar := HasVarKwArg(ps);
    var hasNamed := HasNamedKwArg(ps);
    var named := GetNamedKwArgs(ps);
    var required := GetRequiredKwArgs(ps);
    return Ok(Handler(hasRequest.value, hasVar, hasNamed, named, required));
  }

  // ---------------------------------------------------------------- requests

  /** The body `request.json()` decoded: an object, or any other JSON value. */
  datatype Json = JsonObject(m: map<string, Value>) | JsonOther

  /** `parse_qs(qs, True)` maps each key to one value at least. */
  type QueryValues = s: seq<string> | |s| > 0 witness [""]

  /** An already-parsed request: everything `__call__` reads from it. */
  datatype Request = Request(
    verb: string,                     // request.method
    contentType: string,              // "" when absent
    json: Json,                       // what `await request.json()` returns
    form: map<string, Value>,         // what `await request.post()` returns
    queryString: string,
    query: map<string, QueryValues>,      // `parse.parse_qs(query_string, True)`
    matchInfo: map<string, string>)

  /** A keyword argument of the call: a request value, or the request itself. */
  datatype Arg = Given(v: Value) | TheRequest

  /** What `__call__` ends in: a bad request, or the call with its keyword arguments and the names `match_info` overrode (each logged as a warning). */
  datatype Outcome = BadRequest(msg: string) | Call(kw: map<string, Arg>, overridden: set<string>)

  /** What the body or the query string supplies: a bad request, nothing, or keyword arguments. */
  datatype Parsed = Rejected(msg: string) | Nothing | Params(kw: map<string, Arg>)

  predicate IsJson(ct: string)
  {
    StartsWith(Lower(ct), "application/json")
  }

  predicate IsForm(ct: string)
  {
    StartsWith(Lower(ct), "application/x-www-form-urlencoded") || StartsWith(Lower(ct), "multipart/form-data")
  }

  /** The handler wants keyword arguments from the request at all. */
  predicate NeedsKw(h: Handler)
  {
    h.hasVarKwArg || h.hasNamedKwArg || h.requiredKwArgs != []
  }

  function AsArgs(m: map<string, Value>): map<string, Arg>
  {
    map k | k in m :: Given(m[k])
  }

  /** `{k: v[0] for k, v in parse_qs(qs, True).items()}` */
  function QueryArgs(query: map<string, QueryValues>): (kw: map<string, Arg>)
    ensures kw.Keys == query.Keys
  {
    map k | k in query :: Given(Str(query[k][0]))
  }

  /** `dict(**request.match_info)` */
  function MatchArgs(mi: map<string, string>): (kw: map<string, Arg>)
    ensures kw.Keys == mi.Keys
  {
    map k | k in mi :: Given(Str(mi[k]))
  }

  /** Lines 86-108: the keyword arguments the body (POST) or the query string (GET) supplies. */
  function Parse(h: Handler, req: Request): (r: Parsed)
    ensures !NeedsKw(h) ==> r == Nothing
    ensures r.Rejected? ==> NeedsKw(h) && req.verb == "POST"
    ensures NeedsKw(h) && req.verb == "POST" ==>
      && (req.contentType == "" ==> r == Rejected("Missing content type"))
      && (req.contentType != "" && IsJson(req.contentType) && req.json.JsonOther? ==> r == Rejected("JSON body must object"))
      && (req.contentType != "" && !IsJson(req.contentType) && !IsForm(req.contentType) ==>
            r == Rejected("Unsupported Content-type: " + req.contentType))
      && (req.contentType != "" && IsJson(req.contentType) && req.json.JsonObject? ==> r == Params(AsArgs(req.json.m)))
      && (req.contentType != "" && !IsJson(req.contentType) && IsForm(req.contentType) ==> r == Params(AsArgs(req.form)))
    ensures NeedsKw(h) && req.verb == "GET" ==>
      r == if req.queryString != "" then Params(QueryArgs(req.query)) else Nothing
    ensures req.verb != "POST" && req.verb != "GET" ==> r == Nothing
  {
    if !NeedsKw(h) then Nothing
    else if req.verb == "POST" then
      if req.contentType == "" then Rejected("Missing content type")
      else if IsJson(req.contentType) then
        match req.json
        case JsonObject(m) => Params(AsArgs(m))
        case JsonOther => Rejected("JSON body must object")
      else if IsForm(req.contentType) then Params(AsArgs(req.form))
      else Rejected("Unsupported Content-type: " + req.contentType)
    else if req.verb == "GET" && req.queryString != "" then Params(QueryArgs(req.query))
    else Nothing
  }

  /** Lines 113-117: only the entries named in `names`. */
  function Restrict(kw: map<string, Arg>, names: seq<string>): (r: map<string, Arg>)
    ensures forall k :: k in r <==> k in kw && k in names
    ensures forall k :: k in r ==> r[k] == kw[k]
  {
    map k | k in kw && k in names :: kw[k]
  }

  /** Lines 119-122: every `match_info` entry stored over `kw`. */
  function Overlay(kw: map<string, Arg>, mi: map<string, string>): (r: map<string, Arg>)
    ensures r.Keys == kw.Keys + mi.Keys
    ensures forall k :: k in mi ==> r[k] == Given(Str(mi[k]))
    ensures forall k :: k in kw && k !in mi ==> r[k] == kw[k]
  {
    map k | k in kw.Keys + mi.Keys :: if k in mi then Given(Str(mi[k])) else kw[k]
  }

  /** The first required name, in order, that `kw` lacks. */
  function FirstMissing(required: seq<string>, kw: map<string, Arg>): (r: Option<string>)
    ensures r.None? <==> forall i :: 0 <= i < |required| ==> required[i] in kw
    ensures r.Some? ==> r.value in required && r.value !in kw
    ensures r.Some? ==> exists i :: 0 <= i < |required| && required[i] == r.value && forall j :: 0 <= j < i ==> required[j] in kw
  {
    if required == [] then None
    else if required[0] !in kw then Some(required[0])
    else
      var rest := FirstMissing(required[1..], kw);
      assert forall i :: 1 <= i < |required| ==> required[i] == required[1..][i - 1];
      if rest.Some? then
        assert exists i :: 1 <= i < |required| && required[i] == rest.value && forall j :: 0 <= j < i ==> required[j] in kw by {
          var i' :| 0 <= i' < |required[1..]| && required[1..][i'] == rest.value && forall j :: 0 <= j < i' ==> required[1..][j] in kw;
          assert required[i' + 1] == rest.value;
          assert forall j :: 0 <= j < i' + 1 ==> required[j] in kw by {
            forall j | 0 <= j < i' + 1 ensures required[j] in kw {
              if j > 0 {
                assert required[j] == required[1..][j - 1];
              }
            }
          }
        }
        rest
      else rest
  }

  /** Lines 123-129: the request itself when the handler takes it, then the required-argument check. */
  function Finish(h: Handler, kw: map<string, Arg>, overridden: set<string>): Outcome
  {
    var full := if h.hasRequestArg then kw["request" := TheRequest] else kw;
    match FirstMissing(h.requiredKwArgs, full)
    case Some(n) => BadRequest("Missing argument: " + n)
    case None => Call(full, overridden)
  }

  /** The keyword arguments `RequestHandler.__call__` passes to its handler, or the bad request it answers. */
  function Dispatch(h: Handler, req: Request): (o: Outcome)
    ensures o.Call? ==> forall i :: 0 <= i < |h.requiredKwArgs| ==> h.requiredKwArgs[i] in o.kw
    ensures o.Call? ==> (h.hasRequestArg <==> "request" in o.kw && o.kw["request"] == TheRequest)
    ensures o.Call? ==> forall k :: k in req.matchInfo && (k != "request" || !h.hasRequestArg) ==> k in o.kw && o.kw[k] == Given(Str(req.matchInfo[k]))
    ensures Parse(h, req).Rejected? ==> o == BadRequest(Parse(h, req).msg)
  {
    match Parse(h, req)
    case Rejected(msg) => BadRequest(msg)
    case Nothing => Finish(h, MatchArgs(req.matchInfo), {})
    case Params(kw) =>
      var kept := if !h.hasVarKwArg && h.namedKwArgs != [] then Restrict(kw, h.namedKwArgs) else kw;
      Finish(h, Overlay(kept, req.matchInfo), kept.Keys * req.matchInfo.Keys)
  }

  /** When nothing was parsed, the call gets `match_info` and, if it takes it, the request. */
  lemma DispatchNothingParsed(h: Handler, req: Request)
    requires Parse(h, req).Nothing?
    requires Dispatch(h, req).Call?
    ensures Dispatch(h, req).overridden == {}
    ensures forall k :: k in Dispatch(h, req).kw <==> k in req.matchInfo || (k == "request" && h.hasRequestArg)
  {
  }

  /** A handler without `**kw` but with named keyword arguments receives only those, the `match_info` entries and the request. */
  lemma DispatchRestricted(h: Handler, req: Request)
    requires Parse(h, req).Params? && !h.hasVarKwArg && h.namedKwArgs != []
    requires Dispatch(h, req).Call?
    ensures forall k :: k in Dispatch(h, req).kw ==> k in h.namedKwArgs || k in req.matchInfo || k == "request"
    ensures Dispatch(h, req).overridden == (set k | k in Parse(h, req).kw && k in h.namedKwArgs && k in req.matchInfo)
  {
  }

  /** For GET, each query key binds the first of its values, unless `match_info` or the request takes the name. */
  lemma DispatchQueryFirstValue(h: Handler, req: Request, k: string)
    requires NeedsKw(h) && req.verb == "GET" && req.queryString != ""
    requires h.hasVarKwArg
    requires k in req.query && k !in req.matchInfo && !(k == "request" && h.hasRequestArg)
    requires Dispatch(h, req).Call?
    ensures Dispatch(h, req).kw[k] == Given(Str(req.query[k][0]))
  {
  }

  /** A missing required argument is answered with a bad request naming the first one missing; the handler is not called. */
  lemma DispatchMissingRequired(h: Handler, req: Request)
    requires !Parse(h, req).Rejected?
    ensures Dispatch(h, req).BadRequest? <==> exists i :: 0 <= i < |h.requiredKwArgs| && h.requiredKwArgs[i] !in BeforeCheck(h, req)
    ensures Dispatch(h, req).BadRequest? ==>
      Dispatch(h, req) == BadRequest("Missing argument: " + FirstMissing(h.requiredKwArgs, BeforeCheck(h, req)).value)
  {
  }

  /** The keyword arguments as they stand when the required ones are checked. */
  function BeforeCheck(h: Handler, req: Request): map<string, Arg>
    requires !Parse(h, req).Rejected?
  {
    var kw := match Parse(h, req)
      case Nothing => MatchArgs(req.matchInfo)
      case Params(kw) =>
        Overlay(if !h.hasVarKwArg && h.namedKwArgs != [] then Restrict(kw, h.namedKwArgs) else kw, req.matchInfo);
    if h.hasRequestArg then kw["request" := TheRequest] else kw
  }

  // ---------------------------------------------------------------- __call__, step by step

  /** Lines 106-108: the query dictionary, one key at a time. */
  method CollectQuery(query: map<string, QueryValues>) returns (kw: map<string, Arg>)
    ensures kw == QueryArgs(query)
  {
    kw := map[];
    var todo := query.Keys;
    while todo != {}
      invariant todo <= query.Keys
      invariant kw.Keys == query.Keys - todo
      invariant forall k :: k in kw ==> kw[k] == Given(Str(query[k][0]))
      decreases todo
    {
      var k :| k in todo;
      kw := kw[k := Given(Str(query[k][0]))];
      todo := todo - {k};
    }
  }

  /** Lines 113-117: copy the named entries, in the order of the names. */
  method KeepNamed(kw: map<string, Arg>, names: seq<string>) returns (copy: map<string, Arg>)
    ensures copy == Restrict(kw, names)
  {
    copy := map[];
    for i := 0 to |names|
      invariant forall k :: k in copy <==> k in kw && k in names[..i]
      invariant forall k :: k in copy ==> copy[k] == kw[k]
    {
      if names[i] in kw {
        copy := copy[names[i] := kw[names[i]]];
      }
    }
    assert names[..|names|] == names;
  }

  /** Lines 119-122: store each `match_info` entry, noting the names it overrides. */
  method ApplyMatchInfo(kw: map<string, Arg>, mi: map<string, string>) returns (out: map<string, Arg>, overridden: set<string>)
    ensures out == Overlay(kw, mi)
    ensures overridden == kw.Keys * mi.Keys
  {
    out := kw;
    overridden := {};
    var todo := mi.Keys;
    ghost var done: set<string> := {};
    while todo != {}
      invariant todo !! done && todo + done == mi.Keys
      invariant Stored(kw, mi, done, out)
      invariant overridden == kw.Keys * done
      decreases todo
    {
      var k :| k in todo;
      GrowIntersection(kw.Keys, done, k);
      assert k in out <==> k in kw by {
        StoredKeys(kw, mi, done, out);
      }
      if k in out {
        overridden := overridden + {k};
      }
      StoreStep(kw, mi, done, out, k);
      out := out[k := Given(Str(mi[k]))];
      todo := todo - {k};
      done := done + {k};
    }
    assert done == mi.Keys;
    OverlayUnique(kw, mi, out);
  }

  /** One more key in `done` adds it to the intersection exactly when `a` has it. */
  lemma GrowIntersection(a: set<string>, done: set<string>, k: string)
    ensures a * (done + {k}) == if k in a then a * done + {k} else a * done
  {
  }

  /** `out` is `kw` with the entries of `mi` whose keys are in `done` stored over it. */
  ghost predicate Stored(kw: map<string, Arg>, mi: map<string, string>, done: set<string>, out: map<string, Arg>)
  {
    && done <= mi.Keys
    && out.Keys == kw.Keys + done
    && (forall k :: k in done ==> out[k] == Given(Str(mi[k])))
    && (forall k :: k in kw && k !in done ==> out[k] == kw[k])
  }

  lemma StoredKeys(kw: map<string, Arg>, mi: map<string, string>, done: set<string>, out: map<string, Arg>)
    requires Stored(kw, mi, done, out)
    ensures out.Keys == kw.Keys + done
  {
  }

  /** Storing one more entry of `mi` keeps the description. */
  lemma StoreStep(kw: map<string, Arg>, mi: map<string, string>, done: set<string>, out: map<string, Arg>, k: string)
    requires Stored(kw, mi, done, out) && k in mi
    ensures Stored(kw, mi, done + {k}, out[k := Given(Str(mi[k]))])
  {
  }

  /** A map with Overlay's keys and entries is Overlay. */
  lemma OverlayUnique(kw: map<string, Arg>, mi: map<string, string>, out: map<string, Arg>)
    requires Stored(kw, mi, mi.Keys, out)
    ensures out == Overlay(kw, mi)
  {
    var r := Overlay(kw, mi);
    assert out.Keys == r.Keys;
    forall k | k in out
      ensures out[k] == r[k]
    {
    }
  }

  /** Lines 126-129: the first required name missing, in order. */
  method CheckRequired(required: seq<string>, kw: map<string, Arg>) returns (missing: Option<string>)
    ensures missing == FirstMissing(required, kw)
  {
    for i := 0 to |required|
      invariant FirstMissing(required[i..], kw) == FirstMissing(required, kw)
    {
      assert required[i..][1..] == required[i + 1..];
      if required[i] !in kw {
        return Some(required[i]);
      }
    }
    return None;
  }

  /** Lines 87-108: what the request body or query string supplies, or the bad request it earns. */
  method ReadParams(h: Handler, req: Request) returns (p: Parsed)
    ensures p == Parse(h, req)
  {
    p := Nothing;
    if NeedsKw(h) {
      if req.verb == "POST" {
        var ct := req.contentType;
        if ct == "" {
          return Rejected("Missing content type");
        }
        if IsJson(ct) {
          if req.json.JsonOther? {
            return Rejected("JSON body must object");
          }
          p := Params(AsArgs(req.json.m));
        } else if IsForm(ct) {
          p := Params(AsArgs(req.form));
        } else {
          return Rejected("Unsupported Content-type: " + req.contentType);
        }
      }
      if req.verb == "GET" {
        if req.queryString != "" {
          var q := CollectQuery(req.query);
          p := Params(q);
        }
      }
    }
  }

  /** Lines 123-129: add the request when the handler takes it, then check the required arguments. */
  method Complete(h: Handler, kw: map<string, Arg>, overridden: set<string>) returns (o: Outcome)
    ensures o == Finish(h, kw, overridden)
  {
    var args := kw;
    if h.hasRequestArg {
      args := args["request" := TheRequest];
    }
    var missing := CheckRequired(h.requiredKwArgs, args);
    if missing.Some? {
      return BadRequest("Missing argument: " + missing.value);
    }
    return Call(args, overridden);
  }

  /** `RequestHandler.__call__(request)` up to the call of the handler: the bad request, or the keyword arguments. */
  method Serve(h: Handler, req: Request) returns (o: Outcome)
    ensures o == Dispatch(h, req)
  {
    var p := ReadParams(h, req);
    if p.Rejected? {
      return BadRequest(p.msg);
    }
    var args: map<string, Arg>;
    var overridden: set<string> := {};
    if p.Nothing? {
      args := MatchArgs(req.matchInfo);
    } else {
      args := p.kw;
      if !h.hasVarKwArg && h.namedKwArgs != [] {
        args := KeepNamed(args, h.namedKwArgs);
      }
      args, overridden := ApplyMatchInfo(args, req.matchInfo);
    }
    o := Complete(h, args, overridden);
  }

  // ---------------------------------------------------------------- routes

  /** A handler function as `add_route` sees it: its parameters and the tags the decorators set. */
  datatype RouteFn = RouteFn(params: seq<Param>, verb: Option<string>, route: Option<string>)

  /** What `@get(path)` and `@post(path)` share: the wrapper keeps the function's signature and carries the method and the path. */
  function Decorate(verb: string, path: string, f: RouteFn): (r: RouteFn)
    ensures RouteTarget(r) == Ok((verb, path))
    ensures r.params == f.params
  {
    RouteFn(f.params, Some(verb), Some(path))
  }

  /** `@get(path)` */
  function Get(path: string, f: RouteFn): RouteFn
  {
    Decorate("GET", path, f)
  }

  /** `@post(path)` */
  function Post(path: string, f: RouteFn): RouteFn
  {
    Decorate("POST", path, f)
  }

  /** The method and path `add_route` registers, or ValueError when either tag is missing. */
  function RouteTarget(f: RouteFn): (r: Result<(string, string)>)
    ensures r.Ok? <==> f.verb.Some? && f.route.Some?
    ensures r.Ok? ==> r.value == (f.verb.value, f.route.value)
    ensures r.Err? ==> r.error == ValueError("@get or @post not define")
  {
    if f.verb.None? || f.route.None? then Err(ValueError("@get or @post not define"))
    else Ok((f.verb.value, f.route.value))
  }

  /** The routing table of the application. */
  class App {
    var routes: seq<(string, string, Handler)>

    constructor ()
      ensures routes == []
    {
      routes := [];
    }

    /**
     * `add_route(app, fn)`: registers the handler under its method and
     * path; an untagged function, or one whose `request` parameter is
     * misplaced, raises ValueError and registers nothing.
     */
    method AddRoute(f: RouteFn) returns (r: Result<()>)
      modifies this
      ensures r.Ok? <==> RouteTarget(f).Ok? && !RequestMisplaced(f.params)
      ensures r.Err? ==> r.error.ValueError? && routes == old(routes)
      ensures r.Ok? ==> routes == old(routes) + [(f.verb.value, f.route.value, HandlerOf(f.params))]
    {
      var target := RouteTarget(f);
      if target.Err? {
        return Err(target.error);
      }
      var h := NewHandler(f.params);
      if h.Err? {
        return Err(h.error);
      }
      routes := routes + [(target.value.0, target.value.1, h.value)];
      return Ok(());
    }
  }
}
