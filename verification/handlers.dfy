/**
 The endpoint handlers of `HomeAssistant` and `HomeAssistantPost` in src/lib.rs. Each
 handler settles its credentials, builds one request, and reads the reply in its own way;
 a handler's outcome records the request it sent (if it got that far) and its result.
 */
module Handlers {
  import opened Wrappers
  import opened Text
  import opened Json
  import opened Structs
  import opened Transport

  /** Rust's `u64`. */
  type U64 = n: nat | n < 0x1_0000_0000_0000_0000

  /** What a handler did: the request it sent, if any, and what it returned. */
  datatype Outcome<T> = Outcome(sent: Option<Request>, result: Result<T, Error>)

  /** The request a handler means to send: a GET of a target, or a POST of a target with a body. */
  datatype Plan = Fetch(target: string) | Submit(target: string, body: Option<Value>)

  /**
   The shape every handler shares: settle credentials, build the request, and, once it is
   sent, return what `read` makes of the reply. Nothing is sent when a credential is
   missing or the body cannot be written.
   */
  function Perform<T>(url: Option<string>, token: Option<string>, env: Env, plan: Plan, read: Result<T, Error>): (o: Outcome<T>)
    ensures Resolve(url, token, env).Failure? ==> o == Outcome(None, Failure(Resolve(url, token, env).error))
    ensures o.sent.Some? ==> o.result == read
    ensures o.sent.Some? ==> Resolve(url, token, env).Success?
    ensures o.sent.None? ==> o.result.Failure?
    ensures Resolve(url, token, env).Success? && plan.Fetch? ==>
      o.sent == Some(GetRequest(Resolve(url, token, env).value, plan.target))
    ensures Resolve(url, token, env).Success? && plan.Submit? ==>
      (o.sent.Some? <==> plan.body.Some?)
  {
    match Resolve(url, token, env)
    case Failure(e) => Outcome(None, Failure(e))
    case Success(c) =>
      match plan
      case Fetch(target) => Outcome(Some(GetRequest(c, target)), read)
      case Submit(target, body) =>
        match PostRequest(c, target, body)
        case Failure(e) => Outcome(None, Failure(e))
        case Success(request) => Outcome(Some(request), read)
  }

  // ---------------------------------------------------------------------------------------
  // Request targets

  /** The query parameter `name`, bare, when `on`. */
  function Flag(on: bool, name: string): seq<string> {
    if on then [name] else []
  }

  /** The same parameter as `history` writes it after the first one: `&name`, or nothing. */
  function FlagText(on: bool, name: string): string {
    if on then "&" + name else ""
  }

  /** The bare query flags `history` appends, in their fixed order, each present iff asked for. */
  function HistoryFlags(minimalResponse: bool, noAttributes: bool, significantChangesOnly: bool): seq<string> {
    Flag(minimalResponse, "minimal_response") + Flag(noAttributes, "no_attributes")
    + Flag(significantChangesOnly, "significant_changes_only")
  }

  function HistoryTarget(entity: Option<string>, minimalResponse: bool, noAttributes: bool, significantChangesOnly: bool): string {
    var query :=
      "?filter_entity_id=" + entity.UnwrapOr("")
      + FlagText(minimalResponse, "minimal_response")
      + FlagText(noAttributes, "no_attributes")
      + FlagText(significantChangesOnly, "significant_changes_only");
    "/api/history/period" + query
  }

  /**
   The history target is `/api/history/period` with a query whose `&`-separated parameters
   are `filter_entity_id=<id>` (empty id when none is given) and then exactly the requested
   flags, bare and in order, provided the id itself holds no `&` (it is not escaped).
   */
  lemma HistoryQuery(entity: Option<string>, minimalResponse: bool, noAttributes: bool, significantChangesOnly: bool)
    requires '&' !in entity.UnwrapOr("")
    ensures var (path, query) := SplitTarget(HistoryTarget(entity, minimalResponse, noAttributes, significantChangesOnly));
      && path == "/api/history/period"
      && query.Some?
      && Split(query.value, '&') ==
           ["filter_entity_id=" + entity.UnwrapOr("")] + HistoryFlags(minimalResponse, noAttributes, significantChangesOnly)
  {
    var params := HistoryParams(entity.UnwrapOr(""), minimalResponse, noAttributes, significantChangesOnly);
    var query := Join(params, '&');
    HistoryTargetQuery(entity, minimalResponse, noAttributes, significantChangesOnly);
    SplitTargetOf("/api/history/period", query);
    SplitJoin(params, '&');
  }

  /** The parameters of the history query, in order. */
  function HistoryParams(id: string, minimalResponse: bool, noAttributes: bool, significantChangesOnly: bool): seq<string> {
    ["filter_entity_id=" + id] + HistoryFlags(minimalResponse, noAttributes, significantChangesOnly)
  }

  /** The history target is its path, `?`, and its parameters joined with `&`; no parameter holds `&`. */
  lemma HistoryTargetQuery(entity: Option<string>, minimalResponse: bool, noAttributes: bool, significantChangesOnly: bool)
    requires '&' !in entity.UnwrapOr("")
    ensures var params := HistoryParams(entity.UnwrapOr(""), minimalResponse, noAttributes, significantChangesOnly);
      && |params| > 0
      && (forall k :: 0 <= k < |params| ==> '&' !in params[k])
      && HistoryTarget(entity, minimalResponse, noAttributes, significantChangesOnly)
         == "/api/history/period" + "?" + Join(params, '&')
  {
    var id := entity.UnwrapOr("");
    var first := "filter_entity_id=" + id;
    var params := HistoryParams(id, minimalResponse, noAttributes, significantChangesOnly);
    var ta := FlagText(minimalResponse, "minimal_response");
    var tb := FlagText(noAttributes, "no_attributes");
    var tc := FlagText(significantChangesOnly, "significant_changes_only");
    HistoryParamsJoin(first, minimalResponse, noAttributes, significantChangesOnly);
    Regroup("/api/history/period", "?filter_entity_id=", "filter_entity_id=", id, ta, tb, tc);
    HistoryParamsPlain(id, minimalResponse, noAttributes, significantChangesOnly);
  }

  /** No parameter of the history query holds `&` when the entity id does not. */
  lemma HistoryParamsPlain(id: string, minimalResponse: bool, noAttributes: bool, significantChangesOnly: bool)
    requires '&' !in id
    ensures var params := HistoryParams(id, minimalResponse, noAttributes, significantChangesOnly);
      forall k :: 0 <= k < |params| ==> '&' !in params[k]
  {
    FlagPlain(minimalResponse, "minimal_response");
    FlagPlain(noAttributes, "no_attributes");
    FlagPlain(significantChangesOnly, "significant_changes_only");
    var first := "filter_entity_id=" + id;
    assert '&' !in first;
    var a := Flag(minimalResponse, "minimal_response");
    var b := Flag(noAttributes, "no_attributes");
    var c := Flag(significantChangesOnly, "significant_changes_only");
    assert HistoryParams(id, minimalResponse, noAttributes, significantChangesOnly) == [first] + a + b + c;
  }

  lemma FlagPlain(on: bool, name: string)
    requires '&' !in name
    ensures forall k :: 0 <= k < |Flag(on, name)| ==> '&' !in Flag(on, name)[k]
  {
  }

  /** Moving the `?` that opens a query out of its first parameter. */
  lemma Regroup(path: string, opening: string, name: string, id: string, ta: string, tb: string, tc: string)
    requires opening == "?" + name
    ensures path + (opening + id + ta + tb + tc) == path + "?" + (name + id + ta + tb + tc)
  {
  }

  lemma HistoryParamsJoin(first: string, minimalResponse: bool, noAttributes: bool, significantChangesOnly: bool)
    ensures Join([first] + HistoryFlags(minimalResponse, noAttributes, significantChangesOnly), '&')
      == first + FlagText(minimalResponse, "minimal_response") + FlagText(noAttributes, "no_attributes")
         + FlagText(significantChangesOnly, "significant_changes_only")
  {
    var a := Flag(minimalResponse, "minimal_response");
    var b := Flag(noAttributes, "no_attributes");
    var c := Flag(significantChangesOnly, "significant_changes_only");
    JoinFlag([first], minimalResponse, "minimal_response");
    JoinFlag([first] + a, noAttributes, "no_attributes");
    JoinFlag([first] + a + b, significantChangesOnly, "significant_changes_only");
    assert [first] + HistoryFlags(minimalResponse, noAttributes, significantChangesOnly) == [first] + a + b + c;
  }

  /** Appending one optional parameter to a query joined with `&`. */
  lemma JoinFlag(front: seq<string>, on: bool, flag: string)
    requires |front| > 0
    ensures Join(front + Flag(on, flag), '&') == Join(front, '&') + FlagText(on, flag)
  {
    if on {
      JoinSnoc(front, flag, '&');
    } else {
      assert front + [] == front;
    }
  }

  lemma JoinCons(head: string, rest: seq<string>, sep: char)
    requires |rest| > 0
    ensures Join([head] + rest, sep) == head + [sep] + Join(rest, sep)
  {
    assert ([head] + rest)[1..] == rest;
  }

  lemma {:induction false} JoinSnoc(front: seq<string>, last: string, sep: char)
    requires |front| > 0
    ensures Join(front + [last], sep) == Join(front, sep) + [sep] + last
  {
    if |front| == 1 {
      assert front + [last] == [front[0], last];
      assert [front[0], last][1..] == [last];
    } else {
      assert (front + [last])[1..] == front[1..] + [last];
      JoinSnoc(front[1..], last, sep);
    }
  }

  /**
   An entity id is pasted into the history query unescaped, so an id can impersonate a flag:
   an id ending in `&minimal_response` sends the same request as the shorter id with the flag.
   */
  lemma HistoryIdNotEscaped(id: string, noAttributes: bool, significantChangesOnly: bool)
    ensures HistoryTarget(Some(id + "&minimal_response"), false, noAttributes, significantChangesOnly)
         == HistoryTarget(Some(id), true, noAttributes, significantChangesOnly)
  {
    var prefix, flag := "?filter_entity_id=", "&minimal_response";
    assert FlagText(false, "minimal_response") == [];
    assert FlagText(true, "minimal_response") == flag;
    assert prefix + (id + flag) + [] == prefix + id + flag;
  }

  function LogbookTarget(entity: Option<string>): string {
    "/api/logbook" + ("?" + entity.UnwrapOr(""))
  }

  /** The logbook query is the entity id itself; with no id the target still ends in a bare `?`. */
  lemma LogbookQuery(entity: Option<string>)
    ensures SplitTarget(LogbookTarget(entity)) == ("/api/logbook", Some(entity.UnwrapOr("")))
    ensures entity.None? ==> LogbookTarget(entity) == "/api/logbook?"
  {
    var id := entity.UnwrapOr("");
    assert "/api/logbook" + ("?" + id) == "/api/logbook" + "?" + id;
    SplitTargetOf("/api/logbook", id);
  }

  function StatesTarget(entity: Option<string>): string {
    var id := entity.UnwrapOr("");
    if id == "" then "/api/states" else "/api/states/" + id
  }

  /**
   Without an id (or with an empty one) the target is the collection `/api/states`; with one,
   it is one more path segment naming the entity, and there is no query.
   */
  lemma StatesPath(entity: Option<string>)
    requires '?' !in entity.UnwrapOr("") && '/' !in entity.UnwrapOr("")
    ensures SplitTarget(StatesTarget(entity)).1.None?
    ensures entity.UnwrapOr("") == "" ==> Split(StatesTarget(entity), '/') == ["", "api", "states"]
    ensures entity.UnwrapOr("") != "" ==> Split(StatesTarget(entity), '/') == ["", "api", "states", entity.UnwrapOr("")]
  {
    var id := entity.UnwrapOr("");
    StatesCollection();
    assert '?' !in StatesTarget(entity) by {
      assert '?' !in "/api/states/";
    }
    if id == "" {
      SplitJoin(["", "api", "states"], '/');
    } else {
      StatesEntity(id);
      SplitJoin(["", "api", "states", id], '/');
    }
  }

  lemma StatesEntity(id: string)
    requires '/' !in id
    ensures Join(["", "api", "states", id], '/') == "/api/states/" + id
    ensures var segments := ["", "api", "states", id];
      forall k :: 0 <= k < |segments| ==> '/' !in segments[k]
  {
    StatesCollection();
    JoinSnoc(["", "api", "states"], id, '/');
    assert ["", "api", "states"] + [id] == ["", "api", "states", id];
    assert "/api/states" + "/" + id == "/api/states/" + id;
  }

  lemma StatesCollection()
    ensures Join(["", "api", "states"], '/') == "/api/states"
    ensures var segments := ["", "api", "states"];
      forall k :: 0 <= k < |segments| ==> '/' !in segments[k]
  {
    JoinCons("api", ["states"], '/');
    assert ["api"] + ["states"] == ["api", "states"];
    JoinCons("", ["api", "states"], '/');
    assert [""] + ["api", "states"] == ["", "api", "states"];
  }

  function CameraProxyTarget(entity: string, time: U64): string {
    "/api/camera_proxy/" + entity + "?time=" + NatToDecimal(time)
  }

  /** The camera target names the entity in its path and carries `time=<seconds>` in decimal. */
  lemma CameraProxyQuery(entity: string, time: U64)
    requires '?' !in entity
    ensures var (path, query) := SplitTarget(CameraProxyTarget(entity, time));
      && path == "/api/camera_proxy/" + entity
      && query.Some?
      && |query.value| > 5 && query.value[..5] == "time="
      && IsDigits(query.value[5..]) && DecimalValue(query.value[5..]) == time
  {
    var path := "/api/camera_proxy/" + entity;
    var digits := NatToDecimal(time);
    assert '?' !in path by {
      assert forall i :: 0 <= i < |entity| ==> path[|"/api/camera_proxy/"| + i] == entity[i];
    }
    assert CameraProxyTarget(entity, time) == path + "?" + ("time=" + digits);
    SplitTargetOf(path, "time=" + digits);
    assert ("time=" + digits)[5..] == digits;
    DecimalRoundTrip(time);
  }

  function ServiceTarget(domain: string, service: string, returnResponse: bool): string {
    "/api/services/" + domain + "/" + service + (if returnResponse then "?return_response" else "")
  }

  /**
   The service target is `/api/services/<domain>/<service>`, with the bare query
   `return_response` exactly when a response is asked for.
   */
  lemma ServiceQuery(domain: string, service: string, returnResponse: bool)
    requires '?' !in domain && '?' !in service && '/' !in domain && '/' !in service
    ensures var (path, query) := SplitTarget(ServiceTarget(domain, service, returnResponse));
      && Split(path, '/') == ["", "api", "services", domain, service]
      && query == (if returnResponse then Some("return_response") else None)
  {
    ServicePath(domain, service);
    ServiceSegmentsPlain(domain, service);
    SplitJoin(["", "api", "services", domain, service], '/');
    ServiceTargetSplit(domain, service, returnResponse);
  }

  lemma ServiceSegmentsPlain(domain: string, service: string)
    requires '/' !in domain && '/' !in service
    ensures var segments := ["", "api", "services", domain, service];
      forall k :: 0 <= k < |segments| ==> '/' !in segments[k]
  {
  }

  lemma ServiceTargetSplit(domain: string, service: string, returnResponse: bool)
    requires '?' !in domain && '?' !in service
    ensures SplitTarget(ServiceTarget(domain, service, returnResponse))
      == ("/api/services/" + domain + "/" + service, if returnResponse then Some("return_response") else None)
  {
    var path := "/api/services/" + domain + "/" + service;
    if returnResponse {
      assert ServiceTarget(domain, service, returnResponse) == path + "?" + "return_response";
      SplitTargetOf(path, "return_response");
    } else {
      assert '?' !in path;
      assert ServiceTarget(domain, service, returnResponse) == path + "";
      assert path + "" == path;
    }
  }

  lemma ServicePath(domain: string, service: string)
    ensures Join(["", "api", "services", domain, service], '/') == "/api/services/" + domain + "/" + service
  {
    JoinCons(domain, [service], '/');
    assert [domain] + [service] == [domain, service];
    JoinCons("services", [domain, service], '/');
    assert ["services"] + [domain, service] == ["services", domain, service];
    JoinCons("api", ["services", domain, service], '/');
    assert ["api"] + ["services", domain, service] == ["api", "services", domain, service];
    JoinCons("", ["api", "services", domain, service], '/');
    assert [""] + ["api", "services", domain, service] == ["", "api", "services", domain, service];
    var t := domain + "/" + service;
    assert "" + "/" + ("api" + "/" + ("services" + "/" + t)) == "/api/services/" + t;
    assert "/api/services/" + t == "/api/services/" + domain + "/" + service;
  }

  // ---------------------------------------------------------------------------------------
  // Flattening the history

  /** The lists one after another: the reference meaning of `.into_iter().flatten().collect()`. */
  function Concat<T>(lists: seq<seq<T>>): seq<T> {
    if |lists| == 0 then [] else lists[0] + Concat(lists[1..])
  }

  /** The sum of the lists' lengths. */
  function TotalLength<T>(lists: seq<seq<T>>): nat {
    if |lists| == 0 then 0 else |lists[0]| + TotalLength(lists[1..])
  }

  lemma {:induction false} ConcatSnoc<T>(lists: seq<seq<T>>, last: seq<T>)
    ensures Concat(lists + [last]) == Concat(lists) + last
    ensures TotalLength(lists + [last]) == TotalLength(lists) + |last|
  {
    if |lists| == 0 {
      assert lists + [last] == [last];
    } else {
      assert (lists + [last])[1..] == lists[1..] + [last];
      ConcatSnoc(lists[1..], last);
    }
  }

  /** Flattening keeps every element: the result is as long as all the lists together. */
  lemma {:induction false} ConcatLength<T>(lists: seq<seq<T>>)
    ensures |Concat(lists)| == TotalLength(lists)
  {
    if |lists| > 0 {
      ConcatLength(lists[1..]);
    }
  }

  /**
   Flattening keeps the order: element `j` of list `i` sits right after everything in the
   lists before it.
   */
  lemma {:induction false} ConcatIndex<T>(lists: seq<seq<T>>, i: nat, j: nat)
    requires i < |lists| && j < |lists[i]|
    ensures TotalLength(lists[..i]) + j < |Concat(lists)|
    ensures Concat(lists)[TotalLength(lists[..i]) + j] == lists[i][j]
  {
    ConcatLength(lists);
    ConcatLength(lists[1..]);
    if i == 0 {
      assert lists[..0] == [];
    } else {
      ConcatIndex(lists[1..], i - 1, j);
      assert lists[1..][..i - 1] == lists[..i][1..];
      assert TotalLength(lists[..i]) == |lists[0]| + TotalLength(lists[1..][..i - 1]);
    }
  }

  /** The flattening loop of `history`, element by element. */
  method Flatten<T>(lists: seq<seq<T>>) returns (flat: seq<T>)
    ensures flat == Concat(lists)
    ensures |flat| == TotalLength(lists)
  {
    flat := [];
    var i := 0;
    while i < |lists|
      invariant 0 <= i <= |lists|
      invariant flat == Concat(lists[..i])
    {
      var j := 0;
      while j < |lists[i]|
        invariant 0 <= j <= |lists[i]|
        invariant flat == Concat(lists[..i]) + lists[i][..j]
      {
        flat := flat + [lists[i][j]];
        j := j + 1;
      }
      assert lists[i][..j] == lists[i];
      ConcatSnoc(lists[..i], lists[i]);
      assert lists[..i + 1] == lists[..i] + [lists[i]];
      i := i + 1;
    }
    assert lists[..i] == lists;
    ConcatLength(lists);
  }

  // ---------------------------------------------------------------------------------------
  // Handlers of `HomeAssistant` (GET)

  function Config(url: Option<string>, token: Option<string>, env: Env, reply: Reply): (o: Outcome<ConfigResponse>)
    ensures o.result.Success? <==>
      o.sent.Some? && reply.Reply? && IsSuccess(reply.status) && JsonBody(reply).Some? && DecodeConfigResponse(JsonBody(reply).value).Some?
    ensures o.result.Success? ==> DecodeConfigResponse(JsonBody(reply).value) == Some(o.result.value)
  {
    Perform(url, token, env, Fetch("/api/config"), Checked(reply, DecodeConfigResponse))
  }

  function EventList(v: Value): Option<seq<EventResponse>> {
    ListOf(v, DecodeEventResponse)
  }

  function Events(url: Option<string>, token: Option<string>, env: Env, reply: Reply): (o: Outcome<seq<EventResponse>>)
    ensures o.result.Success? <==>
      o.sent.Some? && reply.Reply? && IsSuccess(reply.status) && JsonBody(reply).Some? && EventList(JsonBody(reply).value).Some?
    ensures o.result.Success? ==> EventList(JsonBody(reply).value) == Some(o.result.value)
  {
    Perform(url, token, env, Fetch("/api/events"), Checked(reply, EventList))
  }

  /** A `serde_json::Value` target: any value reads, as itself. */
  function Identity(v: Value): Option<Value> {
    Some(v)
  }

  function AnyList(v: Value): Option<seq<Value>> {
    ListOf(v, Identity)
  }

  /** `services` reads the body as a list of arbitrary values and never looks at the status. */
  function Services(url: Option<string>, token: Option<string>, env: Env, reply: Reply): (o: Outcome<seq<Value>>)
    ensures o.result.Success? <==> o.sent.Some? && JsonBody(reply).Some? && AnyList(JsonBody(reply).value).Some?
    ensures o.result.Success? ==> AnyList(JsonBody(reply).value) == Some(o.result.value)
  {
    Perform(url, token, env, Fetch("/api/services"), ReadJson(reply, AnyList))
  }

  function HistoryList(v: Value): Option<seq<HistoryResponse>> {
    ListOf(v, DecodeHistoryResponse)
  }

  /** The body of a history reply: one list of points per entity. */
  function HistoryLists(v: Value): Option<seq<seq<HistoryResponse>>> {
    ListOf(v, HistoryList)
  }

  /** `history`: the per-entity lists of the reply, flattened into one. */
  function History(url: Option<string>, token: Option<string>, env: Env, entity: Option<string>,
                   minimalResponse: bool, noAttributes: bool, significantChangesOnly: bool,
                   reply: Reply): (o: Outcome<seq<HistoryResponse>>)
    ensures o.result.Success? ==>
      && JsonBody(reply).Some? && HistoryLists(JsonBody(reply).value).Some?
      && o.result.value == Concat(HistoryLists(JsonBody(reply).value).value)
    ensures Resolve(url, token, env).Success? && reply.Reply? && IsSuccess(reply.status)
            && JsonBody(reply).Some? && HistoryLists(JsonBody(reply).value).Some? ==>
      o.result == Success(Concat(HistoryLists(JsonBody(reply).value).value))
    ensures reply.Reply? && !IsSuccess(reply.status) && o.sent.Some? ==> o.result == Failure(HttpStatus(reply.status))
  {
    var target := HistoryTarget(entity, minimalResponse, noAttributes, significantChangesOnly);
    var read :=
      match Checked(reply, HistoryLists)
      case Failure(e) => Failure(e)
      case Success(lists) => Success(Concat(lists));
    Perform(url, token, env, Fetch(target), read)
  }

  function LogBookList(v: Value): Option<seq<LogBook>> {
    ListOf(v, DecodeLogBook)
  }

  function Logbook(url: Option<string>, token: Option<string>, env: Env, entity: Option<string>, reply: Reply): (o: Outcome<seq<LogBook>>)
    ensures o.result.Success? <==>
      o.sent.Some? && reply.Reply? && IsSuccess(reply.status) && JsonBody(reply).Some? && LogBookList(JsonBody(reply).value).Some?
    ensures o.result.Success? ==> LogBookList(JsonBody(reply).value) == Some(o.result.value)
  {
    Perform(url, token, env, Fetch(LogbookTarget(entity)), Checked(reply, LogBookList))
  }

  function StatesList(v: Value): Option<seq<StatesResponse>> {
    ListOf(v, DecodeStatesResponse)
  }

  /**
   `states`: with no id, or an empty one, the collection is read as a list; with an id, the
   one state read is wrapped in a list. The status is not checked either way.
   */
  function States(url: Option<string>, token: Option<string>, env: Env, entity: Option<string>, reply: Reply): (o: Outcome<seq<StatesResponse>>)
    ensures o.result.Success? && entity.UnwrapOr("") == "" ==>
      && JsonBody(reply).Some? && JsonBody(reply).value.Array?
      && |o.result.value| == |JsonBody(reply).value.items|
      && forall i :: 0 <= i < |o.result.value| ==>
           DecodeStatesResponse(JsonBody(reply).value.items[i]) == Some(o.result.value[i])
    ensures o.result.Success? && entity.UnwrapOr("") != "" ==>
      && |o.result.value| == 1
      && JsonBody(reply).Some? && DecodeStatesResponse(JsonBody(reply).value) == Some(o.result.value[0])
    ensures Resolve(url, token, env).Success? && entity.UnwrapOr("") == ""
            && JsonBody(reply).Some? && StatesList(JsonBody(reply).value).Some? ==>
      o.result == Success(StatesList(JsonBody(reply).value).value)
    ensures Resolve(url, token, env).Success? && entity.UnwrapOr("") != ""
            && JsonBody(reply).Some? && DecodeStatesResponse(JsonBody(reply).value).Some? ==>
      o.result == Success([DecodeStatesResponse(JsonBody(reply).value).value])
  {
    var id := entity.UnwrapOr("");
    var read :=
      if id == "" then ReadJson(reply, StatesList)
      else
        match ReadJson(reply, DecodeStatesResponse)
        case Failure(e) => Failure(e)
        case Success(state) => Success([state]);
    Perform(url, token, env, Fetch(StatesTarget(entity)), read)
  }

  /** `error_log` fetches `/api/states` (not an error-log path) and returns the body text. */
  function ErrorLog(url: Option<string>, token: Option<string>, env: Env, reply: Reply): (o: Outcome<string>)
    ensures o.sent == States(url, token, env, None, reply).sent
    ensures o.result.Success? ==> reply.Reply? && reply.body.Some? && o.result.value == reply.body.value.text
    ensures Resolve(url, token, env).Success? && reply.Reply? && reply.body.Some? ==>
      o.result == Success(reply.body.value.text)
  {
    Perform(url, token, env, Fetch("/api/states"), ReadText(reply))
  }

  /** `camera_proxy` returns the body bytes, whatever the status. */
  function CameraProxy(url: Option<string>, token: Option<string>, env: Env, entity: string, time: U64, reply: Reply): (o: Outcome<seq<Byte>>)
    ensures o.result.Success? ==> reply.Reply? && reply.body.Some? && o.result.value == reply.body.value.bytes
    ensures Resolve(url, token, env).Success? && reply.Reply? && reply.body.Some? ==>
      o.result == Success(reply.body.value.bytes)
  {
    Perform(url, token, env, Fetch(CameraProxyTarget(entity, time)), ReadBytes(reply))
  }

  /** `calendars` panics (`unimplemented!`) before settling credentials or sending anything. */
  function Calendars(url: Option<string>, token: Option<string>, env: Env): (o: Outcome<seq<CalendarResponse>>)
    ensures o.sent.None? && o.result == Failure(Unimplemented)
  {
    Outcome(None, Failure(Unimplemented))
  }

  // ---------------------------------------------------------------------------------------
  // Handlers of `HomeAssistantPost` (POST)

  function PostState(url: Option<string>, token: Option<string>, env: Env, entity: string, request: StatesRequest, reply: Reply): (o: Outcome<StatesResponse>)
    ensures o.result.Success? <==>
      o.sent.Some? && reply.Reply? && IsSuccess(reply.status) && JsonBody(reply).Some? && DecodeStatesResponse(JsonBody(reply).value).Some?
    ensures o.result.Success? ==> DecodeStatesResponse(JsonBody(reply).value) == Some(o.result.value)
  {
    Perform(url, token, env, Submit("/api/states/" + entity, EncodeStatesRequest(request)), Checked(reply, DecodeStatesResponse))
  }

  function PostEvents(url: Option<string>, token: Option<string>, env: Env, eventType: string, data: Value, reply: Reply): (o: Outcome<SimpleResponse>)
    ensures o.result.Success? <==>
      o.sent.Some? && reply.Reply? && IsSuccess(reply.status) && JsonBody(reply).Some? && DecodeSimpleResponse(JsonBody(reply).value).Some?
    ensures o.result.Success? ==> DecodeSimpleResponse(JsonBody(reply).value) == Some(o.result.value)
  {
    Perform(url, token, env, Submit("/api/events/" + eventType, Some(data)), Checked(reply, DecodeSimpleResponse))
  }

  function Service(url: Option<string>, token: Option<string>, env: Env, domain: string, service: string,
                   data: Value, returnResponse: bool, reply: Reply): (o: Outcome<Value>)
    ensures o.result.Success? <==> o.sent.Some? && reply.Reply? && IsSuccess(reply.status) && JsonBody(reply).Some?
    ensures o.result.Success? ==> JsonBody(reply) == Some(o.result.value)
  {
    Perform(url, token, env, Submit(ServiceTarget(domain, service, returnResponse), Some(data)), Checked(reply, Identity))
  }

  function Template(url: Option<string>, token: Option<string>, env: Env, request: TemplateRequest, reply: Reply): (o: Outcome<string>)
    ensures o.result.Success? <==> o.sent.Some? && reply.Reply? && reply.body.Some?
    ensures o.result.Success? ==> o.result.value == reply.body.value.text
  {
    Perform(url, token, env, Submit("/api/template", Some(EncodeTemplateRequest(request))), ReadText(reply))
  }

  /** `config_check` posts an empty object. */
  function ConfigCheck(url: Option<string>, token: Option<string>, env: Env, reply: Reply): (o: Outcome<ConfigCheckResponse>)
    ensures o.sent.Some? <==> Resolve(url, token, env).Success?
    ensures o.sent.Some? ==>
      && o.sent.value.verb == Post && o.sent.value.body == Some("{}")
      && o.sent.value.url == Resolve(url, token, env).value.url + "/api/config/core/check_config"
    ensures o.result.Success? <==>
      o.sent.Some? && reply.Reply? && IsSuccess(reply.status) && JsonBody(reply).Some? && DecodeConfigCheckResponse(JsonBody(reply).value).Some?
    ensures o.result.Success? ==> DecodeConfigCheckResponse(JsonBody(reply).value) == Some(o.result.value)
  {
    EmptyObjectText();
    Perform(url, token, env, Submit("/api/config/core/check_config", Some(Object([]))), Checked(reply, DecodeConfigCheckResponse))
  }

  /** An empty object is written `{}`. */
  lemma EmptyObjectText()
    ensures Serialize(Object([])) == "{}"
  {
    var pieces := seq(0, i requires 0 <= i < 0 => Quote(""));
    assert Serialize(Object([])) == "{" + Join(pieces, ',') + "}";
  }

  function Intent(url: Option<string>, token: Option<string>, env: Env, data: Value, reply: Reply): (o: Outcome<string>)
    ensures o.result.Success? <==> o.sent.Some? && reply.Reply? && reply.body.Some?
    ensures o.result.Success? ==> o.result.value == reply.body.value.text
  {
    Perform(url, token, env, Submit("/api/intent/handle", Some(data)), ReadText(reply))
  }

  // ---------------------------------------------------------------------------------------
  // Every endpoint at once

  /** One call of a public handler, with its arguments (credentials and reply aside). */
  datatype Call =
    | ConfigCall
    | EventsCall
    | ServicesCall
    | HistoryCall(entity: Option<string>, minimalResponse: bool, noAttributes: bool, significantChangesOnly: bool)
    | LogbookCall(entity: Option<string>)
    | StatesCall(entity: Option<string>)
    | ErrorLogCall
    | CameraProxyCall(camera: string, time: U64)
    | CalendarsCall
    | PostStateCall(stateEntity: string, stateRequest: StatesRequest)
    | PostEventsCall(eventType: string, eventData: Value)
    | ServiceCall(domain: string, service: string, serviceData: Value, returnResponse: bool)
    | TemplateCall(templateRequest: TemplateRequest)
    | ConfigCheckCall
    | IntentCall(intentData: Value)

  /** What any handler returns. */
  datatype Output =
    | ConfigOut(config: ConfigResponse)
    | EventsOut(events: seq<EventResponse>)
    | ValuesOut(values: seq<Value>)
    | HistoryOut(history: seq<HistoryResponse>)
    | LogbookOut(logbook: seq<LogBook>)
    | StatesOut(states: seq<StatesResponse>)
    | TextOut(text: string)
    | BytesOut(bytes: seq<Byte>)
    | CalendarsOut(calendars: seq<CalendarResponse>)
    | StateOut(state: StatesResponse)
    | MessageOut(message: SimpleResponse)
    | ValueOut(value: Value)
    | CheckOut(check: ConfigCheckResponse)

  function Lift<T>(o: Outcome<T>, wrap: T -> Output): (r: Outcome<Output>)
    ensures r.sent == o.sent
    ensures r.result.Failure? <==> o.result.Failure?
    ensures o.result.Failure? ==> r.result.error == o.result.error
  {
    match o.result
    case Success(x) => Outcome(o.sent, Success(wrap(x)))
    case Failure(e) => Outcome(o.sent, Failure(e))
  }

  /** The handler `call` names, run with the given credentials against `reply`. */
  function Run(call: Call, url: Option<string>, token: Option<string>, env: Env, reply: Reply): Outcome<Output> {
    match call
    case ConfigCall => Lift(Config(url, token, env, reply), (x: ConfigResponse) => ConfigOut(x))
    case EventsCall => Lift(Events(url, token, env, reply), (x: seq<EventResponse>) => EventsOut(x))
    case ServicesCall => Lift(Services(url, token, env, reply), (x: seq<Value>) => ValuesOut(x))
    case HistoryCall(entity, m, n, sig) =>
      Lift(History(url, token, env, entity, m, n, sig, reply), (x: seq<HistoryResponse>) => HistoryOut(x))
    case LogbookCall(entity) => Lift(Logbook(url, token, env, entity, reply), (x: seq<LogBook>) => LogbookOut(x))
    case StatesCall(entity) => Lift(States(url, token, env, entity, reply), (x: seq<StatesResponse>) => StatesOut(x))
    case ErrorLogCall => Lift(ErrorLog(url, token, env, reply), (x: string) => TextOut(x))
    case CameraProxyCall(camera, time) =>
      Lift(CameraProxy(url, token, env, camera, time, reply), (x: seq<Byte>) => BytesOut(x))
    case CalendarsCall => Lift(Calendars(url, token, env), (x: seq<CalendarResponse>) => CalendarsOut(x))
    case PostStateCall(entity, request) =>
      Lift(PostState(url, token, env, entity, request, reply), (x: StatesResponse) => StateOut(x))
    case PostEventsCall(eventType, data) =>
      Lift(PostEvents(url, token, env, eventType, data, reply), (x: SimpleResponse) => MessageOut(x))
    case ServiceCall(domain, service, data, rr) =>
      Lift(Service(url, token, env, domain, service, data, rr, reply), (x: Value) => ValueOut(x))
    case TemplateCall(request) => Lift(Template(url, token, env, request, reply), (x: string) => TextOut(x))
    case ConfigCheckCall => Lift(ConfigCheck(url, token, env, reply), (x: ConfigCheckResponse) => CheckOut(x))
    case IntentCall(data) => Lift(Intent(url, token, env, data, reply), (x: string) => TextOut(x))
  }

  /** The handlers that turn a non-2xx status into an error before reading the body. */
  predicate ChecksStatus(call: Call) {
    || call.ConfigCall? || call.EventsCall? || call.HistoryCall? || call.LogbookCall?
    || call.PostStateCall? || call.PostEventsCall? || call.ServiceCall? || call.ConfigCheckCall?
  }

  /** The handlers of `HomeAssistantPost`. */
  predicate Posts(call: Call) {
    || call.PostStateCall? || call.PostEventsCall? || call.ServiceCall?
    || call.TemplateCall? || call.ConfigCheckCall? || call.IntentCall?
  }

  /** The method and target of the request a call sends; `calendars` has none. */
  function Route(call: Call): Option<Plan> {
    match call
    case CalendarsCall => None
    case _ => Some(SentPlan(call))
  }

  function SentPlan(call: Call): Plan
    requires !call.CalendarsCall?
  {
    match call
    case ConfigCall => Fetch("/api/config")
    case EventsCall => Fetch("/api/events")
    case ServicesCall => Fetch("/api/services")
    case HistoryCall(entity, m, n, sig) => Fetch(HistoryTarget(entity, m, n, sig))
    case LogbookCall(entity) => Fetch(LogbookTarget(entity))
    case StatesCall(entity) => Fetch(StatesTarget(entity))
    case ErrorLogCall => Fetch("/api/states")
    case CameraProxyCall(camera, time) => Fetch(CameraProxyTarget(camera, time))
    case PostStateCall(entity, request) => Submit("/api/states/" + entity, EncodeStatesRequest(request))
    case PostEventsCall(eventType, data) => Submit("/api/events/" + eventType, Some(data))
    case ServiceCall(domain, service, data, rr) => Submit(ServiceTarget(domain, service, rr), Some(data))
    case TemplateCall(request) => Submit("/api/template", Some(EncodeTemplateRequest(request)))
    case ConfigCheckCall => Submit("/api/config/core/check_config", Some(Object([])))
    case IntentCall(data) => Submit("/api/intent/handle", Some(data))
  }

  /** The body's JSON reading, read as a `T` by `decode`. */
  function Decoded<T>(body: Payload, decode: Value -> Option<T>): Option<T> {
    match body.json
    case None => None
    case Some(v) => decode(v)
  }

  /**
   What each call makes of a reply body, independent of status and of credentials: the JSON
   readers decode the body as their return type (`history` then flattens its lists, `states`
   with an id wraps its one state), the text and bytes readers take it as it is.
   */
  function Reading(call: Call, body: Payload): Option<Output> {
    match call
    case ConfigCall =>
      (match Decoded(body, DecodeConfigResponse) case Some(x) => Some(ConfigOut(x)) case None => None)
    case EventsCall =>
      (match Decoded(body, EventList) case Some(x) => Some(EventsOut(x)) case None => None)
    case ServicesCall =>
      (match Decoded(body, AnyList) case Some(x) => Some(ValuesOut(x)) case None => None)
    case HistoryCall(_, _, _, _) =>
      (match Decoded(body, HistoryLists) case Some(x) => Some(HistoryOut(Concat(x))) case None => None)
    case LogbookCall(_) =>
      (match Decoded(body, LogBookList) case Some(x) => Some(LogbookOut(x)) case None => None)
    case StatesCall(entity) =>
      if entity.UnwrapOr("") == "" then
        (match Decoded(body, StatesList) case Some(x) => Some(StatesOut(x)) case None => None)
      else
        (match Decoded(body, DecodeStatesResponse) case Some(x) => Some(StatesOut([x])) case None => None)
    case ErrorLogCall => Some(TextOut(body.text))
    case CameraProxyCall(_, _) => Some(BytesOut(body.bytes))
    case CalendarsCall => None
    case PostStateCall(_, _) =>
      (match Decoded(body, DecodeStatesResponse) case Some(x) => Some(StateOut(x)) case None => None)
    case PostEventsCall(_, _) =>
      (match Decoded(body, DecodeSimpleResponse) case Some(x) => Some(MessageOut(x)) case None => None)
    case ServiceCall(_, _, _, _) =>
      (match body.json case Some(x) => Some(ValueOut(x)) case None => None)
    case TemplateCall(_) => Some(TextOut(body.text))
    case ConfigCheckCall =>
      (match Decoded(body, DecodeConfigCheckResponse) case Some(x) => Some(CheckOut(x)) case None => None)
    case IntentCall(_) => Some(TextOut(body.text))
  }

  /**
   Once a request has gone out, the call succeeds exactly when a reply with a body came back,
   its status is 2xx if the call checks the status, and the body reads as the call's return
   type; what it returns is then that reading.
   */
  lemma ReplyReading(call: Call, url: Option<string>, token: Option<string>, env: Env, reply: Reply)
    requires Run(call, url, token, env, reply).sent.Some?
    ensures Run(call, url, token, env, reply).result.Success? <==>
      && reply.Reply? && reply.body.Some?
      && (ChecksStatus(call) ==> IsSuccess(reply.status))
      && Reading(call, reply.body.value).Some?
    ensures Run(call, url, token, env, reply).result.Success? ==>
      Run(call, url, token, env, reply).result.value == Reading(call, reply.body.value).value
  {
    if ChecksStatus(call) {
      if Posts(call) {
        CheckedPostReading(call, url, token, env, reply);
      } else {
        CheckedGetReading(call, url, token, env, reply);
      }
    } else {
      if Posts(call) {
        UncheckedPostReading(call, url, token, env, reply);
      } else {
        UncheckedGetReading(call, url, token, env, reply);
      }
    }
  }

  /** `ReplyReading` for the GET calls that check the status. */
  lemma CheckedGetReading(call: Call, url: Option<string>, token: Option<string>, env: Env, reply: Reply)
    requires call.ConfigCall? || call.EventsCall? || call.HistoryCall? || call.LogbookCall?
    requires Run(call, url, token, env, reply).sent.Some?
    ensures Run(call, url, token, env, reply).result.Success? <==>
      && reply.Reply? && reply.body.Some? && IsSuccess(reply.status)
      && Reading(call, reply.body.value).Some?
    ensures Run(call, url, token, env, reply).result.Success? ==>
      Run(call, url, token, env, reply).result.value == Reading(call, reply.body.value).value
  {
    match call
    case ConfigCall =>
      var o := Config(url, token, env, reply);
      assert Run(call, url, token, env, reply).result.Success? <==> o.result.Success?;
    case EventsCall =>
      var o := Events(url, token, env, reply);
      assert Run(call, url, token, env, reply).result.Success? <==> o.result.Success?;
    case HistoryCall(entity, m, n, sig) =>
      var o := History(url, token, env, entity, m, n, sig, reply);
      assert Run(call, url, token, env, reply).result.Success? <==> o.result.Success?;
    case LogbookCall(entity) =>
      var o := Logbook(url, token, env, entity, reply);
      assert Run(call, url, token, env, reply).result.Success? <==> o.result.Success?;
  }

  /** `ReplyReading` for the POST calls that check the status. */
  lemma CheckedPostReading(call: Call, url: Option<string>, token: Option<string>, env: Env, reply: Reply)
    requires call.PostStateCall? || call.PostEventsCall? || call.ServiceCall? || call.ConfigCheckCall?
    requires Run(call, url, token, env, reply).sent.Some?
    ensures Run(call, url, token, env, reply).result.Success? <==>
      && reply.Reply? && reply.body.Some? && IsSuccess(reply.status)
      && Reading(call, reply.body.value).Some?
    ensures Run(call, url, token, env, reply).result.Success? ==>
      Run(call, url, token, env, reply).result.value == Reading(call, reply.body.value).value
  {
    match call
    case PostStateCall(entity, request) =>
      var o := PostState(url, token, env, entity, request, reply);
      assert Run(call, url, token, env, reply).result.Success? <==> o.result.Success?;
    case PostEventsCall(eventType, data) =>
      var o := PostEvents(url, token, env, eventType, data, reply);
      assert Run(call, url, token, env, reply).result.Success? <==> o.result.Success?;
    case ServiceCall(domain, service, data, rr) =>
      var o := Service(url, token, env, domain, service, data, rr, reply);
      assert Run(call, url, token, env, reply).result.Success? <==> o.result.Success?;
    case ConfigCheckCall =>
      var o := ConfigCheck(url, token, env, reply);
      assert Run(call, url, token, env, reply).result.Success? <==> o.result.Success?;
  }

  /** `ReplyReading` for the GET calls that read the body whatever the status. */
  lemma UncheckedGetReading(call: Call, url: Option<string>, token: Option<string>, env: Env, reply: Reply)
    requires call.ServicesCall? || call.StatesCall? || call.ErrorLogCall? || call.CameraProxyCall? || call.CalendarsCall?
    requires Run(call, url, token, env, reply).sent.Some?
    ensures Run(call, url, token, env, reply).result.Success? <==>
      reply.Reply? && reply.body.Some? && Reading(call, reply.body.value).Some?
    ensures Run(call, url, token, env, reply).result.Success? ==>
      Run(call, url, token, env, reply).result.value == Reading(call, reply.body.value).value
  {
  }

  /** `ReplyReading` for the POST calls that read the body whatever the status. */
  lemma UncheckedPostReading(call: Call, url: Option<string>, token: Option<string>, env: Env, reply: Reply)
    requires call.TemplateCall? || call.IntentCall?
    requires Run(call, url, token, env, reply).sent.Some?
    ensures Run(call, url, token, env, reply).result.Success? <==>
      reply.Reply? && reply.body.Some? && Reading(call, reply.body.value).Some?
    ensures Run(call, url, token, env, reply).result.Success? ==>
      Run(call, url, token, env, reply).result.value == Reading(call, reply.body.value).value
  {
  }

  /**
   Once a request has gone out and come back with a non-2xx status, the call fails with that
   status exactly when it is one of the status-checking handlers; the others go on to read
   the body as if nothing were wrong.
   */
  lemma StatusPolicy(call: Call, url: Option<string>, token: Option<string>, env: Env, reply: Reply)
    requires reply.Reply? && !IsSuccess(reply.status)
    requires Run(call, url, token, env, reply).sent.Some?
    ensures Run(call, url, token, env, reply).result == Failure(HttpStatus(reply.status)) <==> ChecksStatus(call)
  {
  }

  /** The handlers that do not check the status return the same thing whatever the status is. */
  lemma StatusIgnored(call: Call, url: Option<string>, token: Option<string>, env: Env,
                      status: StatusCode, other: StatusCode, body: Option<Payload>)
    requires !ChecksStatus(call)
    ensures Run(call, url, token, env, Reply(status, body)) == Run(call, url, token, env, Reply(other, body))
  {
  }

  /**
   Every call but `calendars` sends its request once the credentials are settled and the body
   (if any) can be written; the request goes to the base URL with the call's target appended,
   and a POST always carries its body.
   */
  lemma SendsItsRoute(call: Call, url: Option<string>, token: Option<string>, env: Env, reply: Reply)
    requires Resolve(url, token, env).Success?
    ensures Route(call).None? ==> Run(call, url, token, env, reply).sent.None?
    ensures Route(call).Some? ==> var c := Resolve(url, token, env).value;
      match Route(call).value
      case Fetch(target) =>
        Run(call, url, token, env, reply).sent == Some(GetRequest(c, target))
      case Submit(target, body) =>
        && (Run(call, url, token, env, reply).sent.Some? <==> body.Some?)
        && (body.Some? ==> Run(call, url, token, env, reply).sent == Some(PostRequest(c, target, body).value))
        && (body.Some? ==> Run(call, url, token, env, reply).sent.value.body == Some(Serialize(body.value)))
  {
    if Posts(call) {
      SubmitsItsRoute(call, url, token, env, reply);
    } else if !call.CalendarsCall? {
      FetchesItsRoute(call, url, token, env, reply);
    }
  }

  /** `SendsItsRoute` for the GET calls that send something. */
  lemma FetchesItsRoute(call: Call, url: Option<string>, token: Option<string>, env: Env, reply: Reply)
    requires !Posts(call) && !call.CalendarsCall?
    requires Resolve(url, token, env).Success?
    ensures SentPlan(call).Fetch?
    ensures Run(call, url, token, env, reply).sent == Some(GetRequest(Resolve(url, token, env).value, SentPlan(call).target))
  {
  }

  /** `SendsItsRoute` for the POST calls. */
  lemma SubmitsItsRoute(call: Call, url: Option<string>, token: Option<string>, env: Env, reply: Reply)
    requires Posts(call)
    requires Resolve(url, token, env).Success?
    ensures SentPlan(call).Submit?
    ensures var c := Resolve(url, token, env).value; var plan := SentPlan(call);
      && (Run(call, url, token, env, reply).sent.Some? <==> plan.body.Some?)
      && (plan.body.Some? ==> Run(call, url, token, env, reply).sent == Some(PostRequest(c, plan.target, plan.body).value))
      && (plan.body.Some? ==> Run(call, url, token, env, reply).sent.value.body == Some(Serialize(plan.body.value)))
  {
  }

  /** No call sends anything without both credentials, and `calendars` never sends anything. */
  lemma NothingSentWithout(call: Call, url: Option<string>, token: Option<string>, env: Env, reply: Reply)
    ensures Resolve(url, token, env).Failure? ==>
      Run(call, url, token, env, reply) == Outcome(None, Failure(Resolve(url, token, env).error))
        || (call.CalendarsCall? && Run(call, url, token, env, reply) == Outcome(None, Failure(Unimplemented)))
    ensures call.CalendarsCall? ==> Run(call, url, token, env, reply) == Outcome(None, Failure(Unimplemented))
  {
  }
}
