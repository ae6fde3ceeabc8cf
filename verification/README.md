# homeassistant-rs, modelled in Dafny

homeassistant-rs is an async Rust client for the Home Assistant REST API. It has two
handler objects:

- `HomeAssistant` has nine handler methods. Eight of them send a GET; `calendars` panics
  before sending anything.
- `HomeAssistantPost` has six handler methods, each sending a POST.

Every handler follows the same steps:

1. It settles the base URL and bearer token. Each comes from an explicit argument when one
   is given, else from the `HA_URL` / `HA_TOKEN` environment.
2. It appends a request target to the URL as it is, and sends a GET or a JSON POST.
3. It reads the reply in its own way. Some handlers check the status first. Others read the
   body whatever the status is.

The typed records of `src/structs.rs` are read from and written to JSON by serde's derived
code.

This project models that core:

- `wrappers.dfy`: `Option` and `Result`.
- `text.dfy`: decimal rendering, Rust-style `split`/`join` on one character, and splitting
  a request target at its first `?`.
- `json.dfy`: JSON values. Objects keep their members in document order, duplicates
  included. The module also gives serde_json's compact `to_string`.
- `structs.dfy`: the records and serde's reading and writing rules for them:
  - required and `Option` fields;
  - duplicate fields;
  - the positional array form;
  - the `context_id` alias;
  - the flattened `other_fields` catch-all;
  - the flattened `attributes` of `StatesRequest`;
  - `u16` bounds.
- `transport.dfy`: credential resolution, the `request`/`post` helpers, and the ways a
  reply is read (JSON with or without a status check, text, bytes).
- `handlers.dfy`: every public handler:
  - its request target;
  - the flattening of the history reply;
  - a single dispatcher `Run` over all calls.

  Lemmas then state, over every endpoint at once, the status policy, what each call makes
  of a reply body, the routing, and the cases where nothing is sent.

The HTTP exchange is not modelled; a handler receives the reply as an input. A `Reply`
is either:

- `NoReply`: sending failed; or
- a status code with a body, the body being `None` when reading it failed. A body has three
  forms: bytes, text, and parsed JSON (`None` when it is not JSON).

Handlers return an `Outcome`: the request they handed to reqwest (if any) and their result. Errors are
abstracted to these kinds:

- a missing credential, with its message;
- a non-2xx status;
- a failed send or read;
- an undecodable body;
- an unserialisable request body;
- the `unimplemented!` panic of `calendars`.

Behaviour that is kept exactly as the source does it:

- `Validate::arg` only checks that an argument is present. An explicit empty string is used
  as the URL or token and does not fall back to the environment. One might expect an empty
  value to fall back; the code does not do that, and the model follows the code.
- `error_log` fetches `/api/states`, not `/api/error_log`, and returns the body text.
- `logbook` always appends `?`. With no entity the target is `/api/logbook?`, and an entity
  id becomes the whole query string, with no `key=`.
- Entity ids, domains, services and event types are pasted into targets unescaped
  (`HistoryIdNotEscaped` shows two different calls that send the same request).
- `post` skips the body only when its JSON text is empty, which never happens. Every POST
  carries its body.
- `calendars` panics before it settles credentials or sends anything.

## Model

| member | source | states |
|---|---|---|
| Transport.Arg | src/lib.rs:103-111 | An argument is accepted exactly when it is present, whatever it holds (an empty string included). |
| Transport.Resolve | src/lib.rs:162-172 | Credentials resolve iff each of URL and token comes from the argument or the environment. An explicit argument takes precedence over the environment. The URL is settled first, so with both missing the error is "HA_URL is required"; with only the token missing it is "HA_TOKEN is required". |
| Transport.GetRequest | src/lib.rs:117-123 | A GET carries no body and the bearer token. Its URL is exactly the base URL followed by the target. |
| Transport.NoSlashNormalisation | src/lib.rs:117-123 | A base URL ending in `/` joined with a target starting with `/` keeps both slashes. |
| Transport.PostRequest | src/lib.rs:125-145 | A POST goes to base URL + target with the bearer token. It fails, with nothing sent, iff the body cannot be serialised. Otherwise it always carries the body's compact JSON text. |
| Transport.ReadJson | src/lib.rs:340-354 | The body is read as a `T` whatever the status. It succeeds iff the body is JSON that decodes, and the value is the decoded one. |
| Transport.Checked | src/lib.rs:174-179 | A non-2xx status is the error and carries that status; with a 2xx status the body is read as by `ReadJson`. |
| Transport.ReadText | src/lib.rs:377 | The result is the body text, whatever the status; it fails only when there is no body. |
| Transport.ReadBytes | src/lib.rs:406-413 | The result is the body bytes, whatever the status; it fails only when there is no body. |
| Json.Serialize | src/lib.rs:131 | The compact JSON text of any value is non-empty. |
| Json.Without | src/structs.rs:48-49 | The flattened catch-all keeps exactly the keys no named field takes. |
| Json.LastWinsValue | src/structs.rs:48-49 | In the catch-all map a key is bound to the value of its last occurrence. |
| Json.LastWinsWithout | src/structs.rs:48-49 | Removing the named fields' members does not change what the catch-all binds the other keys to. |
| Json.ValuesAtDisjoint | src/structs.rs:58-59 | Looking up a field and its alias together finds the values of both, so one of them alone gives that one's values. |
| Structs.AsU16 | src/structs.rs:28 | A `u16` field reads iff it is an integer in 0..65535. |
| Structs.ListOf | src/lib.rs:205 | A `Vec<T>` reads iff it is an array whose every element reads. The result has one decoded element per element, in order. |
| Structs.RequiredField | src/structs.rs:5-14 | A non-`Option` field reads iff it is given exactly once and its value reads. |
| Structs.OptionalField | src/structs.rs:33-37 | An `Option` field reads iff it is absent, or given once as `null` or as a value that reads. Absent and `null` read as `None`. |
| Structs.DecodeConfigResponse | src/structs.rs:3-15 | An object reads iff all ten fields are present once and well typed. The result holds the value of each of the ten fields. Anything but an object or array is refused. |
| Structs.DecodeUnitSystem | src/structs.rs:17-23 | An object reads iff its four string fields are present once; the result holds them. |
| Structs.DecodeEventResponse | src/structs.rs:25-29 | An object reads iff `event` is a string and `listener_count` an integer in 0..65535, each given once. The array form is exactly `[event, listener_count]`. |
| Structs.ListenerCountRange | src/structs.rs:28 | An event with listener count `n` reads iff 0 <= n <= 65535, and then holds `n`. |
| Structs.DecodeHistoryResponse | src/structs.rs:31-38 | An object reads iff `state` and `last_changed` are present once and the optional fields are absent, `null` or well typed. The result holds the values given. |
| Structs.DecodeAttributes | src/structs.rs:40-50 | Only objects read. The six named keys are optional. `other_fields` has exactly the object's other keys. |
| Structs.AttributesKeepOthers | src/structs.rs:48-49 | Every unnamed key of the object is kept in `other_fields` with the value of its last occurrence. |
| Structs.DecodeLogBook | src/structs.rs:52-62 | An object reads iff `name`, `entity_id` and `when` are present once and the optional fields are well typed. `context_id` is read from `context_id` or `context_user_id`. |
| Structs.LogBookContextAlias | src/structs.rs:58-59 | Whichever of `context_id` and `context_user_id` the entry uses fills `context_id`. |
| Structs.LogBookBothContextKeys | src/structs.rs:58-59 | An entry giving both `context_id` and `context_user_id` names the field twice and is refused. |
| Structs.DecodeStatesResponse | src/structs.rs:64-73 | An object reads iff `state` is present once and the six optional fields are absent, `null` or well typed. The result holds the values given. |
| Structs.StatesResponseMissingFields | src/structs.rs:64-73 | `{"state": s}` reads with every optional field `None`; an object without `state` is refused. |
| Structs.DecodeContext | src/structs.rs:75-80 | An object reads iff `id` is present once and the optional ids are well typed. The array form puts `id` first. |
| Structs.DecodeSimpleResponse | src/structs.rs:95-98 | An object reads iff `message` is a string given once. The array form is `[message]`. |
| Structs.DecodeConfigCheckResponse | src/structs.rs:105-110 | An object reads iff `result` is a string given once and `errors`/`warnings` are absent, `null` or strings. |
| Structs.EncodeStatesRequest | src/structs.rs:88-93 | The body has the key `state` and every member of the attributes object beside it. Any key other than `state` has the attributes' values. Writing fails iff the attributes are neither absent, `null` nor an object. |
| Structs.StatesRequestWithoutAttributes | src/structs.rs:88-93 | With no attributes the body is exactly `{"state": s}`. |
| Structs.EncodeTemplateRequest | src/structs.rs:100-103 | The body is an object whose only key is `template`, holding the template string. |
| Handlers.Perform | src/lib.rs:162-174 | Nothing is sent when a credential is missing (the result is that error). A request is sent only once credentials resolve, and then the result is what the reply reading gives. |
| Handlers.HistoryQuery | src/lib.rs:256-272 | For an id without `&`, the target's path is `/api/history/period` and its query, split on `&`, is `filter_entity_id=<id>` followed by exactly the requested flags, bare and in order: `minimal_response`, `no_attributes`, `significant_changes_only`. |
| Handlers.HistoryIdNotEscaped | src/lib.rs:256-270 | For every id and every choice of the other two flags, the id followed by `&minimal_response` sends the same request as the id alone with `minimal_response` asked for. |
| Handlers.LogbookQuery | src/lib.rs:305-312 | The logbook target's path is `/api/logbook` and its query is the entity id itself. With no id the target ends in a bare `?`. |
| Handlers.StatesPath | src/lib.rs:340-351 | For an id without `/` or `?`: an absent or empty id targets `/api/states`, a non-empty id adds exactly one path segment, the id, and neither has a query. |
| Handlers.CameraProxyQuery | src/lib.rs:409 | For an entity without `?`, the camera target's path names the entity and its query is `time=` followed by decimal digits that read back as the given time. |
| Text.DecimalRoundTrip | src/lib.rs:409 | The decimal text of a `u64` reads back as that number. |
| Handlers.ServiceQuery | src/lib.rs:547-554 | For a domain and service without `/` or `?`, the service target's path segments are `api`, `services`, domain, service. The query is the bare `return_response` exactly when a response is asked for, and absent otherwise. |
| Handlers.ConcatLength | src/lib.rs:277-282 | The flattened history has as many points as the per-entity lists together. |
| Handlers.ConcatIndex | src/lib.rs:277-282 | Point `j` of entity list `i` sits in the flattened history right after all the points of the lists before it. |
| Handlers.Flatten | src/lib.rs:277-282 | Element-by-element flattening gives the concatenation of the lists, with their total length. |
| Handlers.Config | src/lib.rs:157-181 | The call succeeds iff the request went out, the reply is 2xx and its body decodes as a `ConfigResponse`; the result is that decoded value. |
| Handlers.Events | src/lib.rs:183-208 | The call succeeds iff the request went out, the reply is 2xx and its body decodes as a list of events; the result is that list. |
| Handlers.Services | src/lib.rs:210-233 | The call succeeds iff the request went out and the body is a JSON array, whatever the status; the result is its elements. |
| Handlers.Logbook | src/lib.rs:287-320 | The call succeeds iff the request went out, the reply is 2xx and its body decodes as a list of logbook entries; the result is that list. |
| Handlers.PostState | src/lib.rs:455-481 | The call succeeds iff the request went out, the reply is 2xx and its body decodes as a `StatesResponse`; the result is that state. |
| Handlers.PostEvents | src/lib.rs:489-516 | The call succeeds iff the request went out, the reply is 2xx and its body decodes as a `SimpleResponse`; the result is that message. |
| Handlers.Service | src/lib.rs:523-565 | The call succeeds iff the request went out, the reply is 2xx and its body is JSON; the result is that JSON value. |
| Handlers.Template | src/lib.rs:567-592 | The call succeeds iff the request went out and a body came back, whatever the status; the result is the body text. |
| Handlers.Intent | src/lib.rs:623-647 | The call succeeds iff the request went out and a body came back, whatever the status; the result is the body text. |
| Handlers.History | src/lib.rs:272-283 | A successful history call returns the concatenation of the per-entity lists the body decodes to. Conversely, once sent, a 2xx reply whose body decodes as lists of points gives exactly that concatenation, and a non-2xx reply gives that status as the error. |
| Handlers.States | src/lib.rs:339-356 | With no id, the body is an array and each element decodes to the corresponding returned state. With an id, the result is a single state decoded from the body. Conversely, once credentials resolve, a body that decodes in the expected shape is returned, whatever the status. |
| Handlers.ErrorLog | src/lib.rs:377 | `error_log` sends the same request as `states` with no id. It succeeds, with the body text, exactly when a body came back, whatever the status. |
| Handlers.CameraProxy | src/lib.rs:406-415 | Once credentials resolve, the call succeeds, with the body bytes, exactly when a body came back, whatever the status. |
| Handlers.Calendars | src/lib.rs:420-427 | `calendars` fails with the `unimplemented!` panic and sends nothing. |
| Handlers.ConfigCheck | src/lib.rs:594-619 | Once credentials resolve, the configuration check always sends a POST of `{}` to the base URL followed by `/api/config/core/check_config`. It succeeds iff the reply is 2xx and its body decodes as a `ConfigCheckResponse`, which is then the result. |
| Handlers.EmptyObjectText | src/lib.rs:611 | `json!({})` is written as `{}`. |
| Handlers.StatusPolicy | src/lib.rs:157-647 | After a non-2xx reply, a call fails with that status iff it is one of: `config`, `events` (GET), `history`, `logbook`, `state` (POST), `events` (POST), `service`, `config_check`. |
| Handlers.ReplyReading | src/lib.rs:157-647 | Once a request has gone out, a call succeeds iff a body came back, the status is 2xx for the status-checking calls, and the body reads as the call's return type. The result is then that reading, so the other calls go on to read the body whatever the status. |
| Handlers.StatusIgnored | src/lib.rs:210-415 | `services`, `states`, `error_log`, `camera_proxy`, `template` and `intent` return the same outcome whatever the status. |
| Handlers.SendsItsRoute | src/lib.rs:117-145 | Once credentials resolve, a call with no route (`calendars`) sends nothing. Every other call sends a GET of its target, or a POST carrying its serialised body. A POST is sent iff the body can be written. |
| Handlers.NothingSentWithout | src/lib.rs:420-427 | Without credentials no call sends anything. `calendars` never does. |

## Left out

- The HTTP exchange itself is not modelled (reqwest, TLS, timeouts, async scheduling). A
  reply is an input to each handler.
- Reading `HA_URL` and `HA_TOKEN` (dotenvy, the `lazy_static` globals and `GlobalVars::new`)
  is not modelled. The environment is the `Env` parameter.
- Parsing JSON text is not modelled. A body arrives already parsed, or `None` when it is not
  JSON.
- Floating point is not modelled: a `Json.Value` number is always an integer, so no
  fractional number appears anywhere in the model. This covers:
  - the three `f64` fields of `ConfigResponse`;
  - the numbers inside every `serde_json::Value`: `Attributes.other_fields`, the `services`
    list, the `service` reply, the event, service and intent request bodies, and
    `StatesRequest.attributes`;
  - serde_json's writing of floats;
  - a `u16` field given as `3.0`, which serde_json refuses; the model has no such number.
- serde_json's duplicate-key handling inside every `serde_json::Value` is not modelled; this
  includes the `service` reply and the `services` elements. serde_json keeps the last value
  of a repeated key and orders `serde_json::Map` keys; `Handlers.Service` and
  `Handlers.Services` return the parsed tree with duplicates kept, in document order.
  `Json.Serialize` writes members in the given order.
- The request's headers other than the bearer token are not modelled. `.json(..)` also sets
  `Content-Type: application/json` on every POST; `Transport.Request` records no such header.
- Handlers.HistoryQuery: stated only for an id without `&`. Such an id is pasted in unescaped
  and adds parameters of its own, as `Handlers.HistoryIdNotEscaped` shows.
- Handlers.StatesPath: stated only for an id without `/` or `?`. Such an id adds path
  segments or starts a query, because it is not escaped.
- Handlers.CameraProxyQuery: stated only for an entity without `?`, which would start the
  query early.
- Handlers.ServiceQuery: stated only for a domain and service without `/` or `?`, for the
  same reason.
- Error message texts other than the two credential messages are not modelled. Errors are
  abstracted to kinds.
- The code after `unimplemented!` in `calendars` can never run and is not modelled.
- `CalendarResponse` and `ServicesResponse` are declared but never read by any handler.
  `ServicesResponse` is not modelled; `services` reads a list of arbitrary values.
- Reading `StatesRequest` (it also derives `Deserialize`) is not modelled, because no
  handler reads it.
- `HomeAssistant::request` and `hass()` only hand out the unit handler objects and are not
  modelled.
- Structs.EncodeStatesRequest: flattening `Some(null)` is accepted as contributing nothing.
  Recent serde releases do this; older ones refused to flatten a unit value.
- `services` reads the body as bytes and parses them itself. The model reads the parsed
  body, which is the same value.
- The URL is never parsed. `sent` is the request handed to reqwest. An explicit empty base
  URL gives a relative URL that reqwest refuses to send; the model still records the request,
  and the refusal arrives as `NoReply` (`SendFailed`).
