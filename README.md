# Dashgram tracking SDK: event normalisation and response handling

A Dafny model of the core of the Dashgram Python SDK. The SDK forwards Telegram bot updates to the Dashgram analytics collector. The model covers four pieces:

- `wrap_event` in `utils.py` (module `Utils`). It decides whether a `dict` is already an update envelope. A `dict` that is not one, given with a handler kind, goes into `{"update_id": -1, <kind>: event}`.
- The source resolver in `integrations/base.py` (module `Integrations`). It takes the root segment of an object's `__module__` and looks it up in the four-entry table `_MAPPING`. It converts the object with the converter it finds, or returns `{}` when there is none.
- The error taxonomy in `exceptions.py` (module `Exceptions`): `DashgramError`, `InvalidCredentials` and `DashgramApiError`, with their message texts.
- The `Dashgram` client in `client.py` (module `Client`). Its constructor fixes the project URL, the origin and the bearer header. `track_event` normalises the event, builds the body `{"origin": ..., "updates": [event]}` and classifies the collector's reply.

Helper modules:

- `Wrappers` holds `Option` and `Result`.
- `Json` holds the JSON-compatible `Value` and `Dict = map<string, Value>`.
- `Decimal` models Python's `str()` of an `int`. Both the API error message and the project URL embed it. The module proves that the text reads back as the number.

How the outside world is modelled:

- The HTTP call is a parameter. `TrackEvent` takes `post: Request -> Response`, a function giving the collector's reply to the request posted.
- A reply is an HTTP status code plus the decoded body's `status` and `details` fields. Either field may be absent.
- The three framework converters are a parameter too, `convert: ConverterFn`. It stands for whatever `aiogram.object_to_dict`, `telegram.object_to_dict` and `telebot.object_to_dict` return or raise for the converter the table selects.
- A non-`dict` object is its `__module__` plus opaque state. `__module__` is absent on instances of built-in types such as `list` or `str`. For them `get_package` raises `AttributeError`, and the model carries that as `MissingModuleAttribute`.
- `str(handler_type)` is the string type `HandlerKind`. It is any string other than `"update_id"`. `enums.py` is not part of this model.

Three points where the code does less than a reader might expect; the model follows the code:

- A bare mapping with no `update_id` and no hint might be expected to be rejected as ambiguous. `wrap_event` returns it unchanged and raises nothing (`Utils.WrapEvent`).
- A reply whose HTTP status is not 200 might be expected to fail. The code only looks at the body's `status`, so a non-403 reply whose status is `"success"` succeeds whatever its code (`Client.SuccessBodyAccepted`).
- tests/test_client.py exercises a richer client than `client.py` contains: a `suppress_exceptions` flag, boolean results, `invited_by`, framework detection for the origin and a versioned default origin. None of these are in `client.py`. There, `track_event` returns nothing on success and raises on failure (`Client.Outcome`), and the default origin is the fixed text `"Python + Dashgram SDK"`.

## Model

| member | source | states |
|---|---|---|
| `Utils.WrapEvent` | src/dashgram/utils.py:22-25 | an event with a non-None `update_id`, or any event with no hint, comes back unchanged; otherwise the result has exactly the keys `update_id` ↦ -1 and the kind ↦ the original event |
| `Json.Get` | src/dashgram/utils.py:23 | `d.get(key)`: the stored value when the key is present, None when it is absent |
| `Utils.HasUpdateId` | src/dashgram/utils.py:23 | `event.get("update_id") is not None` holds exactly when the key is present and not mapped to None |
| `Utils.UnwrapWrap` | src/dashgram/utils.py:25 | the wrapped payload is stored whole: taking the kind's entry out of a synthetic envelope gives back the original event |
| `Utils.WrapWithHintHasUpdateId` | src/dashgram/utils.py:23-25 | with a hint the result always has a non-None `update_id` |
| `Utils.WrapIdempotent` | src/dashgram/utils.py:23-25 | wrapping twice with the same hint equals wrapping once |
| `Utils.WrapDoesNotMerge` | src/dashgram/utils.py:25 | no key of a wrapped event other than the kind and `update_id` appears at the envelope's top level |
| `Utils.NullUpdateIdIsWrapped` | src/dashgram/utils.py:23 | an `update_id` mapped to None counts as absent: with a hint the event is wrapped and gets id -1 |
| `Integrations.RootSegment` | src/dashgram/integrations/base.py:14 | `split(".")[0]`: the result is a prefix of the path with no dot in it, followed in the path by a dot unless it is the whole path |
| `Integrations.RootSegmentOfDotted` | src/dashgram/integrations/base.py:14 | for a dot-free `root`, the root segment of `root + "." + rest` is `root`, whatever `rest` is |
| `Integrations.RootSegmentOfUndotted` | src/dashgram/integrations/base.py:14 | a path without a dot is its own root segment |
| `Integrations.MappingTable` | src/dashgram/integrations/base.py:6-11 | `_MAPPING` has exactly the keys aiogram, telegram, telebot and telethon; each converter sits under its own root and telethon maps to None |
| `Integrations.GetPackage` | src/dashgram/integrations/base.py:13-17 | raises when the object has no `__module__`; otherwise returns the root segment exactly when it is a table key, and None when it is not |
| `Integrations.GetPackageNoneIffUnknown` | src/dashgram/integrations/base.py:6-17 | `get_package` gives None exactly when the root is not one of aiogram, telegram, telebot, telethon |
| `Integrations.DetermineObjectSource` | src/dashgram/integrations/base.py:19-21 | a converter found is the one registered under the object's root; each of the three supported roots finds one |
| `Integrations.DetermineSupportedSource` | src/dashgram/integrations/base.py:6-21 | an object whose module is `aiogram…`, `telegram…` or `telebot…`, with or without a sub-module, resolves to that framework's converter |
| `Integrations.DetermineUnsupportedSource` | src/dashgram/integrations/base.py:6-21 | unknown roots and `telethon`, whose table entry is None, resolve to no converter |
| `Integrations.ObjectToDict` | src/dashgram/integrations/base.py:24-29 | no converter gives `{}`; a converter found is applied to the object with the hint unchanged; a missing `__module__` propagates as an error |
| `Integrations.UnknownObjectToEmptyDict` | src/dashgram/integrations/base.py:26-27 | an object of no supported framework converts to the empty mapping, not to an error |
| `Integrations.SupportedObjectToDict` | src/dashgram/integrations/base.py:29 | an object of a supported framework, whose module is its root alone or a sub-module of it, is handed to that framework's converter with the hint forwarded |
| `Decimal.NatToString` | src/dashgram/exceptions.py:16 | the decimal spelling is non-empty, all digits, with no leading zero unless the number is 0 |
| `Decimal.IntToString` | src/dashgram/exceptions.py:16 | `str(n)` starts with a minus sign exactly when n is negative, and is digits otherwise |
| `Decimal.NatToStringRoundTrip` | src/dashgram/exceptions.py:16 | the digits written for n read back as n |
| `Decimal.IntToStringRoundTrip` | src/dashgram/exceptions.py:16 | `str(n)` parses back to n for every integer, so the text determines the code |
| `Exceptions.DefaultInvalidCredentials` | src/dashgram/exceptions.py:7-9 | `InvalidCredentials()` has the message "Invalid project_id or access_key" and is a `DashgramError` but not a `DashgramApiError` |
| `Exceptions.DashgramError.Message` | src/dashgram/exceptions.py:1-16 | `self.message` is the constructor's string for a plain or credentials error, and for an API error the details text, then " - Status Code: ", then the code in decimal |
| `Exceptions.DetailsText` | src/dashgram/exceptions.py:16 | `{self.details}` renders given details verbatim and missing ones as "None" |
| `Exceptions.MessageIsConstructorArgument` | src/dashgram/exceptions.py:1-4 | a `DashgramError` or `InvalidCredentials` built with a string has that string as its message |
| `Exceptions.EveryErrorIsDashgramError` | src/dashgram/exceptions.py:1-12 | every error of the taxonomy is an instance of `DashgramError`, because both other classes are declared with `DashgramError` as their parent and `isinstance` follows parents |
| `Exceptions.ApiErrorMessage` | src/dashgram/exceptions.py:12-16 | the message is details + " - Status Code: " + the code in decimal, and the text after the separator parses back to the code |
| `Exceptions.ApiErrorWithoutDetails` | src/dashgram/exceptions.py:16 | missing details render as "None" in the message |
| `Client.ProjectUrl` | src/dashgram/client.py:18-20 | the project URL is the given base URL, or `https://api.dashgram.io/v1`, then "/" and `str(project_id)` |
| `Client.ProjectIdText` | src/dashgram/client.py:20 | `{project_id}` renders a string id verbatim and an integer id as decimal text that parses back to the id |
| `Client.ProjectUrlEndsWithId` | src/dashgram/client.py:20 | for an integer project id the URL is the base, a slash, and digits that read back as the id |
| `Client.ResolveOrigin` | src/dashgram/client.py:22-24 | a supplied origin is kept verbatim; the default is "Python + Dashgram SDK" |
| `Client.AuthHeaders` | src/dashgram/client.py:26 | the only header is `Authorization` ↦ "Bearer " + access key |
| `Client.Normalize` | src/dashgram/client.py:30-33 | a `dict` goes through `wrap_event`, anything else through `object_to_dict`, with the hint forwarded in both cases |
| `Client.TrackBody` | src/dashgram/client.py:35 | the body has exactly the keys `origin` (the client's origin) and `updates`, a list of exactly one element, the event |
| `Client.Classify` | src/dashgram/client.py:39-45 | 403 gives `InvalidCredentials()`; otherwise the reply succeeds exactly when its status is "success", and fails with `DashgramApiError(status_code, details)` |
| `Client.ForbiddenIgnoresBody` | src/dashgram/client.py:39-40 | a 403 reply is rejected as invalid credentials whatever its body holds |
| `Client.SuccessBodyAccepted` | src/dashgram/client.py:44-45 | any non-403 reply whose status is "success" is accepted, even one that is not 200 |
| `Client.RejectedReplyError` | src/dashgram/client.py:44-45 | a rejected non-403 reply raises the API error with the reply's code and details, whose message is "details - Status Code: code" |
| `Client.Dashgram.constructor` | src/dashgram/client.py:12-26 | stores project id and access key as given, the project URL, the resolved origin, and an HTTP client for that URL with the bearer header |
| `Client.Dashgram.TrackEvent` | src/dashgram/client.py:28-45 | posts `TrackBody(origin, normalised event)` to "track" through the client's HTTP client and returns the outcome `Classify` gives for the reply; when normalisation raises, posts nothing and re-raises that error; changes no field of the client |
| `Client.EnvelopePostedUnchanged` | src/dashgram/client.py:33-35 | a `dict` that already has an `update_id` normalises to itself whatever the hint, and the body's single update is that `dict` as given |
| `Client.BarePayloadPostedWrapped` | src/dashgram/client.py:33-35 | a bare `dict` with a hint is posted in a synthetic envelope from which the original payload can be taken back |

## Left out

- `auto_async` (`utils.py`): it detects a running event loop and otherwise creates one. It is asynchronous runtime machinery, and `TrackEvent` is modelled as a direct call.
- The HTTP transport: the `httpx.AsyncClient`, the awaited `post` and `resp.json()`. They are foreign library code doing network I/O. The reply is the `post` parameter, and a body that fails to decode or is not a JSON object is not modelled.
- Exceptions raised by the HTTP call itself (timeouts, connection errors): `post` is a total function, so `Outcome` has no case for an error escaping from the request.
- `Client.Classify`: the reply's `status` and `details` are optional strings. A non-string JSON `details` is stored as it is by `DashgramApiError` and rendered through `str()` in its message; the model does not cover that case.
- How `httpx` joins the base URL and the relative path "track". `Request` keeps the client and the path apart.
- `bind_aiogram`, `bind_telegram`, `bind_telebot` and the adapters' `bind`. They register observers in the frameworks' dispatch pipelines.
- The SDK's adapter converters (`object_to_dict` in `integrations/aiogram.py`, `integrations/telegram.py` and `integrations/telebot.py`): they lie outside the modelled core. The telegram one is `obj.to_dict()`; the aiogram and telebot sources are not part of this model. The `convert` parameter stands for all of their behaviour, including wrapping a bare payload, raising when a hint is needed and missing, and raising when the framework library is absent.
- `enums.py` is not part of this model. `HandlerKind` is any string except "update_id", since that kind would collide with the envelope's own key.
- Object identity: `wrap_event` returns the very same `dict` object. The model works on values and only says the result is equal to the input.
- Key order of Python dicts, and JSON values other than null, booleans, integers, strings, lists and objects (floats).
- `Client.Dashgram.TrackEvent`: its promise that no field of the client changes is stated by its having no `modifies` clause, not by an `ensures`.
