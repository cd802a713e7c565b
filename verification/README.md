# id_allocation: request dispatch, response shaping, allocation handler and server config

This project is a Dafny model of the pure decision logic inside the `id_allocation` HTTP service. The service is a small Tornado server. It routes every request path through a table to a controller method. It turns the method's return value, or its failure, into the response. Its single shipped controller asks a database procedure to allocate identifiers. The model covers four things:

- **Routing and dispatch** (`Routing`, `Dispatch`). `SetCtrlInfo` builds the path → (controller class, method name) table, and the last registration of a path wins. Lookup is an exact string match. `__do` returns status 404 for three failures: an unknown path, a class without the named method, and a method that raises. The 404 carries the traceback as its reason and `None` as its result. A value the method returns is passed on unchanged with status 200.
- **Response formatting** (`Envelope`, `Formatting`). `__formatResp` is a case analysis over the dispatch outcome and three envelope classes: `Resp` (a `{code, msg, data}` JSON dict), `CommResp` (a raw payload or an error code) and `RenderResp`. Its result is either a status, headers and a body, or a request to render a template. The template name comes from the last two path segments and the `tpl` argument.
- **The allocation handler** (`Allocation`). It validates the body fields and builds the exact SQL text by concatenation. It then maps the database outcome to the envelope: no rows, first row as data, or the `repr` text of the exception the database access raised. `dict_factory` zips column names with row values.
- **Server configuration** (`Config`, `Server`). `HttpSvrConfig` copies six required keys and defaults three optional ones. It replaces an empty log path and fixes the bind address. `Start` appends a trailing `/` to the work path.

`Service` puts these together for the route list of `src/data_server.py` and follows requests from dispatch to the written response. That includes an example request for `g1` with `updated_nanosecond` 1000 and vids `v1`, `v2`.

Facts about the code worth knowing:

- The handler returns `data = {}` (an empty dict) for invalid input, for zero rows and for a database exception.
- On a database exception the envelope's `msg` is `repr(e)`, the exception's type name followed by its arguments in parentheses, such as `OperationalError('could not connect')`.
- A body that is not JSON, or is JSON but not an object, raises before validation; the handler does not catch it, so the client gets status 404.
- A `CommResp` with a code other than 200 writes its `data` as it is, not as text.
- `__formatResp` checks the status first. A failed dispatch therefore never reaches any envelope branch.

Shared helpers: `Text` covers `str.split` on one character, `str.join` and `"%d"`. Each comes with its inverse and the round-trip lemmas. `Assoc` builds a map from key/value pairs with the last pair winning, as `d[k] = v` in a loop and `dict(zip(...))` both do.

## Model

| member | source | states |
|---|---|---|
| Routing.SetCtrlInfo | src/httpsvr/httpsvr.py:59-67 | the table's keys are exactly the registered paths, and the last entry of the list decides its own path's target |
| Routing.ResolveIsLastRegistration | src/httpsvr/httpsvr.py:60-95 | looking a path up in the built table gives the target of that path's last registration, or nothing when it was never registered |
| Routing.ResolveFindsOnlyRegisteredPaths | src/httpsvr/httpsvr.py:95-97 | a path resolves if and only if some entry carries that exact string (no trailing-slash or other normalisation) |
| Routing.LaterRegistrationWins | src/httpsvr/httpsvr.py:62-66 | an entry whose path is not registered again later is the one a lookup of that path finds |
| Assoc.FromPairsIsLastValue | src/httpsvr/httpsvr.py:61-67 | the map built by assigning pairs in order agrees, key by key, with scanning the pairs backwards for the last one with that key |
| Dispatch.Do | src/httpsvr/httpsvr.py:87-116 | status is 200 or 404. It is 200 with an empty reason exactly when the path resolves, the class has the method and the method returns, and then the returned value is passed on unchanged. Otherwise the status is 404 and the result is `None` |
| Dispatch.Failed | src/httpsvr/httpsvr.py:112-116 | the except branch sets status 404, a non-empty reason and a `None` result |
| Dispatch.Traceback | src/httpsvr/httpsvr.py:113 | the reason is longer than the exception's text and ends with that text as its last line |
| Dispatch.MissNeverInvokes | src/httpsvr/httpsvr.py:95-109 | for an unregistered path, or a class lacking the method, the outcome is 404 and is the same whatever the controller method would do, so the method is never invoked |
| Dispatch.RaisedBecomesReason | src/httpsvr/httpsvr.py:111-116 | a method that raises gives status 404, its traceback as the reason and `None` as the result |
| Dispatch.DoUsesLastRegistration | src/httpsvr/httpsvr.py:60-116 | dispatch over a registration list calls the controller method of the path's last registration and forwards its return value or failure. It reports "no ctrl match" for a path never registered, and "no class.method match" when that class lacks the method |
| Envelope.Resp | src/httpsvr/httpsvr.py:219-225 | `Resp(data=None, code=0, msg="")` holds a dict with exactly the keys code, msg, data, and that dict reads back as the given fields |
| Envelope.DecodedEnvelopeIsResp | src/httpsvr/httpsvr.py:224-225 | every dict that reads as an envelope is the dict `Resp` builds from what it reads back (the inverse direction) |
| Formatting.FormatResp | src/httpsvr/httpsvr.py:122-171 | a failed dispatch clears headers, sets its status and writes the reason, or the status number when the reason is empty, and no envelope branch runs. A `CommResp` with code ≠ 200 does the same with its code and data. A `CommResp` with code 200 writes its data; it sets Content-Type and CORS headers when a content type is given and no headers otherwise. `RenderResp` becomes a render request. A `Resp` or dict is JSON with the JSON headers when there is no `tpl`. When there is one, it becomes a render request for the template named from the last two path segments with the dict as fields, or the IndexError when the path has fewer than two segments. `None` writes nothing. Any other value is written as it is with status 200 and no headers |
| Formatting.CommRespDefaultsWritePayload | src/httpsvr/httpsvr.py:146-151 | a `CommResp` with its default code 200 is written as its data with status 200, with the content-type and CORS headers exactly when a content type is given; `CommResp()` with every default writes `None` with no headers |
| Formatting.RenderRespIgnoresTpl | src/httpsvr/httpsvr.py:134-136 | a returned `RenderResp` is rendered under its own template name with its own keyword arguments, whatever the `tpl` argument |
| Formatting.FailureBodyNamesStatus | src/httpsvr/httpsvr.py:124-131 | a failed request's body is non-empty text: the reason, or a number that reads back as the status |
| Formatting.CommErrorBodyNamesCode | src/httpsvr/httpsvr.py:139-145 | a `CommResp` with an error code and empty data writes a text that reads back as that code, with that code as status |
| Formatting.RespIsWrittenAsEnvelope | src/httpsvr/httpsvr.py:153-169 | a returned `Resp` without `tpl` is sent with status 200 and the JSON headers, and its body reads back as the handler's code, msg and data |
| Formatting.TemplateNameOfSegments | src/httpsvr/httpsvr.py:157-162 | for a path ending in `/dir/leaf`, the rendered template is `dir_leaf_<tpl>.html` |
| Formatting.TemplateNameFailsWithoutSlash | src/httpsvr/httpsvr.py:159-160 | building the template name fails (an IndexError escaping formatting) exactly when the path contains no `/` |
| Text.JoinSplit | src/httpsvr/httpsvr.py:159 | joining the `split("/")` segments with `/` gives back the path, so no character is lost |
| Text.SplitJoin | src/controller/allocation_controller.py:66 | splitting a `,`-join of a non-empty list of comma-free items on `,` gives back the items |
| Text.DecimalRoundTrip | src/httpsvr/httpsvr.py:130 | the `"%d"` text of any integer, negative ones included, reads back as that integer |
| Server.NormalizeWorkPath | src/httpsvr/httpsvr.py:192-194 | the result ends with `/`, starts with the configured path and is at most one character longer, and a path already ending in `/` is unchanged |
| Server.NormalizeIdempotent | src/httpsvr/httpsvr.py:192-194 | normalising twice equals normalising once |
| Config.Lookup | src/httpsvr/config.py:10-12 | `config["server"][key]` succeeds exactly when the server table exists and has the key, yields that entry, and otherwise reports the missing key or the non-table `server` |
| Config.Load | src/httpsvr/config.py:8-36 | loading fails exactly when one of port, work_path, server_name, log_path, log_level, log_max_size is missing. Otherwise those are copied verbatim, thread_count defaults to 8 and process_count and max_buffer_size to 0, an empty log_path becomes `./log` (any other is kept), and ip is always 127.0.0.1 |
| Config.LoadReportsFirstMissing | src/httpsvr/config.py:10-25 | a failing load reports the first missing required key in the order the constructor reads them |
| Allocation.DictFactoryMapsColumns | src/controller/allocation_controller.py:21-26 | with distinct column names and a full row, the row dict has exactly the column names as keys and maps each column to its own value |
| Allocation.Handle | src/controller/allocation_controller.py:34-84 | a body that is not a JSON object (not JSON at all, or `[]`, `null`, a number) raises with that exception's text. A missing or empty graph_id, a missing or zero updated_nanosecond, or missing or empty vids give `Resp(code=-1, msg="Invalid input body", data={})`. Otherwise the query for exactly those fields is sent once and its outcome becomes the envelope. The method always returns a readable envelope when it does not raise |
| Allocation.EnvelopeCodeMeansSuccess | src/controller/allocation_controller.py:69-84 | the code is 0 or -1. It is 0 exactly when the input is valid and the database returned at least one row, and then msg is empty and data is a dict. A code of -1 always carries data `{}` |
| Allocation.InvalidInputSkipsBackend | src/controller/allocation_controller.py:49-55 | for input that fails validation the result is the same for every database, so no query is issued |
| Allocation.ArrayLiteralListsVids | src/controller/allocation_controller.py:66 | the array literal is `ARRAY[` … `]`, and for a non-empty list of vids none of which contains `,`, its inside splits on `,` into the vids, each wrapped in single quotes, in input order |
| Allocation.ArrayLiteralIsNotEscaped | src/controller/allocation_controller.py:66 | quotes inside a vid are not escaped: the single vid `a','b` yields the same literal as the two vids `a` and `b` |
| Service.UnknownPathIsNotFound | src/data_server.py:31-33 | with the shipped route list, every other path, including the registered one plus a trailing `/`, gets status 404 with a non-empty text body |
| Service.MalformedBodyIsNotFound | src/controller/allocation_controller.py:47-49 | a body that is not a JSON object is not caught by the handler and reaches the client as status 404 with the traceback as the body |
| Service.AllocationRouteAnswers | src/controller/allocation_controller.py:49-84 | for a well-formed body on the allocation route (GET or POST), the client gets status 200 with JSON headers. The envelope is: invalid-input for bad fields, code -1 with the exception's `repr` text on a database failure, code -1 with `allocation ID=null` for no rows, and otherwise code 0 with the first row as data |
| Service.ExampleQueryText | src/controller/allocation_controller.py:66-67 | the example request sends exactly `SELECT * FROM process_id_allocation(ARRAY['v1','v2'], 'g1', 1000);` |
| Service.ExampleAllocationSucceeds | src/controller/allocation_controller.py:69-84 | the example request against a database returning one row yields code 0, empty msg and data `{"return_graph_id": "g1", "return_updated_nanosecond": 1000}` |
| Service.ExampleAllocationFindsNothing | src/controller/allocation_controller.py:71-74 | the example request against a database returning no rows yields code -1, msg `allocation ID=null`, data `{}` |

## Left out

- Tornado runtime: socket binding, `fork_processes`, the IOLoop, the thread-pool executor behind `run_on_executor` and the coroutines (src/httpsvr/httpsvr.py:54-56, 73-87, 185-216). These are I/O and concurrency, so dispatch is modelled as one sequential function. The choice between forked and single-process binding, and the `max_buffer_size` server option, belong to this part and are not modelled.
- Timing and logging (src/httpsvr/httpsvr.py:89, 115, 118-123) are clock reads, floating point and side effects.
- Template rendering is an external engine. The model stops at the `RenderTemplate(name, fields)` request. A render failure re-raised at src/httpsvr/httpsvr.py:163-165 is not modelled.
- `json.dumps` and `json.loads` are library code. A JSON body is kept as an abstract dict (`JsonDoc`), and a request body arrives already decoded, or as the text of the exception decoding or `data.get` raised. Key order in dicts is not modelled.
- Tornado's own checks on what `write` and `finish` accept, and the default headers `clear()` restores, belong to the framework. Headers in the model are only those this code sets, and a payload is passed on as it is (`Payload`).
- Verbs other than GET and POST are answered 405 by Tornado itself, since `BaseHandler` defines only `get` and `post` (src/httpsvr/httpsvr.py:73-85); `Dispatch.Verb` has just those two, so such requests are outside the model.
- Dispatch.Traceback: the stack frame lines of `traceback.format_exc()` are not modelled; only its first line and the exception's last line are.
- psycopg2 (`get_write_conn`, `cursor`, `execute`, `fetchall`, `close`) is a foreign library. It is replaced by a `Backend` function from query text to rows or the `repr` text of the raised exception; the `repr` of an exception is taken as given, not computed. A failure while closing the cursor after a successful fetch is not modelled.
- Allocation.Handle: body fields whose JSON type differs from the documented one (a number as `graph_id`, a string as `vids`, `false` as `updated_nanosecond`) are not modelled. Each field is either absent or has its documented type.
- The connection pool and TOML loading in src/setting/__init__.py are not part of this model. The pool is a thin wrapper over psycopg2, and the handler does not use it. The rest is file I/O and global state.
- `BaseController.__init__` and `get_json_body` (src/httpsvr/httpsvr.py:20-45) are not modelled. Building a controller instance cannot fail for the shipped controller, and `get_json_body` is never called. The controller's attribute set in `Service` lists only its own method.
- src/controller/hello_controller.py is not registered by the shipped route list and returns a constant, so it is not modelled.
