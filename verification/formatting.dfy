/**
 * `BaseHandler.__formatResp` (src/httpsvr/httpsvr.py): turn the outcome of
 * dispatch into the one thing written back, a status with headers and a body,
 * or a request to render a template. Template rendering itself is an external
 * engine; the model stops at the `RenderTemplate` request.
 */
module Formatting {
  import opened Wrappers
  import opened Values
  import opened Text
  import opened Envelope
  import opened Dispatch

  /** What is handed to tornado's `write` / `finish`. */
  datatype Body =
      /** text the framework itself produces (a reason or a status number) */
    | PlainText(text: string)
      /** a dict written with `json.dumps`; the serialised bytes are not modelled */
    | JsonDoc(doc: map<string, Value>)
      /** a value from the controller passed on as it is; how tornado writes it is not modelled */
    | Payload(value: Value)
      /** nothing is written */
    | NoBody

  datatype ResponseAction =
    | Send(status: int, headers: map<string, string>, body: Body)
    | RenderTemplate(name: string, fields: map<string, Value>)
      /** an exception escapes `__formatResp` and is left to tornado */
    | Unhandled(error: string)

  const JsonContentType := "application/json; charset=UTF-8"

  /** Content type plus the permissive CORS header. */
  function ContentHeaders(contentType: string): map<string, string>
  {
    map["Content-Type" := contentType, "Access-Control-Allow-Origin" := "*"]
  }

  /**
   * The template file name: the second-to-last and last `/`-separated segments of
   * the path and the `tpl` value, joined by underscores, with `.html` appended.
   * A path with fewer than two segments makes the segment indexing raise.
   */
  function TemplateName(path: string, tpl: string): Result<string, string>
  {
    var r := Split(path, '/');
    if |r| < 2 then Err("IndexError: list index out of range")
    else Ok(r[|r| - 2] + "_" + r[|r| - 1] + "_" + tpl + ".html")
  }

  /** The template name is built from the last two segments of the path. */
  lemma TemplateNameOfSegments(prefix: string, dir: string, leaf: string, tpl: string)
    requires '/' !in dir && '/' !in leaf
    ensures TemplateName(prefix + "/" + dir + "/" + leaf, tpl) == Ok(dir + "_" + leaf + "_" + tpl + ".html")
  {
    var p := prefix + "/" + dir + "/" + leaf;
    assert p == (prefix + "/" + dir) + ['/'] + leaf;
    SplitAppend(prefix + "/" + dir, '/', leaf);
    assert prefix + "/" + dir == prefix + ['/'] + dir;
    SplitAppend(prefix, '/', dir);
    SplitNoSep(dir, '/');
    SplitNoSep(leaf, '/');
    var r := Split(p, '/');
    assert r == Split(prefix, '/') + [dir] + [leaf];
  }

  /** Building the name fails exactly for a path without any `/`. */
  lemma TemplateNameFailsWithoutSlash(path: string, tpl: string)
    ensures TemplateName(path, tpl).Err? <==> '/' !in path
  {
    SplitLength(path, '/');
    CountZero(path, '/');
  }

  /** The dict `__formatResp` sees after unwrapping a `Resp`, if the result is one. */
  function DictOf(resp: Response): Option<map<string, Value>>
  {
    match resp
    case Json(doc) => Some(doc)
    case Raw(Dict(doc)) => Some(doc)
    case _ => None
  }

  /** A dict result: JSON, unless a `tpl` argument asks for a template instead. */
  function FormatDict(path: string, tpl: Option<string>, doc: map<string, Value>): ResponseAction
  {
    match tpl
    case Some(t) =>
      (match TemplateName(path, t)
       case Ok(name) => RenderTemplate(name, doc)
       case Err(e) => Unhandled(e))
    case None => Send(200, ContentHeaders(JsonContentType), JsonDoc(doc))
  }

  /**
   * `__formatResp(path, resp)`, where `tpl` is the request's `tpl` argument.
   * A failed dispatch writes its status and reason and nothing else; a `CommResp`
   * with a code other than 200 does the same with its own code and data; a
   * `CommResp` with code 200 writes its data, with headers only for a non-empty
   * content type; a `Resp` or dict is written as JSON with the JSON headers, or
   * rendered when `tpl` is given; any other value is written as it is.
   */
  function FormatResp(path: string, tpl: Option<string>, d: Dispatched): (r: ResponseAction)
    ensures d.status != 200 ==>
              r.Send? && r.status == d.status && r.headers == map[] && r.body.PlainText?
              && (d.reason != "" ==> r.body.text == d.reason)
              && (d.reason == "" ==> r.body.text == IntToDecimal(d.status))
    ensures d.status == 200 && d.result.Comm? && d.result.code != 200 ==>
              r.Send? && r.status == d.result.code && r.headers == map[]
              && (d.result.data != Str("") ==> r.body == Payload(d.result.data))
              && (d.result.data == Str("") ==> r.body == PlainText(IntToDecimal(d.result.code)))
    ensures d.status == 200 && d.result.Comm? && d.result.code == 200 ==>
              r.Send? && r.status == 200 && r.body == Payload(d.result.data)
              && ("Content-Type" in r.headers <==> d.result.contentType != "")
              && (d.result.contentType != "" ==> r.headers == ContentHeaders(d.result.contentType))
              && (d.result.contentType == "" ==> r.headers == map[])
    ensures d.status == 200 && d.result.Render? ==> r == RenderTemplate(d.result.templateName, d.result.fields)
    ensures d.status == 200 && DictOf(d.result).Some? ==>
              (tpl.None? ==> r == Send(200, ContentHeaders(JsonContentType), JsonDoc(DictOf(d.result).value)))
              && (tpl.Some? ==>
                    r == match TemplateName(path, tpl.value)
                         case Ok(name) => RenderTemplate(name, DictOf(d.result).value)
                         case Err(e) => Unhandled(e))
    ensures d.status == 200 && d.result == NoResult ==> r == Send(200, map[], NoBody)
    ensures d.status == 200 && d.result.Raw? && !d.result.value.Dict? && d.result.value != Null ==>
              r == Send(200, map[], Payload(d.result.value))
    ensures r.Send? && r.body.JsonDoc? ==> r.status == 200 && r.headers == ContentHeaders(JsonContentType)
  {
    if d.status != 200 then
      Send(d.status, map[], PlainText(if d.reason != "" then d.reason else IntToDecimal(d.status)))
    else
      match d.result
      case Render(name, fields) => RenderTemplate(name, fields)
      case Comm(data, code, contentType) =>
        if code != 200 then
          Send(code, map[], if data != Str("") then Payload(data) else PlainText(IntToDecimal(code)))
        else
          Send(200, if contentType != "" then ContentHeaders(contentType) else map[], Payload(data))
      case Json(doc) => FormatDict(path, tpl, doc)
      case Raw(Dict(doc)) => FormatDict(path, tpl, doc)
      case Raw(Null) => Send(200, map[], NoBody)
      case Raw(v) => Send(200, map[], Payload(v))
  }

  /**
   * A failed request always gets a non-empty text body that tells what failed:
   * the reason, or else a number that reads back as the status.
   */
  lemma FailureBodyNamesStatus(path: string, tpl: Option<string>, d: Dispatched)
    requires d.status != 200
    ensures var r := FormatResp(path, tpl, d);
            r.Send? && r.body.PlainText? && r.body.text != ""
            && (r.body.text == d.reason || ParseDecimal(r.body.text) == Some(d.status))
  {
    DecimalRoundTrip(d.status);
  }

  /** The same for a `CommResp` carrying an error code and no data text. */
  lemma CommErrorBodyNamesCode(path: string, tpl: Option<string>, d: Dispatched)
    requires d.status == 200 && d.result.Comm? && d.result.code != 200 && d.result.data == Str("")
    ensures var r := FormatResp(path, tpl, d);
            r.Send? && r.status == d.result.code && r.body.PlainText?
            && ParseDecimal(r.body.text) == Some(d.result.code)
  {
    DecimalRoundTrip(d.result.code);
  }

  /**
   * A `CommResp` built with its default code is written as its data with status
   * 200, with the content-type and CORS headers only when a content type is given;
   * the all-defaults `CommResp()` writes `None` with no headers.
   */
  lemma CommRespDefaultsWritePayload(path: string, tpl: Option<string>, data: Value, contentType: string)
    ensures var r := FormatResp(path, tpl, Dispatched(200, "", CommResp(data, contentType := contentType)));
            r.Send? && r.status == 200 && r.body == Payload(data)
            && r.headers == (if contentType == "" then map[] else ContentHeaders(contentType))
    ensures FormatResp(path, tpl, Dispatched(200, "", CommResp())) == Send(200, map[], Payload(Null))
  {
  }

  /** A returned `RenderResp` is rendered under its own template name and fields, whatever `tpl` says. */
  lemma RenderRespIgnoresTpl(path: string, tpl: Option<string>, name: string, fields: map<string, Value>)
    ensures FormatResp(path, tpl, Dispatched(200, "", RenderResp(name, fields))) == RenderTemplate(name, fields)
  {
  }

  /** A dispatched `Resp` reaches the client as JSON whose envelope reads back as the handler's fields. */
  lemma RespIsWrittenAsEnvelope(path: string, data: Value, code: int, msg: string)
    ensures var r := FormatResp(path, None, Dispatched(200, "", Resp(data, code, msg)));
            r.Send? && r.status == 200 && r.body.JsonDoc?
            && r.headers == ContentHeaders(JsonContentType)
            && DecodeEnvelope(r.body.doc) == Some(Fields(data, code, msg))
  {
  }
}
