/**
 * The values a controller method may return (src/httpsvr/httpsvr.py, classes
 * `Resp`, `RenderResp` and `CommResp`), with the `{code, msg, data}` JSON
 * envelope that `Resp` builds and a reader for it.
 */
module Envelope {
  import opened Wrappers
  import opened Values

  /** A controller method's return value, by the class `__formatResp` recognises. */
  datatype Response =
      /** `Resp`: only its `resp` dict is kept */
    | Json(resp: map<string, Value>)
      /** `CommResp`: a non-JSON payload, or an error text when `code != 200` */
    | Comm(data: Value, code: int, contentType: string)
      /** `RenderResp`: a template name and its keyword arguments */
    | Render(templateName: string, fields: map<string, Value>)
      /** any other returned value: a dict, a string, or `None` */
    | Raw(value: Value)

  /** The `None` a failed dispatch (or a method returning nothing) hands to formatting. */
  const NoResult: Response := Raw(Null)

  /** The three fields of a JSON envelope. */
  datatype Fields = Fields(data: Value, code: int, msg: string)

  /** Reads a dict back as an envelope: exactly the keys `code`, `msg`, `data`, typed as `Resp` writes them. */
  function DecodeEnvelope(m: map<string, Value>): Option<Fields>
  {
    if m.Keys == {"code", "msg", "data"} && m["code"].Int? && m["msg"].Str? then
      Some(Fields(m["data"], m["code"].number, m["msg"].text))
    else
      None
  }

  /** `Resp`, with its defaults (no data, code 0, empty message): the envelope dict holds exactly the three given fields. */
  function Resp(data: Value := Null, code: int := 0, msg: string := ""): (r: Response)
    ensures r.Json?
    ensures r.resp.Keys == {"code", "msg", "data"}
    ensures DecodeEnvelope(r.resp) == Some(Fields(data, code, msg))
  {
    Json(map["code" := Int(code), "msg" := Str(msg), "data" := data])
  }

  /** `CommResp`, with its defaults: no data, code 200, no content type. */
  function CommResp(data: Value := Null, code: int := 200, contentType: string := ""): Response
  {
    Comm(data, code, contentType)
  }

  /** `RenderResp`: a template name and the keyword arguments handed to it. */
  function RenderResp(templateName: string, fields: map<string, Value>): Response
  {
    Render(templateName, fields)
  }

  /** Every dict that reads as an envelope is the one `Resp` builds from its fields. */
  lemma DecodedEnvelopeIsResp(m: map<string, Value>)
    requires DecodeEnvelope(m).Some?
    ensures var f := DecodeEnvelope(m).value; Resp(f.data, f.code, f.msg).resp == m
  {
    var f := DecodeEnvelope(m).value;
    var r := Resp(f.data, f.code, f.msg).resp;
    assert r.Keys == m.Keys;
    assert forall k :: k in m ==> r[k] == m[k];
  }
}
