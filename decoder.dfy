/** The bridge to a user-provided decoder (decoder/decoder.go): a raw payload is
    posted to `{addr}/api/decode/{id}` and the reply is classified by its
    status code. The HTTP exchange is a parameter of the model. */
module Decoder {

  import opened Wrappers
  import opened Types
  import Text

  /** The answer body, or the error `ioutil.ReadAll` returned while reading it. */
  datatype Body = Read(text: string) | ReadError(cause: string)

  /** What `http.Post` yields: a transport error or a response. */
  datatype PostResult = TransportError(cause: string) | Response(status: int, body: Body)

  /** `decoder.Decoder`: the address of the decoder service. */
  datatype Decoder = Decoder(addr: string)

  /** `(string, error)` as `Decode` returns them. */
  datatype Reply = Reply(result: string, err: Option<string>)

  /** `New(addr)`. */
  function New(addr: string): (d: Decoder)
    ensures d.addr == addr
  {
    Decoder(addr)
  }

  /** The request target of `Decode`, `{addr}/api/decode/{id}`, written as
      its pieces joined by `/`. */
  function DecodeUrl(addr: string, id: string): string
  {
    addr + "/" + ("api" + "/" + ("decode" + "/" + id))
  }

  /** `Decode(payload, id)`, where `post` answers a POST of a body to a URL.
      Only a 200 whose body could be read succeeds, with the body as the
      result; every failure comes with an empty result; a 404 reports the body
      itself and any other status wraps it. */
  function Decode(d: Decoder, payload: seq<byte>, id: string, post: (string, seq<byte>) -> PostResult): (r: Reply)
    ensures var answer := post(DecodeUrl(d.addr, id), payload);
            && (r.err == None <==> answer.Response? && answer.status == 200 && answer.body.Read?)
            && (r.err == None ==> r.result == answer.body.text)
            && (r.err.Some? ==> r.result == "")
            && (answer.TransportError? ==> r.err == Some(answer.cause))
            && (answer.Response? && answer.body.ReadError? ==> r.err == Some(answer.body.cause))
            && (answer.Response? && answer.status == 404 && answer.body.Read? ==> r.err == Some(answer.body.text))
            && (answer.Response? && answer.status != 200 && answer.status != 404 && answer.body.Read? ==>
                  r.err == Some("unkown status code \"" + answer.body.text + "\""))
  {
    match post(DecodeUrl(d.addr, id), payload)
    case TransportError(cause) => Reply("", Some(cause))
    case Response(status, body) =>
      match body
      case ReadError(cause) => Reply("", Some(cause))
      case Read(text) =>
        if status == 200 then Reply(text, None)
        else if status == 404 then Reply("", Some(text))
        else Reply("", Some("unkown status code \"" + text + "\""))
  }

  /** The request URL names the decoder of thing `id`: split on `/`, it is the
      address's pieces followed by `api`, `decode` and the id. */
  lemma UrlNamesThing(addr: string, id: string)
    requires '/' !in id
    ensures Text.Split(DecodeUrl(addr, id), '/') == Text.Split(addr, '/') + ["api", "decode", id]
  {
    Text.SplitWithoutSep(id, '/');
    Text.SplitAtFirst("decode", '/', id);
    Text.SplitAtFirst("api", '/', "decode" + "/" + id);
    Text.SplitAppend(addr, '/', "api" + "/" + ("decode" + "/" + id));
  }
}
