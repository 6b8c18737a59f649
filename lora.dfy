/** The LoRa uplink handlers (actions/app.go): an `rx` message of a node is
    stored in the `data` collection once its thing's project is known, with
    the payload as decoded by the project's decoder service when that
    succeeds; an `error` message is stored in the `lora` collection. The
    JSON parsing, the project lookup, the decoder exchange and the clock are
    parameters of the model. */
module Lora {

  import opened Wrappers
  import opened Types
  import Text
  import Decoder

  /** `lora.RxInfo`: a gateway that heard the frame. */
  datatype RxInfo = RxInfo(mac: string, name: string, time: Time, rssi: int, loRaSNR: real)

  /** `lora.TxInfo`: how the frame was sent. */
  datatype TxInfo = TxInfo(frequency: int, adr: bool, codeRate: string)

  /** `lora.RxMessage`. */
  datatype RxMessage = RxMessage(applicationID: string, applicationName: string, deviceName: string, devEUI: string,
                                 fPort: int, fCnt: int, rxInfo: seq<RxInfo>, txInfo: TxInfo, data: seq<byte>)

  /** The fields of `lora.ErrorMessage` the handler stores. */
  datatype ErrorMessage = ErrorMessage(applicationName: string, kind: string, error: string, fCnt: int)

  /** What `pm.GetThingProject` returns: the project's name and the port of
      its decoder runner. */
  datatype Project = Project(name: string, runnerPort: string)

  /** The document inserted into `isrc.data`. */
  datatype DataDoc = DataDoc(raw: seq<byte>, data: Raw, timestamp: Time, thingID: string,
                             rxInfo: seq<RxInfo>, txInfo: TxInfo, project: string)

  /** The document inserted into `isrc.lora`. */
  datatype ErrorDoc = ErrorDoc(error: string, timestamp: Time, kind: string, project: string, fCnt: int)

  /** `Config.Decoder.Host` at its default. */
  const DecoderHost := "127.0.0.1"

  /** The address of a project's decoder service. */
  function DecoderAddress(port: string): string
  {
    "http://" + DecoderHost + ":" + port
  }

  /** What `bdoc` holds when the deferred insert runs: the parsed decoder
      output when decoding and parsing both succeed, nil otherwise. */
  function DecodedData(m: RxMessage, p: Project, post: (string, seq<byte>) -> Decoder.PostResult,
                       parseJson: string -> Result<Raw, string>): (bdoc: Raw)
    ensures var reply := Decoder.Decode(Decoder.New(DecoderAddress(p.runnerPort)), m.data, m.devEUI, post);
            && (reply.err.Some? ==> bdoc == RNil)
            && (reply.err.None? && parseJson(reply.result).Err? ==> bdoc == RNil)
            && (reply.err.None? && parseJson(reply.result).Ok? ==> bdoc == parseJson(reply.result).value)
  {
    var reply := Decoder.Decode(Decoder.New(DecoderAddress(p.runnerPort)), m.data, m.devEUI, post);
    if reply.err.Some? then RNil
    else match parseJson(reply.result)
      case Err(_) => RNil
      case Ok(v) => v
  }

  /** The collections the handlers write to. */
  class Uplink {
    var dataDocs: seq<DataDoc>
    var errorDocs: seq<ErrorDoc>

    constructor ()
      ensures dataDocs == [] && errorDocs == []
    {
      dataDocs, errorDocs := [], [];
    }

    /** The `rx` handler. Once the project is known, an insert is deferred; it
        reads `bdoc` when the handler returns, whichever `return` that is. */
    method Rx(message: Result<RxMessage, string>, getThingProject: string -> Result<Project, string>,
              post: (string, seq<byte>) -> Decoder.PostResult, parseJson: string -> Result<Raw, string>, now: Time)
      modifies this`dataDocs
      ensures message.Err? || getThingProject(message.value.devEUI).Err? ==> dataDocs == old(dataDocs)
      ensures message.Ok? && getThingProject(message.value.devEUI).Ok? ==>
                var m := message.value;
                var p := getThingProject(m.devEUI).value;
                dataDocs == old(dataDocs) + [DataDoc(m.data, DecodedData(m, p, post, parseJson), now, m.devEUI, m.rxInfo, m.txInfo, p.name)]
    {
      if message.Err? {
        return;
      }
      var m := message.value;
      var bdoc := RNil;
      var p := getThingProject(m.devEUI);
      if p.Err? {
        return;
      }
      label handler: {
        var decoder := Decoder.New(DecoderAddress(p.value.runnerPort));
        var parsed := Decoder.Decode(decoder, m.data, m.devEUI, post);
        if parsed.err.Some? {
          break handler;
        }
        var v := parseJson(parsed.result);
        if v.Err? {
          break handler;
        }
        bdoc := v.value;
      }
      // the deferred closure
      dataDocs := dataDocs + [DataDoc(m.data, bdoc, now, m.devEUI, m.rxInfo, m.txInfo, p.value.name)];
    }

    /** The `error` handler: a parse failure stores nothing. */
    method Error(message: Result<ErrorMessage, string>, now: Time)
      modifies this`errorDocs
      ensures message.Err? ==> errorDocs == old(errorDocs)
      ensures message.Ok? ==>
                var m := message.value;
                errorDocs == old(errorDocs) + [ErrorDoc(m.error, now, m.kind, m.applicationName, m.fCnt)]
    {
      if message.Err? {
        return;
      }
      var m := message.value;
      errorDocs := errorDocs + [ErrorDoc(m.error, now, m.kind, m.applicationName, m.fCnt)];
    }
  }

  /** The request of the rx flow goes to the project's runner on the decoder
      host and names the device: split on `/`, its URL is `http:`, an empty
      piece, `127.0.0.1:{port}`, then `api`, `decode` and the device EUI. */
  lemma DecoderUrlNamesDevice(port: string, devEUI: string)
    requires '/' !in port && '/' !in devEUI
    ensures Text.Split(Decoder.DecodeUrl(DecoderAddress(port), devEUI), '/') ==
            ["http:", "", DecoderHost + ":" + port, "api", "decode", devEUI]
  {
    var host := DecoderHost + ":" + port;
    assert '/' !in host;
    Decoder.UrlNamesThing(DecoderAddress(port), devEUI);
    assert DecoderAddress(port) == "http:" + ['/'] + ("" + ['/'] + host);
    Text.SplitAtFirst("http:", '/', "" + ['/'] + host);
    Text.SplitAtFirst("", '/', host);
    Text.SplitWithoutSep(host, '/');
  }

  /** A decoder that answers with an error leaves the stored document without
      data, but the raw frame is stored all the same. */
  lemma FailedDecodeStoresRaw(m: RxMessage, p: Project, post: (string, seq<byte>) -> Decoder.PostResult,
                              parseJson: string -> Result<Raw, string>)
    requires post(Decoder.DecodeUrl(DecoderAddress(p.runnerPort), m.devEUI), m.data).Response?
    requires post(Decoder.DecodeUrl(DecoderAddress(p.runnerPort), m.devEUI), m.data).status != 200
    ensures DecodedData(m, p, post, parseJson) == RNil
  {
  }
}
