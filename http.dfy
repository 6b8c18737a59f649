/** The HTTP adapter (actions/http.go): a middleware that authorizes a request
    by the `Authorization` header against the tokens of the thing in the path,
    and a handler that decodes a JSON or CBOR map of readings and hands one
    state per entry to the pipeline. Lookup, body decoding, the clock and Go's
    `%v` formatting are parameters of the model. */
module HttpAdapter {

  import opened Wrappers
  import opened Types
  import Web
  import Pm
  import Core

  /** The context values `HTTPAuthorize` sets for the handler. */
  datatype Context = Context(projectID: string, thingID: string)

  /** Whether the middleware calls `next` or answers itself. */
  datatype Verdict = Next | Refused(response: Web.Response)

  /** The outcome of `HTTPAuthorize`: the context it set, if any, and its verdict. */
  datatype Authorization = Authorization(ctx: Option<Context>, verdict: Verdict)

  /** The body codecs the handler supports. */
  datatype Codec = Json | Cbor

  const UnauthorizedMessage := "unathorized access token"
  const UnsupportedContentType := "unsupported content type"

  /** `HTTPAuthorize(next)` on a request for `thing_id == thingID` carrying
      `authString`; `lookup` is `pm.ThingByID`. The context is written before
      the token check, so a refused token still leaves it set. */
  function Authorize(authString: string, thingID: string, lookup: string -> Result<Pm.Thing, Pm.LookupError>): (a: Authorization)
    ensures lookup(thingID).Err? ==>
              a == Authorization(None, Refused(Web.Failure(Web.StatusInternalServerError, lookup(thingID).error.Message())))
    ensures lookup(thingID).Ok? ==> a.ctx == Some(Context(lookup(thingID).value.project, thingID))
    ensures a.verdict == Next <==> lookup(thingID).Ok? && authString in lookup(thingID).value.tokens
    ensures lookup(thingID).Ok? && authString !in lookup(thingID).value.tokens ==>
              a.verdict == Refused(Web.Failure(Web.StatusUnauthorized, UnauthorizedMessage))
  {
    match lookup(thingID)
    case Err(e) => Authorization(None, Refused(Web.Failure(Web.StatusInternalServerError, e.Message())))
    case Ok(t) =>
      var ctx := Some(Context(t.project, thingID));
      if Pm.HasToken(t.tokens, authString) then Authorization(ctx, Next)
      else Authorization(ctx, Refused(Web.Failure(Web.StatusUnauthorized, UnauthorizedMessage)))
  }

  /** The `Content-Type` switch: exactly the two media types, nothing else. */
  function CodecFor(contentType: string): (c: Option<Codec>)
    ensures c == Some(Json) <==> contentType == "application/json"
    ensures c == Some(Cbor) <==> contentType == "application/cbor"
  {
    if contentType == "application/json" then Some(Json)
    else if contentType == "application/cbor" then Some(Cbor)
    else None
  }

  /** The states built from the decoded entries (key, value), in iteration
      order: the value is `Raw`, the key printed with `%v` is the asset, entry
      `i` is stamped with `clock(i)`, and the thing and project come from the
      context. */
  function EntryStates(ctx: Context, entries: seq<(Raw, Raw)>, clock: nat -> Time, render: Raw -> string): seq<State>
  {
    seq(|entries|, i requires 0 <= i < |entries| => NewState(entries[i].1, clock(i), ctx.thingID, render(entries[i].0), ctx.projectID))
  }

  /** `HTTPHandler`: the codec chosen by the content type, then the body
      decoded with it, then one `Data` call per entry. The answer is 200
      `true` whatever `Data` returns, unless a send panics. */
  method HTTPHandler(app: Core.Application, ctx: Context, contentType: string,
                     decode: Codec -> Result<seq<(Raw, Raw)>, string>, clock: nat -> Time, render: Raw -> string)
    returns (reply: Web.Response)
    requires app.Valid()
    modifies app`projectStream
    ensures app.Valid()
    ensures CodecFor(contentType) == None ==>
              reply == Web.Failure(Web.StatusBadRequest, UnsupportedContentType) && app.projectStream == old(app.projectStream)
    ensures CodecFor(contentType).Some? && decode(CodecFor(contentType).value).Err? ==>
              reply == Web.RenderedTrue(Web.StatusOK) && app.projectStream == old(app.projectStream)
    ensures CodecFor(contentType).Some? && decode(CodecFor(contentType).value).Ok? ==>
              var states := EntryStates(ctx, decode(CodecFor(contentType).value).value, clock, render);
              && app.projectStream == old(app.projectStream) + Core.Appended(app.isRun, app.projectClosed, states)
              && reply == if Core.Panics(app.isRun, app.projectClosed, states) then Web.Panicked(Web.SendOnClosedChannel)
                          else Web.RenderedTrue(Web.StatusOK)
  {
    var h := CodecFor(contentType);
    if h == None {
      return Web.Failure(Web.StatusBadRequest, UnsupportedContentType);
    }
    var decoded := decode(h.value);
    if decoded.Err? {
      return Web.RenderedTrue(Web.StatusOK);
    }
    var panicked := app.SubmitEach(EntryStates(ctx, decoded.value, clock, render));
    if panicked {
      return Web.Panicked(Web.SendOnClosedChannel);
    }
    return Web.RenderedTrue(Web.StatusOK);
  }

  /** Every state the handler builds names the authorized thing and project,
      one per entry, with the entry's value and key. */
  lemma EntryStatesFollowContext(ctx: Context, entries: seq<(Raw, Raw)>, clock: nat -> Time, render: Raw -> string)
    ensures var states := EntryStates(ctx, entries, clock, render);
            && |states| == |entries|
            && (forall i :: 0 <= i < |states| ==>
                  states[i].thingID == ctx.thingID && states[i].project == ctx.projectID &&
                  states[i].raw == entries[i].1 && states[i].asset == render(entries[i].0) &&
                  states[i].value == ZeroValue)
  {
    var states := EntryStates(ctx, entries, clock, render);
    forall i | 0 <= i < |states|
      ensures states[i] == NewState(entries[i].1, clock(i), ctx.thingID, render(entries[i].0), ctx.projectID)
    {
    }
  }

  /** On a running application, a body whose entries all carry a value, a
      printable key and a time reaches the pipeline entry for entry. */
  lemma EveryEntryAdmitted(ctx: Context, entries: seq<(Raw, Raw)>, clock: nat -> Time, render: Raw -> string)
    requires ctx.thingID != ""
    requires forall i :: 0 <= i < |entries| ==> entries[i].1 != RNil && render(entries[i].0) != "" && !clock(i).IsZero()
    ensures Core.Appended(true, false, EntryStates(ctx, entries, clock, render)) == EntryStates(ctx, entries, clock, render)
  {
    var states := EntryStates(ctx, entries, clock, render);
    assert forall i :: 0 <= i < |states| ==> Admissible(states[i]);
    Core.AdmittedAll(states);
  }
}
