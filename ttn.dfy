/** The TheThingsNetwork HTTP integration (actions/ttn.go): an uplink names a
    device by hardware serial and application id; the handler finds the thing
    of the project whose TTN connectivity names the same device (ignoring
    case), decodes the CBOR payload and hands one state per entry to the
    pipeline. Binding, the project's things, CBOR decoding and `%v` formatting
    are parameters of the model. */
module Ttn {

  import opened Wrappers
  import opened Types
  import Text
  import Web
  import Pm
  import Core

  /** The fields of `TTNRequest` the handler reads; `payloadRaw` is `None` when
      the JSON carried no payload (a nil slice). */
  datatype Request = Request(appID: string, devID: string, hardwareSerial: string,
                             payloadRaw: Option<seq<byte>>, metadataTime: Time)

  /** The connectivity test inside the loop: a decodable `ttn` entry whose
      device EUI and application id equal the request's, case-insensitively. */
  predicate Matches(t: Pm.Thing, rq: Request): (b: bool)
    ensures !t.ttn.TtnLink? ==> !b
    ensures t.ttn.TtnLink? && t.ttn.deviceEUI == rq.hardwareSerial && t.ttn.applicationID == rq.appID ==> b
  {
    t.ttn.TtnLink? &&
    Text.Lower(t.ttn.deviceEUI) == Text.Lower(rq.hardwareSerial) &&
    Text.Lower(t.ttn.applicationID) == Text.Lower(rq.appID)
  }

  /** The thing id the loop leaves behind: that of the last matching thing in
      list order (the loop has no `break`), or "" when none matches. */
  function LastMatch(things: seq<Pm.Thing>, rq: Request): (id: string)
    ensures (forall i :: 0 <= i < |things| ==> !Matches(things[i], rq)) ==> id == ""
    ensures forall i :: (0 <= i < |things| && Matches(things[i], rq) &&
                         (forall j :: i < j < |things| ==> !Matches(things[j], rq))) ==> id == things[i].id
    ensures id == "" || exists i :: 0 <= i < |things| && Matches(things[i], rq) && things[i].id == id
    decreases |things|
  {
    if |things| == 0 then ""
    else if Matches(things[|things| - 1], rq) then things[|things| - 1].id
    else LastMatch(things[..|things| - 1], rq)
  }

  /** The 404 message. */
  function NotFoundMessage(rq: Request, projectID: string): string
  {
    "Device " + rq.devID + " on Application " + rq.appID + " with ProjectID " + projectID + " Not Found"
  }

  /** The states built from the decoded entries: the request's metadata time,
      the matched thing and the project of the path. */
  function EntryStates(rq: Request, thingID: string, projectID: string, entries: seq<(Raw, Raw)>, render: Raw -> string): seq<State>
  {
    seq(|entries|, i requires 0 <= i < |entries| => NewState(entries[i].1, rq.metadataTime, thingID, render(entries[i].0), projectID))
  }

  /** `TTNHandler` on `POST /ttn/{projectID}`. */
  method TTNHandler(app: Core.Application, projectID: string, bound: Result<Request, string>,
                    thingsByProject: string -> Result<seq<Pm.Thing>, string>,
                    cbor: seq<byte> -> Result<seq<(Raw, Raw)>, string>, render: Raw -> string)
    returns (reply: Web.Response)
    requires app.Valid()
    modifies app`projectStream
    ensures app.Valid()
    ensures bound.Err? ==> reply == Web.Failure(Web.StatusBadRequest, bound.error)
    ensures bound.Ok? && bound.value.payloadRaw == None ==> reply == Web.RenderedTrue(Web.StatusOK)
    ensures bound.Ok? && bound.value.payloadRaw.Some? && thingsByProject(projectID).Err? ==>
              reply == Web.Failure(Web.StatusInternalServerError, thingsByProject(projectID).error)
    ensures bound.Ok? && bound.value.payloadRaw.Some? && thingsByProject(projectID).Ok? &&
            LastMatch(thingsByProject(projectID).value, bound.value) == "" ==>
              reply == Web.Failure(Web.StatusNotFound, NotFoundMessage(bound.value, projectID))
    ensures bound.Ok? && bound.value.payloadRaw.Some? && thingsByProject(projectID).Ok? &&
            LastMatch(thingsByProject(projectID).value, bound.value) != "" && cbor(bound.value.payloadRaw.value).Err? ==>
              reply == Web.RenderedTrue(Web.StatusOK)
    ensures (bound.Err? || bound.value.payloadRaw == None || thingsByProject(projectID).Err? ||
             LastMatch(thingsByProject(projectID).value, bound.value) == "" || cbor(bound.value.payloadRaw.value).Err?) ==>
              app.projectStream == old(app.projectStream)
    ensures bound.Ok? && bound.value.payloadRaw.Some? && thingsByProject(projectID).Ok? &&
            LastMatch(thingsByProject(projectID).value, bound.value) != "" && cbor(bound.value.payloadRaw.value).Ok? ==>
              var states := EntryStates(bound.value, LastMatch(thingsByProject(projectID).value, bound.value), projectID,
                                        cbor(bound.value.payloadRaw.value).value, render);
              && app.projectStream == old(app.projectStream) + Core.Appended(app.isRun, app.projectClosed, states)
              && reply == if Core.Panics(app.isRun, app.projectClosed, states) then Web.Panicked(Web.SendOnClosedChannel)
                          else Web.RenderedTrue(Web.StatusOK)
  {
    if bound.Err? {
      return Web.Failure(Web.StatusBadRequest, bound.error);
    }
    var rq := bound.value;
    if rq.payloadRaw == None {
      return Web.RenderedTrue(Web.StatusOK);
    }
    var ts := thingsByProject(projectID);
    if ts.Err? {
      return Web.Failure(Web.StatusInternalServerError, ts.error);
    }
    var thingID := "";
    var i := 0;
    while i < |ts.value|
      invariant 0 <= i <= |ts.value|
      invariant thingID == LastMatch(ts.value[..i], rq)
    {
      assert ts.value[..i + 1][..i] == ts.value[..i];
      if Matches(ts.value[i], rq) {
        thingID := ts.value[i].id;
      }
      i := i + 1;
    }
    assert ts.value[..i] == ts.value;
    if thingID == "" {
      return Web.Failure(Web.StatusNotFound, NotFoundMessage(rq, projectID));
    }
    var states := cbor(rq.payloadRaw.value);
    if states.Err? {
      return Web.RenderedTrue(Web.StatusOK);
    }
    var panicked := app.SubmitEach(EntryStates(rq, thingID, projectID, states.value, render));
    if panicked {
      return Web.Panicked(Web.SendOnClosedChannel);
    }
    return Web.RenderedTrue(Web.StatusOK);
  }

  /** The match ignores case on both sides: a request that spells the device in
      any mixture of cases finds the same thing, and so does a thing whose
      link is stored in any mixture of cases. */
  lemma MatchIgnoresCase(t: Pm.Thing, rq: Request)
    ensures Matches(t, rq.(hardwareSerial := Text.Lower(rq.hardwareSerial), appID := Text.Lower(rq.appID))) == Matches(t, rq)
    ensures t.ttn.TtnLink? ==>
              Matches(t.(ttn := Pm.TtnLink(Text.Lower(t.ttn.deviceEUI), Text.Lower(t.ttn.applicationID))), rq) == Matches(t, rq)
  {
    Text.LowerIdempotent(rq.hardwareSerial);
    Text.LowerIdempotent(rq.appID);
    if t.ttn.TtnLink? {
      Text.LowerIdempotent(t.ttn.deviceEUI);
      Text.LowerIdempotent(t.ttn.applicationID);
    }
  }

  /** When two things of the project name the same device, the one listed
      later is chosen. */
  lemma LaterDuplicateWins(things: seq<Pm.Thing>, a: Pm.Thing, b: Pm.Thing, rq: Request)
    requires Matches(a, rq) && Matches(b, rq)
    ensures LastMatch([a] + things + [b], rq) == b.id
  {
  }

  /** A thing without a decodable TTN connectivity never matches, so a project
      of such things answers 404. */
  lemma UnlinkedThingsNotFound(things: seq<Pm.Thing>, rq: Request)
    requires forall i :: 0 <= i < |things| ==> !things[i].ttn.TtnLink?
    ensures LastMatch(things, rq) == ""
  {
  }
}
