/** The MQTT ingestion service (mqtt/mqtt.go): messages on
    `things/{thing_id}/state` carry a JSON map from asset name to a reading
    (`At`, `Value`); each entry becomes one state whose project is left for
    the resolve stage to fill. The broker connection and JSON parsing are
    parameters of the model. */
module MqttService {

  import opened Wrappers
  import opened Types
  import Text
  import Web
  import Core

  /** One entry of the payload map: `struct { At time.Time; Value interface{} }`. */
  datatype Reading = Reading(at: Time, value: Raw)

  /** What `handler` comes to: it returns, or it panics (an index past the
      topic's pieces, or a send on the closed project stream). */
  datatype Outcome = Handled | Panicked(reason: string)

  /** What `Run` comes to: the connect error, the process ending in the
      application's fatal log, or a running service. */
  datatype RunOutcome = ConnectFailed(err: string) | Fatal(message: string) | Running

  /** The states of one message, in map iteration order: no project, so the
      resolve stage looks it up. */
  function EntryStates(thingID: string, entries: seq<(string, Reading)>): seq<State>
  {
    seq(|entries|, i requires 0 <= i < |entries| => NewState(entries[i].1.value, entries[i].1.at, thingID, entries[i].0, ""))
  }

  /** `handler(client, message)`: the thing is the topic's second `/` piece
      (taken before the payload is parsed), a parse failure submits nothing,
      and each entry is submitted. */
  method Handler(app: Core.Application, topic: string, parsed: Result<seq<(string, Reading)>, string>)
    returns (outcome: Outcome)
    requires app.Valid()
    modifies app`projectStream
    ensures app.Valid()
    ensures Text.Segment(topic, '/', 1) == None ==> outcome == Panicked(Web.IndexOutOfRange)
    ensures Text.Segment(topic, '/', 1) == None || parsed.Err? ==> app.projectStream == old(app.projectStream)
    ensures Text.Segment(topic, '/', 1).Some? && parsed.Err? ==> outcome == Handled
    ensures Text.Segment(topic, '/', 1).Some? && parsed.Ok? ==>
              var states := EntryStates(Text.Segment(topic, '/', 1).value, parsed.value);
              && app.projectStream == old(app.projectStream) + Core.Appended(app.isRun, app.projectClosed, states)
              && outcome == if Core.Panics(app.isRun, app.projectClosed, states) then Panicked(Web.SendOnClosedChannel)
                            else Handled
  {
    var thingID := Text.Segment(topic, '/', 1);
    if thingID == None {
      return Panicked(Web.IndexOutOfRange);
    }
    if parsed.Err? {
      return Handled;
    }
    var panicked := app.SubmitEach(EntryStates(thingID.value, parsed.value));
    if panicked {
      return Panicked(Web.SendOnClosedChannel);
    }
    return Handled;
  }

  /** A message on the topic of thing `id` yields states of that thing, one per
      entry, each with the entry's asset, time and value and no project. */
  lemma StateTopicNamesThing(id: string, entries: seq<(string, Reading)>)
    requires '/' !in id
    ensures Text.Segment("things/" + id + "/state", '/', 1) == Some(id)
    ensures var states := EntryStates(id, entries);
            && |states| == |entries|
            && forall i :: 0 <= i < |states| ==>
                 states[i] == State(entries[i].1.value, entries[i].1.at, id, entries[i].0, "", ZeroValue)
  {
    assert "things/" + id + "/state" == "things" + ['/'] + (id + ['/'] + "state");
    Text.SegmentShift("things", '/', id + ['/'] + "state", 0);
    Text.SegmentFirst(id, '/', "state");
  }

  /** `mqtt.Service`: the client (set by `Run`) and the application. */
  class Service {
    var hasClient: bool
    const app: Core.Application

    /** `New()`: a service around a fresh application on a machine with
        `cpus` processors. */
    constructor (cpus: nat)
      ensures fresh(app) && !hasClient
      ensures app.Valid() && !app.isRun && app.workers == cpus
    {
      hasClient := false;
      app := new Core.Application(cpus);
    }

    /** `Run()`: the client is created, then connected; a connect error is
        returned before the application is started. Otherwise the
        application's `Run` decides, and the streams and the traces are left
        as they were. */
    method Run(connectError: Option<string>, brokerError: Option<string>, dbError: Option<string>)
      returns (r: RunOutcome)
      requires app.Valid()
      modifies this`hasClient
      modifies app`projectCloseChan, app`decodeCloseChan, app`isRun, app`hasClient
      modifies app`projectWorkers, app`decodeWorkers, app`insertWorkers, app`insertCloseCounter
      ensures hasClient && app.Valid()
      ensures connectError.Some? ==> r == ConnectFailed(connectError.value) && unchanged(app)
      ensures connectError.None? && brokerError.Some? ==> r == Fatal("MQTT session error: " + brokerError.value)
      ensures connectError.None? && brokerError.None? && dbError.Some? ==> r == Fatal("DB connection error: " + dbError.value)
      ensures connectError.None? && brokerError.None? && dbError.None? ==> r == Running && app.isRun
      ensures connectError.None? ==> app.hasClient && app.projectCloseChan == Core.Empty && app.decodeCloseChan == Core.Empty
      ensures r == Running ==>
                && app.projectWorkers == old(app.projectWorkers) + app.workers
                && app.decodeWorkers == old(app.decodeWorkers) + app.workers
                && app.insertWorkers == old(app.insertWorkers) + app.workers
                && app.insertCloseCounter == old(app.insertCloseCounter) + app.workers
      ensures !r.Running? ==>
                && app.isRun == old(app.isRun) && app.insertCloseCounter == old(app.insertCloseCounter)
                && app.projectWorkers == old(app.projectWorkers) && app.decodeWorkers == old(app.decodeWorkers)
                && app.insertWorkers == old(app.insertWorkers)
      ensures app.projectStream == old(app.projectStream) && app.decodeStream == old(app.decodeStream)
              && app.insertStream == old(app.insertStream)
      ensures app.projectClosed == old(app.projectClosed) && app.decodeClosed == old(app.decodeClosed)
              && app.insertClosed == old(app.insertClosed)
      ensures app.published == old(app.published) && app.inserted == old(app.inserted)
    {
      hasClient := true;
      if connectError.Some? {
        return ConnectFailed(connectError.value);
      }
      var started := app.Run(brokerError, dbError);
      if started.Fatal? {
        return Fatal(started.message);
      }
      return Running;
    }
  }
}
