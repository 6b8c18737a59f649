/** The older pipeline of package `app` (app/pipeline.go, app/handler.go): a
    protocol's marshaller turns a broker message into a `types.Data` record
    tagged with the protocol's name; the record's project and model are looked
    up (a failed lookup keeps the record), its raw form is republished, a
    device model decodes it unless the model is `generic`, and every record is
    inserted into the single `data` collection. The lookup, the marshallers
    and the models' decoders are parameters of the model. */
module Legacy {

  import opened Wrappers
  import opened Types

  /** The fields of `types.Data` the stages read or write; `data` is `RNil`
      while the record is undecoded. */
  datatype Record = Record(raw: seq<byte>, data: Raw, thingID: string, project: string, model: string, protocol: string)

  /** A `Protocol`: its name and its `Marshal`. */
  datatype Protocol = Protocol(name: string, marshal: seq<byte> -> Result<Record, string>)

  /** What `pm.ThingsShow` returns about a thing. */
  datatype PmThing = PmThing(project: string, model: string)

  datatype Publication = Publication(topic: string, record: Record)
  datatype Insertion = Insertion(collection: string, record: Record)

  /** The model name that means "decoded elsewhere": no decoding, no data topic. */
  const GenericModel := "generic"

  /** The one collection every record is inserted into. */
  const DataCollection := "data"

  function RawTopic(project: string): string
  {
    "i1820/project/" + project + "/raw"
  }

  function DataTopic(project: string): string
  {
    "i1820/project/" + project + "/data"
  }

  /** The record `mqttHandler` sends: the marshalled record, tagged. */
  function Tagged(p: Protocol, payload: seq<byte>): (r: Option<Record>)
    ensures r.None? <==> p.marshal(payload).Err?
    ensures r.Some? ==> r.value.protocol == p.name && r.value.(protocol := p.marshal(payload).value.protocol) == p.marshal(payload).value
  {
    match p.marshal(payload)
    case Err(_) => None
    case Ok(d) => Some(d.(protocol := p.name))
  }

  /** The record after the project stage, given what the lookup of its thing
      answered: on success project and model come from the thing, on failure
      the record is kept as it was. */
  function Resolved(d: Record, found: Result<PmThing, string>): (r: Record)
    ensures r.(project := d.project, model := d.model) == d
    ensures found.Err? ==> r == d
    ensures found.Ok? ==> r.project == found.value.project && r.model == found.value.model
  {
    match found
    case Err(_) => d
    case Ok(t) => d.(project := t.project, model := t.model)
  }

  /** The guard of the decode stage: a project, no data yet, a non-generic model. */
  predicate NeedsDecode(d: Record): (b: bool)
    ensures d.model == GenericModel ==> !b
    ensures d.project == "" || d.data != RNil ==> !b
  {
    d.project != "" && d.data == RNil && d.model != GenericModel
  }

  /** The record after the decode stage: a known model decodes the raw bytes;
      an unknown one leaves the record as it was. */
  function Decoded(d: Record, models: map<string, seq<byte> -> Raw>): (r: Record)
    ensures r.(data := d.data) == d
    ensures !NeedsDecode(d) || d.model !in models ==> r == d
    ensures NeedsDecode(d) && d.model in models ==> r.data == models[d.model](d.raw)
  {
    if NeedsDecode(d) && d.model in models then d.(data := models[d.model](d.raw)) else d
  }

  /** The publication of the project stage: one, on the raw topic, exactly
      when the record has a project. */
  function RawPublications(d: Record): (ps: seq<Publication>)
    ensures |ps| <= 1
    ensures ps != [] <==> d.project != ""
    ensures forall p <- ps :: p == Publication(RawTopic(d.project), d)
  {
    if d.project != "" then [Publication(RawTopic(d.project), d)] else []
  }

  /** The publication of the decode stage: for every record that passed the
      guard, the model found or not. */
  function DataPublications(d: Record, models: map<string, seq<byte> -> Raw>): (ps: seq<Publication>)
    ensures |ps| <= 1
    ensures ps != [] <==> NeedsDecode(d)
    ensures forall p <- ps :: p.topic == DataTopic(d.project) && p.record == Decoded(d, models)
    ensures d.model == GenericModel ==> ps == []
  {
    if NeedsDecode(d) then [Publication(DataTopic(d.project), Decoded(d, models))] else []
  }

  /** `app.Application` as far as the stages see it. */
  class LegacyApplication {
    const models: map<string, seq<byte> -> Raw>
    var projectStream: seq<Record>
    var decodeStream: seq<Record>
    var insertStream: seq<Record>
    var published: seq<Publication>
    var inserted: seq<Insertion>

    constructor (models: map<string, seq<byte> -> Raw>)
      ensures this.models == models
      ensures projectStream == [] && decodeStream == [] && insertStream == []
      ensures published == [] && inserted == []
    {
      this.models := models;
      projectStream, decodeStream, insertStream := [], [], [];
      published, inserted := [], [];
    }

    /** The handler `mqttHandler(p)` installs, on one message: a marshal error
        sends nothing; otherwise exactly one tagged record is sent. */
    method MqttHandler(p: Protocol, payload: seq<byte>)
      modifies this`projectStream
      ensures projectStream == old(projectStream) + match Tagged(p, payload) case None => [] case Some(d) => [d]
    {
      var d := p.marshal(payload);
      if d.Err? {
        return;
      }
      var tagged := d.value.(protocol := p.name);
      projectStream := projectStream + [tagged];
    }

    /** One iteration of `projectStage`. */
    method ProjectStep(thingsShow: string -> Result<PmThing, string>)
      requires |projectStream| > 0
      modifies this`projectStream, this`decodeStream, this`published
      ensures var d := Resolved(old(projectStream)[0], thingsShow(old(projectStream)[0].thingID));
              && projectStream == old(projectStream)[1..]
              && decodeStream == old(decodeStream) + [d]
              && published == old(published) + RawPublications(d)
    {
      var d := projectStream[0];
      projectStream := projectStream[1..];
      var t := thingsShow(d.thingID);
      if t.Ok? {
        d := d.(project := t.value.project, model := t.value.model);
      }
      if d.project != "" {
        published := published + [Publication(RawTopic(d.project), d)];
      }
      decodeStream := decodeStream + [d];
    }

    /** One iteration of `decodeStage`. */
    method DecodeStep()
      requires |decodeStream| > 0
      modifies this`decodeStream, this`insertStream, this`published
      ensures var d := old(decodeStream)[0];
              && decodeStream == old(decodeStream)[1..]
              && insertStream == old(insertStream) + [Decoded(d, models)]
              && published == old(published) + DataPublications(d, models)
    {
      var d := decodeStream[0];
      decodeStream := decodeStream[1..];
      if d.project != "" && d.data == RNil {
        if d.model != GenericModel {
          if d.model in models {
            d := d.(data := models[d.model](d.raw));
          }
          published := published + [Publication(DataTopic(d.project), d)];
        }
      }
      insertStream := insertStream + [d];
    }

    /** One iteration of `insertStage`: every record goes to `data` (an insert
        error is only logged). */
    method InsertStep()
      requires |insertStream| > 0
      modifies this`insertStream, this`inserted
      ensures insertStream == old(insertStream)[1..]
      ensures inserted == old(inserted) + [Insertion(DataCollection, old(insertStream)[0])]
    {
      var d := insertStream[0];
      insertStream := insertStream[1..];
      inserted := inserted + [Insertion(DataCollection, d)];
    }
  }

  /** Running the project stage again with the same lookup changes nothing. */
  lemma ResolvedIdempotent(d: Record, found: Result<PmThing, string>)
    ensures Resolved(Resolved(d, found), found) == Resolved(d, found)
  {
  }

  /** Running the decode stage again changes nothing: a decoded record either
      no longer passes the guard or decodes to the same data. */
  lemma DecodedIdempotent(d: Record, models: map<string, seq<byte> -> Raw>)
    ensures Decoded(Decoded(d, models), models) == Decoded(d, models)
  {
  }

  /** A `generic` thing is never decoded here and nothing goes to its data
      topic. */
  lemma GenericPassesThrough(d: Record, models: map<string, seq<byte> -> Raw>)
    requires d.model == GenericModel
    ensures Decoded(d, models) == d && DataPublications(d, models) == []
  {
  }

  /** A record whose model is unknown is still published on the data topic
      (undecoded) and forwarded to insertion unchanged. */
  lemma UnknownModelStillPublished(d: Record, models: map<string, seq<byte> -> Raw>)
    requires NeedsDecode(d) && d.model !in models
    ensures Decoded(d, models) == d
    ensures DataPublications(d, models) == [Publication(DataTopic(d.project), d)]
  {
  }

  /** A record whose thing cannot be looked up and that carries no project is
      neither republished nor decoded: it reaches `data` exactly as marshalled. */
  lemma UnresolvedStoredRaw(d: Record, cause: string, models: map<string, seq<byte> -> Raw>)
    requires d.project == ""
    ensures var r := Resolved(d, Err(cause));
            r == d && RawPublications(r) == [] && DataPublications(r, models) == [] && Decoded(r, models) == d
  {
  }

  /** The three stages in sequence on a fresh application: one marshalled
      message ends up as one record inserted into `data`, which is the tagged
      record resolved and decoded. */
  method OneMessage(models: map<string, seq<byte> -> Raw>, p: Protocol, payload: seq<byte>,
                    thingsShow: string -> Result<PmThing, string>)
    returns (stored: seq<Insertion>)
    ensures Tagged(p, payload).None? ==> stored == []
    ensures Tagged(p, payload).Some? ==>
              var d := Tagged(p, payload).value;
              stored == [Insertion(DataCollection, Decoded(Resolved(d, thingsShow(d.thingID)), models))]
  {
    var app := new LegacyApplication(models);
    app.MqttHandler(p, payload);
    if app.projectStream == [] {
      return [];
    }
    app.ProjectStep(thingsShow);
    app.DecodeStep();
    app.InsertStep();
    stored := app.inserted;
  }
}
