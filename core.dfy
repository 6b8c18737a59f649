/** The ingestion pipeline of core/app.go and core/pipeline.go: an
    `Application` whose `Data` admits states into the project stream, and three
    stages (resolve the project, normalize the value, persist) whose workers
    forward each record to the next stream. Channels are queues of records plus
    a closed flag; each stage step handles one record atomically; the outputs
    to the broker and to Mongo are recorded as traces. */
module Core {

  import opened Wrappers
  import opened Types
  import Normalize
  import Pm
  import Text

  /** The three errors `Data` returns, in the order it checks for them. */
  datatype SubmitError = NotRunning | MissingRawOrAt | MissingIdentity
  {
    function Message(): string
    {
      match this
      case NotRunning => "You cann't pass data into application when it is not running"
      case MissingRawOrAt => "Raw and At must not be zero"
      case MissingIdentity => "ThingID and Asset must not be empty"
    }
  }

  /** The guard chain of `Data`: the first failing check decides the error. */
  function Guard(running: bool, s: State): (r: Option<SubmitError>)
    ensures r == None <==> running && Admissible(s)
    ensures !running ==> r == Some(NotRunning)
    ensures running && (s.raw == RNil || s.at.IsZero()) ==> r == Some(MissingRawOrAt)
    ensures r == Some(MissingIdentity) <==> running && s.raw != RNil && !s.at.IsZero() && (s.thingID == "" || s.asset == "")
  {
    if !running then Some(NotRunning)
    else if s.raw == RNil || s.at.IsZero() then Some(MissingRawOrAt)
    else if s.thingID == "" || s.asset == "" then Some(MissingIdentity)
    else None
  }

  /** The states `Data` lets through, in order, when it is called on each of
      `states` in turn while `IsRun == running`. */
  function Admitted(running: bool, states: seq<State>): (r: seq<State>)
    ensures |r| <= |states|
    ensures forall s <- r :: s in states && Admissible(s)
    ensures !running ==> r == []
    decreases |states|
  {
    if |states| == 0 then []
    else
      var last := states[|states| - 1];
      Admitted(running, states[..|states| - 1]) + (if Guard(running, last) == None then [last] else [])
  }

  /** An independent reference for `Admitted`: the admissible states of
      `states`, taken front to back. */
  function AdmissibleOnly(states: seq<State>): (r: seq<State>)
    ensures forall s <- r :: s in states && Admissible(s)
    ensures forall i :: 0 <= i < |states| && Admissible(states[i]) ==> states[i] in r
  {
    if states == [] then []
    else (if Admissible(states[0]) then [states[0]] else []) + AdmissibleOnly(states[1..])
  }

  /** The reference filter distributes over concatenation. */
  lemma {:induction false} AdmissibleOnlyAppend(a: seq<State>, b: seq<State>)
    ensures AdmissibleOnly(a + b) == AdmissibleOnly(a) + AdmissibleOnly(b)
  {
    if a != [] {
      var head := if Admissible(a[0]) then [a[0]] else [];
      calc {
        AdmissibleOnly(a + b);
        { assert (a + b)[0] == a[0]; }
        head + AdmissibleOnly((a + b)[1..]);
        { assert (a + b)[1..] == a[1..] + b; }
        head + AdmissibleOnly(a[1..] + b);
        { AdmissibleOnlyAppend(a[1..], b); }
        head + (AdmissibleOnly(a[1..]) + AdmissibleOnly(b));
        (head + AdmissibleOnly(a[1..])) + AdmissibleOnly(b);
      }
    } else {
      assert a + b == b;
    }
  }

  /** What `Data` lets through is exactly the admissible states, in their
      order, on a running application, and nothing otherwise. */
  lemma {:induction false} AdmittedIsFilter(running: bool, states: seq<State>)
    ensures Admitted(running, states) == if running then AdmissibleOnly(states) else []
    decreases |states|
  {
    if running && |states| > 0 {
      var k := |states| - 1;
      var last := [states[k]];
      calc {
        Admitted(true, states);
        { assert states[..k + 1] == states; AdmittedSnoc(true, states, k); }
        Admitted(true, states[..k]) + (if Guard(true, states[k]) == None then last else []);
        { AdmittedIsFilter(true, states[..k]); AdmissibleOnlySingle(states[k]); }
        AdmissibleOnly(states[..k]) + AdmissibleOnly(last);
        { AdmissibleOnlyAppend(states[..k], last); }
        AdmissibleOnly(states[..k] + last);
        { assert states[..k] + last == states; }
        AdmissibleOnly(states);
      }
    }
  }

  lemma AdmissibleOnlySingle(s: State)
    ensures AdmissibleOnly([s]) == if Admissible(s) then [s] else []
  {
    assert [s][1..] == [];
  }

  /** On a running application every admissible state gets through, in the
      order given. */
  lemma {:induction false} AdmittedAll(states: seq<State>)
    requires forall i :: 0 <= i < |states| ==> Admissible(states[i])
    ensures Admitted(true, states) == states
    decreases |states|
  {
    if |states| > 0 {
      var k := |states| - 1;
      assert Guard(true, states[k]) == None;
      calc {
        Admitted(true, states);
        { assert states[..k + 1] == states; }
        Admitted(true, states[..k + 1]);
        { AdmittedSnoc(true, states, k); }
        Admitted(true, states[..k]) + [states[k]];
        { AdmittedAll(states[..k]); }
        states[..k] + [states[k]];
        states;
      }
    }
  }

  /** What calling `Data` on each of `states` appends to the project stream:
      nothing once the stream is closed (the first admitted send panics). */
  function Appended(running: bool, closed: bool, states: seq<State>): seq<State>
  {
    if closed then [] else Admitted(running, states)
  }

  /** One more call of `Data` appends to a stream holding `before` what it
      admits, and nothing on a closed stream. */
  lemma AppendedSnoc(before: seq<State>, running: bool, closed: bool, states: seq<State>, i: nat)
    requires i < |states|
    ensures before + Appended(running, closed, states[..i + 1]) ==
            before + Appended(running, closed, states[..i]) + (if Guard(running, states[i]) == None && !closed then [states[i]] else [])
  {
    AdmittedSnoc(running, states, i);
    var step := if Guard(running, states[i]) == None && !closed then [states[i]] else [];
    assert before + (Appended(running, closed, states[..i]) + step) == before + Appended(running, closed, states[..i]) + step;
  }

  /** Whether one of those calls panics: some state passes the guard while the
      project stream is closed. */
  predicate Panics(running: bool, closed: bool, states: seq<State>)
  {
    closed && Admitted(running, states) != []
  }

  /** One more state: `Data` lets it through or not. */
  lemma AdmittedSnoc(running: bool, states: seq<State>, i: nat)
    requires i < |states|
    ensures Admitted(running, states[..i + 1]) ==
            Admitted(running, states[..i]) + (if Guard(running, states[i]) == None then [states[i]] else [])
  {
    assert states[..i + 1][..i] == states[..i];
  }

  /** A prefix that lets a state through keeps doing so when it grows. */
  lemma {:induction false} AdmittedGrows(running: bool, states: seq<State>, k: nat)
    requires k <= |states| && Admitted(running, states[..k]) != []
    ensures Admitted(running, states) != []
    decreases |states| - k
  {
    if k < |states| {
      assert states[..k + 1][..k] == states[..k];
      AdmittedGrows(running, states, k + 1);
    } else {
      assert states[..k] == states;
    }
  }

  /** What a call of `Data` comes to: the state is handed to the project stream,
      an error is returned, or the send panics because the stream is closed. */
  datatype Submission = Submitted | Rejected(error: SubmitError) | SendOnClosed

  /** A `chan struct{}` of capacity 1: nil before `Run`, then empty or full. */
  datatype Slot = Unallocated | Empty | Full

  /** What a worker does when its inbound stream is closed and drained:
      nothing (the slot was taken), close the downstream stream, or panic on
      closing a stream that is already closed. */
  datatype StageExit = NoOp | ClosedDownstream | CloseOfClosed

  /** `Exit` closes the project stream, or panics if it was closed already. */
  datatype ExitOutcome = Stopped | CloseOfClosedStream | NilClient

  /** `Run` starts the stages, or the process ends in `Logger.Fatalf`. */
  datatype RunOutcome = Started | Fatal(message: string)

  datatype Publication = Publication(topic: string, state: State)
  datatype Insertion = Insertion(collection: string, state: State)

  /** The topic a normalized state is republished on,
      `i1820/projects/{project}/things/{thing}/assets/{asset}/state`, written
      as its pieces joined by `/`. */
  function StateTopic(s: State): string
  {
    "i1820" + "/" + ("projects" + "/" + (s.project + "/" + ("things" + "/" + (s.thingID + "/" + ("assets" + "/" + (s.asset + "/" + "state"))))))
  }

  /** The Mongo collection a state is inserted into. */
  function Collection(s: State): string
  {
    "data." + s.project + "." + s.thingID
  }

  /** Splitting at one separator written as a one-character string literal. */
  lemma SplitAtSlash(a: string, b: string)
    requires '/' !in a
    ensures Text.Split(a + "/" + b, '/') == [a] + Text.Split(b, '/')
  {
    assert a + "/" + b == a + ['/'] + b;
    Text.SplitAtFirst(a, '/', b);
  }

  /** Four slash-free pieces in front of the rest of a path. */
  lemma SplitFour(a: string, b: string, c: string, d: string, rest: string)
    requires '/' !in a && '/' !in b && '/' !in c && '/' !in d
    ensures Text.Split(a + "/" + (b + "/" + (c + "/" + (d + "/" + rest))), '/') == [a, b, c, d] + Text.Split(rest, '/')
  {
    SplitAtSlash(d, rest);
    SplitAtSlash(c, d + "/" + rest);
    SplitAtSlash(b, c + "/" + (d + "/" + rest));
    SplitAtSlash(a, b + "/" + (c + "/" + (d + "/" + rest)));
  }

  /** Four slash-free pieces joined by `/` split back into themselves. */
  lemma SplitFourLast(a: string, b: string, c: string, d: string)
    requires '/' !in a && '/' !in b && '/' !in c && '/' !in d
    ensures Text.Split(a + "/" + (b + "/" + (c + "/" + d)), '/') == [a, b, c, d]
  {
    Text.SplitWithoutSep(d, '/');
    SplitAtSlash(c, d);
    SplitAtSlash(b, c + "/" + d);
    SplitAtSlash(a, b + "/" + (c + "/" + d));
  }

  /** The republish topic names its record: splitting it on `/` gives back the
      project, the thing and the asset. */
  lemma TopicNamesRecord(s: State)
    requires '/' !in s.project && '/' !in s.thingID && '/' !in s.asset
    ensures Text.Split(StateTopic(s), '/') == ["i1820", "projects", s.project, "things", s.thingID, "assets", s.asset, "state"]
  {
    SplitFourLast(s.thingID, "assets", s.asset, "state");
    SplitFour("i1820", "projects", s.project, "things", s.thingID + "/" + ("assets" + "/" + (s.asset + "/" + "state")));
  }

  /** The collection name names its record: splitting it on `.` gives back the
      project and the thing. */
  lemma {:induction false} CollectionNamesRecord(s: State)
    requires '.' !in s.project && '.' !in s.thingID
    ensures Text.Split(Collection(s), '.') == ["data", s.project, s.thingID]
  {
    var parts := ["data", s.project, s.thingID];
    assert Text.Join(parts[2..], '.') == s.thingID;
    assert Text.Join(parts[1..], '.') == s.project + "." + s.thingID;
    assert Text.Join(parts, '.') == Collection(s);
    Text.SplitJoin(parts, '.');
  }

  /** `core.Application`. */
  class Application {
    /** `runtime.NumCPU()`: the number of workers started per stage by `Run`. */
    const workers: nat

    var isRun: bool

    /** Whether `cli` is set: `Run` creates the broker client, `New` does not. */
    var hasClient: bool

    /** The pipeline streams (created in `New` only): records sent and not yet
        received, and whether the stream has been closed. */
    var projectStream: seq<State>
    var projectClosed: bool
    var decodeStream: seq<State>
    var decodeClosed: bool
    var insertStream: seq<State>
    var insertClosed: bool

    /** The single-slot close signals (created again by every `Run`). */
    var projectCloseChan: Slot
    var decodeCloseChan: Slot

    /** The `sync.WaitGroup` counting insert workers that have not returned. */
    var insertCloseCounter: int

    /** Stage workers started and not yet returned. */
    var projectWorkers: nat
    var decodeWorkers: nat
    var insertWorkers: nat

    /** Recorded outputs: broker publications and Mongo insertions. */
    var published: seq<Publication>
    var inserted: seq<Insertion>

    /** Every record in the pipeline passed `Data`'s guard; the wait group
        counts the insert workers; a stream is closed only after the stream
        before it was closed and drained; no worker runs before its close
        signal exists. */
    ghost predicate Valid()
      reads this
    {
      && (forall s <- projectStream :: Admissible(s))
      && (forall s <- decodeStream :: Admissible(s))
      && (forall s <- insertStream :: Admissible(s))
      && insertCloseCounter == insertWorkers
      && (decodeClosed ==> projectClosed && projectStream == [])
      && (insertClosed ==> decodeClosed && decodeStream == [])
      && (projectCloseChan == Unallocated ==> projectWorkers == 0)
      && (decodeCloseChan == Unallocated ==> decodeWorkers == 0)
    }

    /** A close signal is taken exactly when the downstream stream is closed:
        what makes the "first to exit closes" rule close each stream once. */
    ghost predicate SignalsMatchStreams()
      reads this
    {
      (projectCloseChan == Full <==> decodeClosed) && (decodeCloseChan == Full <==> insertClosed)
    }

    /** `New()`: three open, empty streams; no close signals, no workers. */
    constructor (cpus: nat)
      ensures Valid() && SignalsMatchStreams()
      ensures workers == cpus && !isRun && !hasClient
      ensures projectStream == [] && decodeStream == [] && insertStream == []
      ensures !projectClosed && !decodeClosed && !insertClosed
      ensures projectCloseChan == Unallocated && decodeCloseChan == Unallocated
      ensures projectWorkers == 0 && decodeWorkers == 0 && insertWorkers == 0 && insertCloseCounter == 0
      ensures published == [] && inserted == []
    {
      workers := cpus;
      isRun := false;
      hasClient := false;
      projectStream, decodeStream, insertStream := [], [], [];
      projectClosed, decodeClosed, insertClosed := false, false, false;
      projectCloseChan, decodeCloseChan := Unallocated, Unallocated;
      insertCloseCounter := 0;
      projectWorkers, decodeWorkers, insertWorkers := 0, 0, 0;
      published, inserted := [], [];
    }

    /** `Run()`: fresh close signals, the broker client, then the broker and
        the database are connected (a failure ends the process), then one
        worker per stage and one wait-group count per processor, then `IsRun`.
        The streams are the ones `New` made, so the close signals match them
        again only if no stream has been closed yet. */
    method Run(brokerError: Option<string>, dbError: Option<string>) returns (r: RunOutcome)
      requires Valid()
      modifies this`projectCloseChan, this`decodeCloseChan, this`isRun, this`hasClient
      modifies this`projectWorkers, this`decodeWorkers, this`insertWorkers, this`insertCloseCounter
      ensures Valid()
      ensures projectCloseChan == Empty && decodeCloseChan == Empty && hasClient
      ensures SignalsMatchStreams() <==> !decodeClosed && !insertClosed
      ensures r == if brokerError.Some? then Fatal("MQTT session error: " + brokerError.value)
                   else if dbError.Some? then Fatal("DB connection error: " + dbError.value)
                   else Started
      ensures r.Started? ==> isRun
      ensures r.Started? ==> projectWorkers == old(projectWorkers) + workers && decodeWorkers == old(decodeWorkers) + workers
      ensures r.Started? ==> insertWorkers == old(insertWorkers) + workers && insertCloseCounter == old(insertCloseCounter) + workers
      ensures r.Fatal? ==> isRun == old(isRun) && insertCloseCounter == old(insertCloseCounter)
      ensures r.Fatal? ==> projectWorkers == old(projectWorkers) && decodeWorkers == old(decodeWorkers) && insertWorkers == old(insertWorkers)
    {
      projectCloseChan := Empty;
      decodeCloseChan := Empty;
      hasClient := true;
      if brokerError.Some? {
        return Fatal("MQTT session error: " + brokerError.value);
      }
      if dbError.Some? {
        return Fatal("DB connection error: " + dbError.value);
      }
      StartWorkers();
      isRun := true;
      return Started;
    }

    /** `Run` as its own comment intends it, so that one application can be
        run and stopped many times: once the workers of the last run have
        returned, the three streams are made again, empty and open, before
        `Run`. The close signals then match the streams, so every worker exit
        closes a stream at most once. */
    method RunAfresh(brokerError: Option<string>, dbError: Option<string>) returns (r: RunOutcome)
      requires Valid() && projectWorkers == 0 && decodeWorkers == 0 && insertWorkers == 0
      modifies this`projectStream, this`decodeStream, this`insertStream
      modifies this`projectClosed, this`decodeClosed, this`insertClosed
      modifies this`projectCloseChan, this`decodeCloseChan, this`isRun, this`hasClient
      modifies this`projectWorkers, this`decodeWorkers, this`insertWorkers, this`insertCloseCounter
      ensures Valid() && SignalsMatchStreams() && hasClient
      ensures projectStream == [] && decodeStream == [] && insertStream == []
      ensures !projectClosed && !decodeClosed && !insertClosed
      ensures projectCloseChan == Empty && decodeCloseChan == Empty
      ensures r == if brokerError.Some? then Fatal("MQTT session error: " + brokerError.value)
                   else if dbError.Some? then Fatal("DB connection error: " + dbError.value)
                   else Started
      ensures r.Started? ==> isRun && projectWorkers == workers && decodeWorkers == workers && insertWorkers == workers
      ensures r.Fatal? ==> projectWorkers == 0 && decodeWorkers == 0 && insertWorkers == 0
    {
      projectStream, decodeStream, insertStream := [], [], [];
      projectClosed, decodeClosed, insertClosed := false, false, false;
      r := Run(brokerError, dbError);
    }

    /** The loop of `Run`: per processor, one worker of each stage and one
        count on the wait group. */
    method StartWorkers()
      requires insertCloseCounter == insertWorkers
      modifies this`projectWorkers, this`decodeWorkers, this`insertWorkers, this`insertCloseCounter
      ensures projectWorkers == old(projectWorkers) + workers && decodeWorkers == old(decodeWorkers) + workers
      ensures insertWorkers == old(insertWorkers) + workers && insertCloseCounter == old(insertCloseCounter) + workers
      ensures insertCloseCounter == insertWorkers
    {
      var i := 0;
      while i < workers
        invariant 0 <= i <= workers
        invariant projectWorkers == old(projectWorkers) + i && decodeWorkers == old(decodeWorkers) + i
        invariant insertWorkers == old(insertWorkers) + i && insertCloseCounter == old(insertCloseCounter) + i
      {
        projectWorkers := projectWorkers + 1;
        decodeWorkers := decodeWorkers + 1;
        insertWorkers := insertWorkers + 1;
        insertCloseCounter := insertCloseCounter + 1;
        i := i + 1;
      }
    }

    /** `Exit()`: `IsRun` is cleared first, then the broker client is
        disconnected (a nil dereference before any `Run`), then the project
        stream is closed (a second close panics). Waiting on the wait group is
        `Drained`. */
    method Exit() returns (r: ExitOutcome)
      requires Valid()
      modifies this`isRun, this`projectClosed
      ensures Valid()
      ensures !isRun && projectClosed == (old(projectClosed) || hasClient)
      ensures r == if !hasClient then NilClient
                   else if old(projectClosed) then CloseOfClosedStream
                   else Stopped
    {
      isRun := false;
      if !hasClient {
        return NilClient;
      }
      if projectClosed {
        return CloseOfClosedStream;
      }
      projectClosed := true;
      return Stopped;
    }

    /** What `Exit` waits for: every insert worker has called `Done`. */
    ghost predicate Drained()
      reads this
    {
      insertCloseCounter == 0
    }

    /** `Data(s)`: the guard chain, then the send on the project stream. */
    method Data(s: State) returns (r: Submission)
      requires Valid()
      modifies this`projectStream
      ensures Valid()
      ensures r == match Guard(isRun, s)
                   case Some(e) => Rejected(e)
                   case None => if projectClosed then SendOnClosed else Submitted
      ensures projectStream == if r == Submitted then old(projectStream) + [s] else old(projectStream)
    {
      if !isRun {
        return Rejected(NotRunning);
      }
      if s.raw == RNil || s.at.IsZero() {
        return Rejected(MissingRawOrAt);
      }
      if s.thingID == "" || s.asset == "" {
        return Rejected(MissingIdentity);
      }
      if projectClosed {
        return SendOnClosed;
      }
      projectStream := projectStream + [s];
      return Submitted;
    }

    /** The adapters' loop `for ... { coreApp.Data(state) }` over `states`, the
        results of `Data` ignored; a send on the closed stream panics and ends
        the loop. */
    method SubmitEach(states: seq<State>) returns (panicked: bool)
      requires Valid()
      modifies this`projectStream
      ensures Valid()
      ensures panicked == Panics(isRun, projectClosed, states)
      ensures projectStream == old(projectStream) + Appended(isRun, projectClosed, states)
    {
      var running, closed := isRun, projectClosed;
      var i := 0;
      while i < |states|
        invariant 0 <= i <= |states| && Valid()
        invariant isRun == running && projectClosed == closed
        invariant projectStream == old(projectStream) + Appended(running, closed, states[..i])
        invariant closed ==> Admitted(running, states[..i]) == []
      {
        ghost var before := projectStream;
        ghost var step := if Guard(running, states[i]) == None && !closed then [states[i]] else [];
        AdmittedSnoc(running, states, i);
        var r := Data(states[i]);
        if r == SendOnClosed {
          AdmittedGrows(running, states, i + 1);
          return true;
        }
        assert projectStream == before + step;
        assert projectStream == old(projectStream) + Appended(running, closed, states[..i + 1]) by {
          AppendedSnoc(old(projectStream), running, closed, states, i);
        }
        i := i + 1;
      }
      assert states[..i] == states;
      return false;
    }

    /** One iteration of `projectStage`: the project is looked up only when it
        is empty; a failed lookup drops the record, a found thing supplies the
        project; the record then goes to the decode stream. */
    method ResolveStep(pm: Pm.Resolver, now: int, store: Pm.Store)
      returns (lookup: Option<Result<Pm.Thing, Pm.LookupError>>)
      requires Valid() && projectWorkers > 0 && |projectStream| > 0
      modifies this`projectStream, this`decodeStream, pm
      ensures Valid()
      ensures projectStream == old(projectStream)[1..]
      ensures var d := old(projectStream)[0];
              && (d.project != "" ==> lookup == None && decodeStream == old(decodeStream) + [d] && unchanged(pm))
              && (d.project == "" ==> lookup == Some(Pm.Lookup(old(pm.entries), d.thingID, now, store)))
              && (d.project == "" ==> pm.entries == Pm.CacheAfter(old(pm.entries), d.thingID, now, store))
              && (d.project == "" ==> pm.storeQueries == if Pm.Fresh(old(pm.entries), d.thingID, now)
                                                        then old(pm.storeQueries) else old(pm.storeQueries) + 1)
              && (d.project == "" && lookup.value.Ok? ==>
                    decodeStream == old(decodeStream) + [d.(project := lookup.value.value.project)])
              && (d.project == "" && lookup.value.Err? ==> decodeStream == old(decodeStream))
    {
      var d := projectStream[0];
      assert d in projectStream;
      projectStream := projectStream[1..];
      assert forall x <- projectStream :: x in old(projectStream);
      if d.project == "" {
        var t := pm.ThingByID(d.thingID, now, store);
        lookup := Some(t);
        if t.Err? {
          return;
        }
        d := d.(project := t.value.project);
      } else {
        lookup := None;
      }
      decodeStream := decodeStream + [d];
    }

    /** One iteration of `decodeStage`: the type switch writes the record's
        value, the record is republished on its state topic and forwarded to
        the insert stream. */
    method DecodeStep() returns (n: State)
      requires Valid() && decodeWorkers > 0 && |decodeStream| > 0
      modifies this`decodeStream, this`insertStream, this`published
      ensures Valid()
      ensures var d := old(decodeStream)[0];
              n == d.(value := Normalize.Normalized(d.value, d.raw))
      ensures decodeStream == old(decodeStream)[1..]
      ensures insertStream == old(insertStream) + [n]
      ensures published == old(published) + [Publication(StateTopic(n), n)]
    {
      var d := decodeStream[0];
      assert d in decodeStream;
      decodeStream := decodeStream[1..];
      n := d.(value := Normalize.Normalized(d.value, d.raw));
      assert Admissible(n);
      assert forall x <- decodeStream :: x in old(decodeStream);
      published := published + [Publication(StateTopic(n), n)];
      insertStream := insertStream + [n];
    }

    /** One iteration of `insertStage`: the record goes to its own collection
        (an insert error is only logged). */
    method InsertStep()
      requires Valid() && insertWorkers > 0 && |insertStream| > 0
      modifies this`insertStream, this`inserted
      ensures Valid()
      ensures insertStream == old(insertStream)[1..]
      ensures inserted == old(inserted) + [Insertion(Collection(old(insertStream)[0]), old(insertStream)[0])]
    {
      var d := insertStream[0];
      insertStream := insertStream[1..];
      assert forall x <- insertStream :: x in old(insertStream);
      inserted := inserted + [Insertion(Collection(d), d)];
    }

    /** A project worker returns once its stream is closed and drained: the one
        that fills the close signal closes the decode stream, the others do
        nothing. */
    method ProjectWorkerExit() returns (r: StageExit)
      requires Valid() && projectWorkers > 0 && projectClosed && projectStream == []
      modifies this`projectWorkers, this`projectCloseChan, this`decodeClosed
      ensures Valid()
      ensures projectWorkers == old(projectWorkers) - 1
      ensures r == if old(projectCloseChan) != Empty then NoOp
                   else if old(decodeClosed) then CloseOfClosed
                   else ClosedDownstream
      ensures projectCloseChan == if old(projectCloseChan) == Empty then Full else old(projectCloseChan)
      ensures decodeClosed == (old(decodeClosed) || r == ClosedDownstream)
      ensures old(SignalsMatchStreams()) ==> SignalsMatchStreams() && r != CloseOfClosed
    {
      projectWorkers := projectWorkers - 1;
      if projectCloseChan == Empty {
        projectCloseChan := Full;
        if decodeClosed {
          return CloseOfClosed;
        }
        decodeClosed := true;
        return ClosedDownstream;
      }
      return NoOp;
    }

    /** The same rule between the decode and the insert stream. */
    method DecodeWorkerExit() returns (r: StageExit)
      requires Valid() && decodeWorkers > 0 && decodeClosed && decodeStream == []
      modifies this`decodeWorkers, this`decodeCloseChan, this`insertClosed
      ensures Valid()
      ensures decodeWorkers == old(decodeWorkers) - 1
      ensures r == if old(decodeCloseChan) != Empty then NoOp
                   else if old(insertClosed) then CloseOfClosed
                   else ClosedDownstream
      ensures decodeCloseChan == if old(decodeCloseChan) == Empty then Full else old(decodeCloseChan)
      ensures insertClosed == (old(insertClosed) || r == ClosedDownstream)
      ensures old(SignalsMatchStreams()) ==> SignalsMatchStreams() && r != CloseOfClosed
    {
      decodeWorkers := decodeWorkers - 1;
      if decodeCloseChan == Empty {
        decodeCloseChan := Full;
        if insertClosed {
          return CloseOfClosed;
        }
        insertClosed := true;
        return ClosedDownstream;
      }
      return NoOp;
    }

    /** An insert worker returns once its stream is closed and drained, and
        calls `Done` on the wait group exactly once. */
    method InsertWorkerExit()
      requires Valid() && insertWorkers > 0 && insertClosed && insertStream == []
      modifies this`insertWorkers, this`insertCloseCounter
      ensures Valid()
      ensures insertWorkers == old(insertWorkers) - 1
      ensures insertCloseCounter == old(insertCloseCounter) - 1
    {
      insertWorkers := insertWorkers - 1;
      insertCloseCounter := insertCloseCounter - 1;
    }

    /** All project workers return one after the other: however many there
        are, the decode stream is closed at most once, by the first. */
    method StopProjectStage() returns (closes: nat)
      requires Valid() && SignalsMatchStreams() && projectClosed && projectStream == []
      modifies this`projectWorkers, this`projectCloseChan, this`decodeClosed
      ensures Valid() && SignalsMatchStreams()
      ensures projectWorkers == 0
      ensures closes == if old(projectWorkers) > 0 && !old(decodeClosed) then 1 else 0
      ensures decodeClosed == (old(decodeClosed) || old(projectWorkers) > 0)
    {
      closes := 0;
      while projectWorkers > 0
        invariant Valid() && SignalsMatchStreams() && projectClosed && projectStream == []
        invariant closes <= 1
        invariant closes == 1 ==> decodeClosed
        invariant projectWorkers < old(projectWorkers) ==> decodeClosed
        invariant projectWorkers == old(projectWorkers) ==> decodeClosed == old(decodeClosed) && closes == 0
        invariant old(decodeClosed) ==> closes == 0
        invariant projectWorkers <= old(projectWorkers)
        invariant closes == if projectWorkers < old(projectWorkers) && !old(decodeClosed) then 1 else 0
        decreases projectWorkers
      {
        var r := ProjectWorkerExit();
        if r == ClosedDownstream {
          closes := closes + 1;
        }
      }
    }
  }

  /** The workers of a stopped application with one worker per stage and one
      record with a preset project left in its project stream: the record
      passes the three stages and every worker returns. */
  method DrainSingle(app: Application) returns (n: State)
    requires app.Valid() && app.projectClosed && !app.decodeClosed
    requires |app.projectStream| == 1 && app.projectStream[0].project != ""
    requires app.decodeStream == [] && app.insertStream == [] && app.inserted == []
    requires app.projectWorkers == 1 && app.decodeWorkers == 1 && app.insertWorkers == 1
    requires app.projectCloseChan == Empty && app.decodeCloseChan == Empty
    modifies app`projectStream, app`decodeStream, app`insertStream, app`published, app`inserted
    modifies app`projectWorkers, app`projectCloseChan, app`decodeClosed
    modifies app`decodeWorkers, app`decodeCloseChan, app`insertClosed, app`insertWorkers, app`insertCloseCounter
    ensures app.Valid() && app.Drained()
    ensures var d := old(app.projectStream[0]);
            n == d.(value := Normalize.Normalized(d.value, d.raw))
    ensures app.inserted == [Insertion(Collection(n), n)]
  {
    DrainProjectStage(app);
    n := DrainDecodeStage(app);
    DrainInsertStage(app);
  }

  /** The project worker forwards the one record unchanged (its project is
      set) and, being the only one, closes the decode stream. */
  method DrainProjectStage(app: Application)
    requires app.Valid() && app.projectClosed && !app.decodeClosed
    requires |app.projectStream| == 1 && app.projectStream[0].project != ""
    requires app.decodeStream == [] && app.projectWorkers == 1 && app.projectCloseChan == Empty
    modifies app`projectStream, app`decodeStream, app`projectWorkers, app`projectCloseChan, app`decodeClosed
    ensures app.Valid() && app.decodeClosed && app.projectStream == []
    ensures app.decodeStream == old(app.projectStream)
  {
    var pm := new Pm.Resolver();
    var lookup := app.ResolveStep(pm, 0, Pm.Store(map[], None));
    var closedDecode := app.ProjectWorkerExit();
  }

  /** The decode worker normalizes the one record, forwards it and closes the
      insert stream. */
  method DrainDecodeStage(app: Application) returns (n: State)
    requires app.Valid() && app.decodeClosed && !app.insertClosed
    requires |app.decodeStream| == 1 && app.insertStream == []
    requires app.decodeWorkers == 1 && app.decodeCloseChan == Empty
    modifies app`decodeStream, app`insertStream, app`published, app`decodeWorkers, app`decodeCloseChan, app`insertClosed
    ensures app.Valid() && app.insertClosed && app.decodeStream == []
    ensures var d := old(app.decodeStream[0]);
            n == d.(value := Normalize.Normalized(d.value, d.raw))
    ensures app.insertStream == [n]
  {
    n := app.DecodeStep();
    var closedInsert := app.DecodeWorkerExit();
  }

  /** The insert worker stores the one record and leaves the wait group. */
  method DrainInsertStage(app: Application)
    requires app.Valid() && app.insertClosed && |app.insertStream| == 1
    requires app.insertWorkers == 1
    modifies app`insertStream, app`inserted, app`insertWorkers, app`insertCloseCounter
    ensures app.Valid() && app.Drained() && app.insertStream == []
    ensures app.inserted == old(app.inserted) + [Insertion(Collection(old(app.insertStream[0])), old(app.insertStream[0]))]
  {
    app.InsertStep();
    app.InsertWorkerExit();
  }

  /** A fresh application with one worker per stage is run, handed one
      admissible state and stopped: the state waits alone in the closed project
      stream. */
  method SubmitThenExit(s: State) returns (app: Application)
    requires Admissible(s)
    ensures fresh(app)
    ensures app.Valid() && app.projectClosed && !app.decodeClosed
    ensures app.projectStream == [s] && app.decodeStream == [] && app.insertStream == [] && app.inserted == []
    ensures app.projectWorkers == 1 && app.decodeWorkers == 1 && app.insertWorkers == 1
    ensures app.projectCloseChan == Empty && app.decodeCloseChan == Empty
  {
    app := new Application(1);
    var started := app.Run(None, None);
    var sent := app.Data(s);
    var stopped := app.Exit();
  }

  /** The pipeline test: a state with a preset project and raw 18.20, submitted
      to a running application and drained by `Exit`, is inserted once, into
      `data.her.el-thing`, with `Value.Number == 18.20`. */
  method PipelineTest(ts: Time) returns (stored: seq<Insertion>)
    requires !ts.IsZero()
    ensures |stored| == 1
    ensures stored[0].collection == "data.her.el-thing"
    ensures stored[0].state.value == Value("", false, 18.20, [], RNil)
    ensures stored[0].state.at == ts && stored[0].state.asset == "memory"
  {
    var s := NewState(RNumber(Float64, 18.20), ts, "el-thing", "memory", "her");
    var app := SubmitThenExit(s);
    var n := DrainSingle(app);
    Normalize.NumberReading();
    stored := app.inserted;
    assert Collection(n) == "data.her.el-thing";
  }

  /** A fresh application with one worker per stage is run, stopped and
      drained: its first project worker closes the decode stream, and all
      three streams end closed and empty. */
  method FirstLifetime() returns (app: Application, first: StageExit)
    ensures fresh(app)
    ensures first == ClosedDownstream
    ensures app.Valid() && app.workers == 1
    ensures app.projectClosed && app.projectStream == [] && app.decodeClosed
    ensures app.projectWorkers == 0 && app.decodeWorkers == 0 && app.insertWorkers == 0
  {
    app := new Application(1);
    var r1 := app.Run(None, None);
    var e1 := app.Exit();
    first := app.ProjectWorkerExit();
    var d1 := app.DecodeWorkerExit();
    app.InsertWorkerExit();
  }

  /** Running an application a second time after `Exit`, with the outcomes of
      the second broker and database connections as parameters. When both
      succeed, `Run` makes new close signals but not new streams, so the first
      project worker to return finds an empty signal for a decode stream that
      is already closed, and closing it again panics. When either fails, the
      process ends in `Fatalf` before any worker starts. */
  method RestartPanics(brokerError: Option<string>, dbError: Option<string>)
    returns (first: StageExit, restarted: RunOutcome, second: Option<StageExit>)
    ensures first == ClosedDownstream
    ensures restarted.Started? <==> brokerError.None? && dbError.None?
    ensures second == if restarted.Started? then Some(CloseOfClosed) else None
  {
    var app;
    app, first := FirstLifetime();
    restarted := app.Run(brokerError, dbError);
    if restarted.Started? {
      assert app.projectClosed && app.projectStream == [] && app.projectWorkers == 1;
      var exit := app.ProjectWorkerExit();
      second := Some(exit);
    } else {
      second := None;
    }
  }

  /** The second lifetime under `RunAfresh`: after a first run, stop and drain,
      the application is run afresh, stopped and drained again. `Exit` closes
      the new project stream without panicking, and the project and decode
      workers each close their downstream stream, once. */
  method SecondLifetime() returns (stopped: ExitOutcome, closedDecode: StageExit, closedInsert: StageExit)
    ensures stopped == Stopped
    ensures closedDecode == ClosedDownstream && closedInsert == ClosedDownstream
  {
    var app, first := FirstLifetime();
    var restarted := app.RunAfresh(None, None);
    stopped := app.Exit();
    closedDecode := app.ProjectWorkerExit();
    closedInsert := app.DecodeWorkerExit();
    app.InsertWorkerExit();
  }
}
