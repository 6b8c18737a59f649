/** The broker's authorization webhooks (actions/mqtt.go): VerneMQ asks before
    a client registers, subscribes or publishes, and the answer is decided from
    the request, the privileged identities and the tokens of the thing the
    topic names. The thing lookup is a parameter of the model. */
module Vernemq {

  import opened Wrappers
  import Text
  import Pm
  import Web

  /** The fields of `VernemqRequest` the decisions read; `topics` holds the
      `Topic` of each subscription entry. */
  datatype Request = Request(username: string, mountpoint: string, topic: string, topics: seq<string>)

  /** The answers: `200 {"result": "ok"}` with an optional `max-age` cache
      header, `200 {"result": {"error": "not ok"}}`, an error status with its
      cause, or a panic on an index out of range. */
  datatype Reply = Allow(maxAge: Option<nat>) | Deny | Failure(status: nat, cause: string) | IndexPanic

  /** The mount point of the platform's own components. */
  const PrivilegedMountpoint := "i1820"

  /** `envy.Get("USR_BROKER_USER", "ella")` with the variable unset. */
  const BrokerUser := "ella"

  /** How long the broker may cache a privileged or a token grant (seconds). */
  const DayMaxAge: nat := 3600 * 24
  const TokenMaxAge: nat := 3600

  /** The identities let through before any other check. */
  predicate Privileged(req: Request): (b: bool)
    ensures req.mountpoint == PrivilegedMountpoint ==> b
    ensures req.username == BrokerUser ==> b
  {
    req.mountpoint == PrivilegedMountpoint || req.username == BrokerUser
  }

  /** `OnRegister`: every client may connect. */
  function OnRegister(req: Request): (r: Reply)
    ensures r == Allow(None)
  {
    Allow(None)
  }

  /** The part `OnSubscribe` and `OnPublish` share once the request is neither
      malformed nor privileged: the thing is the topic's second `/` piece, and
      the username must be one of its tokens. */
  function TokenCheck(req: Request, topic: string, lookup: string -> Result<Pm.Thing, Pm.LookupError>): (r: Reply)
    ensures r == IndexPanic <==> Text.Segment(topic, '/', 1) == None
    ensures r.Failure? <==> Text.Segment(topic, '/', 1).Some? && lookup(Text.Segment(topic, '/', 1).value).Err?
    ensures r.Failure? ==> r == Failure(Web.StatusInternalServerError, lookup(Text.Segment(topic, '/', 1).value).error.Message())
    ensures r.Allow? <==> Text.Segment(topic, '/', 1).Some? && lookup(Text.Segment(topic, '/', 1).value).Ok?
                          && req.username in lookup(Text.Segment(topic, '/', 1).value).value.tokens
    ensures r.Allow? ==> r.maxAge == Some(TokenMaxAge)
  {
    match Text.Segment(topic, '/', 1)
    case None => IndexPanic
    case Some(thingID) =>
      match lookup(thingID)
      case Err(e) => Failure(Web.StatusInternalServerError, e.Message())
      case Ok(t) => if Pm.HasToken(t.tokens, req.username) then Allow(Some(TokenMaxAge)) else Deny
  }

  /** `OnSubscribe`: binding, the privileged bypass, the single-topic rule,
      then the token check on that topic. */
  function OnSubscribe(bound: Result<Request, string>, lookup: string -> Result<Pm.Thing, Pm.LookupError>): (r: Reply)
    ensures bound.Err? ==> r == Failure(Web.StatusBadRequest, bound.error)
    ensures bound.Ok? && Privileged(bound.value) ==> r == Allow(Some(DayMaxAge))
    ensures bound.Ok? && !Privileged(bound.value) && |bound.value.topics| != 1 ==> r == Deny
    ensures bound.Ok? && !Privileged(bound.value) && |bound.value.topics| == 1 ==>
              r == TokenCheck(bound.value, bound.value.topics[0], lookup)
  {
    match bound
    case Err(cause) => Failure(Web.StatusBadRequest, cause)
    case Ok(req) =>
      if Privileged(req) then Allow(Some(DayMaxAge))
      else if |req.topics| != 1 then Deny
      else TokenCheck(req, req.topics[0], lookup)
  }

  /** `OnPublish`: binding, the privileged bypass, then the token check on the
      publish topic. */
  function OnPublish(bound: Result<Request, string>, lookup: string -> Result<Pm.Thing, Pm.LookupError>): (r: Reply)
    ensures bound.Err? ==> r == Failure(Web.StatusBadRequest, bound.error)
    ensures bound.Ok? && Privileged(bound.value) ==> r == Allow(Some(DayMaxAge))
    ensures bound.Ok? && !Privileged(bound.value) ==> r == TokenCheck(bound.value, bound.value.topic, lookup)
  {
    match bound
    case Err(cause) => Failure(Web.StatusBadRequest, cause)
    case Ok(req) =>
      if Privileged(req) then Allow(Some(DayMaxAge))
      else TokenCheck(req, req.topic, lookup)
  }

  /** Who gets through: a well-formed request is allowed exactly when it is
      privileged (for a day) or its username is a token of the thing its topic
      names (for an hour). */
  lemma PublishAllowedExactly(bound: Result<Request, string>, lookup: string -> Result<Pm.Thing, Pm.LookupError>)
    ensures var r := OnPublish(bound, lookup);
            var id := if bound.Ok? then Text.Segment(bound.value.topic, '/', 1) else None;
            r.Allow? <==> (bound.Ok? && (Privileged(bound.value) ||
                             (id.Some? && lookup(id.value).Ok? && bound.value.username in lookup(id.value).value.tokens)))
    ensures var r := OnPublish(bound, lookup);
            r.Allow? ==> r.maxAge == Some(if Privileged(bound.value) then DayMaxAge else TokenMaxAge)
  {
    if bound.Ok? && !Privileged(bound.value) {
      var t := TokenCheck(bound.value, bound.value.topic, lookup);
      assert OnPublish(bound, lookup) == t;
    }
  }

  /** Subscribing to one topic is decided exactly as publishing on it. */
  lemma SubscribeAgreesWithPublish(req: Request, lookup: string -> Result<Pm.Thing, Pm.LookupError>)
    requires req.topics == [req.topic]
    ensures OnSubscribe(Ok(req), lookup) == OnPublish(Ok(req), lookup)
  {
    assert req.topics[0] == req.topic;
  }

  /** A thing publishing on one of its own topics `{prefix}/{id}/{rest}` is
      judged by its own tokens: with a token for a username the publish is
      allowed for an hour, without one it is denied. */
  lemma OwnTopicUsesOwnTokens(req: Request, prefix: string, id: string, rest: string, thing: Pm.Thing,
                              lookup: string -> Result<Pm.Thing, Pm.LookupError>)
    requires '/' !in prefix && '/' !in id && !Privileged(req)
    requires req.topic == prefix + "/" + id + "/" + rest
    requires lookup(id) == Ok(thing)
    ensures OnPublish(Ok(req), lookup) == if req.username in thing.tokens then Allow(Some(TokenMaxAge)) else Deny
  {
    assert req.topic == prefix + ['/'] + (id + ['/'] + rest);
    Text.SegmentShift(prefix, '/', id + ['/'] + rest, 0);
    Text.SegmentFirst(id, '/', rest);
  }

  /** A topic without a `/` makes both handlers panic unless the client is
      privileged: Go's index expression has no second piece to take. For
      `OnSubscribe` the topic is the single one subscribed to. */
  lemma FlatTopicPanics(req: Request, lookup: string -> Result<Pm.Thing, Pm.LookupError>)
    requires '/' !in req.topic && !Privileged(req)
    ensures OnPublish(Ok(req), lookup) == IndexPanic
    ensures req.topics == [req.topic] ==> OnSubscribe(Ok(req), lookup) == IndexPanic
  {
    Text.SplitWithoutSep(req.topic, '/');
  }
}
