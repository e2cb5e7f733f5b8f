/** The replay environment controller of server/replay_controller.py: event types and their URNs,
    the replay configuration and the payload that starts a replay, the controller's local mirror
    of the playlist and configuration, and the two replay workflows built on it. Every remote
    call is an input: the transport outcome of that call. */
module ReplayController {
  import opened Wrappers
  import opened Text
  import opened Remote

  // ---------------------------------------------------------------- event types and URNs

  /** The kinds of sport event the replay endpoint accepts. */
  datatype EventType = Match | Stage | Season | Tournament {

    /** The enum value, a URN type of the form "sr:<kind>". */
    function Value(): string {
      match this
      case Match => "sr:match"
      case Stage => "sr:stage"
      case Season => "sr:season"
      case Tournament => "sr:tournament"
    }

    /** The kind of event, the value without "sr:". */
    function Kind(): (k: string)
      ensures Value() == "sr:" + k && ':' !in k
    {
      match this
      case Match => "match"
      case Stage => "stage"
      case Season => "season"
      case Tournament => "tournament"
    }
  }

  /** An event on the playlist; `startTime` is minutes from the start of the event. */
  datatype ReplayEvent = ReplayEvent(eventId: string, eventType: EventType, startTime: Option<int>) {

    /** `to_urn`: the event type's value, a colon, then the event id. */
    function ToUrn(): (urn: string)
      ensures |urn| == |eventType.Value()| + 1 + |eventId|
      ensures urn[..|eventType.Value()|] == eventType.Value()
      ensures urn[|eventType.Value()|] == ':' && urn[|eventType.Value()| + 1..] == eventId
    {
      eventType.Value() + ":" + eventId
    }
  }

  /** An event added by the workflows: a match, from its start. */
  function MatchEvent(matchId: string): ReplayEvent {
    ReplayEvent(matchId, Match, None)
  }

  /** Reads a URN back into its event type and event id; None when no type prefix matches. */
  function ParseUrn(urn: string): Option<(EventType, string)> {
    if |urn| >= 9 && urn[..9] == "sr:match:" then Some((Match, urn[9..]))
    else if |urn| >= 9 && urn[..9] == "sr:stage:" then Some((Stage, urn[9..]))
    else if |urn| >= 10 && urn[..10] == "sr:season:" then Some((Season, urn[10..]))
    else if |urn| >= 14 && urn[..14] == "sr:tournament:" then Some((Tournament, urn[14..]))
    else None
  }

  /** A URN determines the event type and the event id it was built from. */
  lemma {:induction false} UrnRoundTrip(e: ReplayEvent)
    ensures ParseUrn(e.ToUrn()) == Some((e.eventType, e.eventId))
  {
    var urn := e.ToUrn();
    var v := e.eventType.Value();
    assert urn[..|v| + 1] == v + ":";
    assert urn[3] == v[3] && urn[4] == v[4];
  }

  /** Two events have the same URN exactly when they have the same type and id (the start time
      plays no part). */
  lemma UrnInjective(a: ReplayEvent, b: ReplayEvent)
    ensures a.ToUrn() == b.ToUrn() <==> a.eventType == b.eventType && a.eventId == b.eventId
  {
    UrnRoundTrip(a);
    UrnRoundTrip(b);
  }

  /** The part of the type value after its last colon (`value.split(":")[-1]`), used to address
      an event in the summary and timeline paths: the kind of event, which with "sr:" before it
      gives the value back. */
  function UrnType(t: EventType): (k: string)
    ensures k == t.Kind()
    ensures "sr:" + k == t.Value()
  {
    KindAfterPrefix(t.Kind());
    LastPiece(t.Value(), ':')
  }

  /** A colon-free kind is the last piece of "sr:" and the kind. */
  lemma KindAfterPrefix(kind: string)
    requires ':' !in kind
    ensures LastPiece("sr:" + kind, ':') == kind
  {
    var v := "sr:" + kind;
    assert v[|v| - |kind|..] == kind;
    TailUnique(v, ':', kind);
  }

  /** `{urn_type}:{event_id}`, the event part of the summary and timeline paths: the event's URN
      without its "sr:" prefix. */
  function SportEventKey(eventId: string, t: EventType): (key: string)
    ensures "sr:" + key == ReplayEvent(eventId, t, None).ToUrn()
  {
    UrnType(t) + ":" + eventId
  }

  // ---------------------------------------------------------------- configuration and payload

  /** The replay configuration; `speed` is carried as an opaque number. */
  datatype ReplayConfig = ReplayConfig(
    speed: real,
    maxDelay: int,
    useReplayTimestamp: bool,
    nodeId: Option<string>,
    productId: Option<int>)

  /** The configuration a new controller starts with. */
  const DefaultConfig := ReplayConfig(10.0, 10000, false, None, None)

  /** Python truthiness of the optional fields: None, "" and 0 are false. */
  predicate NodeIdGiven(nodeId: Option<string>) {
    nodeId.Some? && nodeId.value != ""
  }

  predicate ProductIdGiven(productId: Option<int>) {
    productId.Some? && productId.value != 0
  }

  /** The JSON body of the play request: speed, max_delay and use_replay_timestamp always,
      node_id and product_id only when they are truthy. */
  function StartPayload(c: ReplayConfig): (p: JsonObject)
    ensures p.Keys == {"speed", "max_delay", "use_replay_timestamp"}
      + (if NodeIdGiven(c.nodeId) then {"node_id"} else {})
      + (if ProductIdGiven(c.productId) then {"product_id"} else {})
    ensures p["speed"] == JNum(c.speed) && p["max_delay"] == JInt(c.maxDelay)
    ensures p["use_replay_timestamp"] == JBool(c.useReplayTimestamp)
    ensures "node_id" in p ==> p["node_id"] == JStr(c.nodeId.value)
    ensures "product_id" in p ==> p["product_id"] == JInt(c.productId.value)
  {
    var base := map["speed" := JNum(c.speed), "max_delay" := JInt(c.maxDelay),
                    "use_replay_timestamp" := JBool(c.useReplayTimestamp)];
    var withNode := if NodeIdGiven(c.nodeId) then base["node_id" := JStr(c.nodeId.value)] else base;
    if ProductIdGiven(c.productId) then withNode["product_id" := JInt(c.productId.value)] else withNode
  }

  /** What the remote endpoint can read back from a play request body. */
  function ConfigOfPayload(p: JsonObject): Option<ReplayConfig> {
    if "speed" in p && p["speed"].JNum? && "max_delay" in p && p["max_delay"].JInt?
      && "use_replay_timestamp" in p && p["use_replay_timestamp"].JBool?
    then
      var nodeId := if "node_id" in p && p["node_id"].JStr? then Some(p["node_id"].s) else None;
      var productId := if "product_id" in p && p["product_id"].JInt? then Some(p["product_id"].i) else None;
      Some(ReplayConfig(p["speed"].x, p["max_delay"].i, p["use_replay_timestamp"].b, nodeId, productId))
    else None
  }

  /** The configuration with the falsy optional fields dropped, as the payload carries it. */
  function OnTheWire(c: ReplayConfig): ReplayConfig {
    c.(nodeId := if NodeIdGiven(c.nodeId) then c.nodeId else None,
       productId := if ProductIdGiven(c.productId) then c.productId else None)
  }

  /** The payload carries the configuration except for falsy optional fields: an empty node id or
      a product id of 0 never reaches the remote endpoint, although `start_replay` records them. */
  lemma PayloadRoundTrip(c: ReplayConfig)
    ensures ConfigOfPayload(StartPayload(c)) == Some(OnTheWire(c))
    ensures ConfigOfPayload(StartPayload(c)) == Some(c)
      <==> (c.nodeId.Some? ==> c.nodeId.value != "") && (c.productId.Some? ==> c.productId.value != 0)
  {
    var p := StartPayload(c);
    assert "node_id" in p <==> NodeIdGiven(c.nodeId);
    assert "product_id" in p <==> ProductIdGiven(c.productId);
  }

  // ---------------------------------------------------------------- playlist

  /** The playlist with every entry whose URN equals `urn` removed (the comprehension in
      `remove_event_from_playlist`). */
  function Without(playlist: seq<ReplayEvent>, urn: string): (r: seq<ReplayEvent>)
    ensures |r| <= |playlist|
    ensures forall i :: 0 <= i < |r| ==> r[i].ToUrn() != urn && r[i] in playlist
    decreases |playlist|
  {
    if playlist == [] then []
    else
      var rest := Without(playlist[1..], urn);
      if playlist[0].ToUrn() == urn then rest else [playlist[0]] + rest
  }

  /** Removal keeps every other entry: an event survives exactly when its URN differs, and as many
      times as it occurred. */
  lemma {:induction false} WithoutCounts(playlist: seq<ReplayEvent>, urn: string, e: ReplayEvent)
    ensures multiset(Without(playlist, urn))[e] == if e.ToUrn() == urn then 0 else multiset(playlist)[e]
    decreases |playlist|
  {
    if playlist != [] {
      var head, tail := playlist[0], playlist[1..];
      var rest := Without(tail, urn);
      WithoutCounts(tail, urn, e);
      assert playlist == [head] + tail;
      var inHead := if head == e then 1 else 0;
      assert multiset(playlist)[e] == inHead + multiset(tail)[e];
      if head.ToUrn() == urn {
        assert Without(playlist, urn) == rest;
        assert head == e ==> e.ToUrn() == urn;
      } else {
        assert Without(playlist, urn) == [head] + rest;
        assert multiset(Without(playlist, urn))[e] == inHead + multiset(rest)[e];
      }
    }
  }

  /** Removal keeps the original order: it distributes over concatenation. */
  lemma {:induction false} WithoutAppend(a: seq<ReplayEvent>, b: seq<ReplayEvent>, urn: string)
    ensures Without(a + b, urn) == Without(a, urn) + Without(b, urn)
    decreases |a|
  {
    if a != [] {
      assert (a + b)[0] == a[0];
      assert (a + b)[1..] == a[1..] + b;
      WithoutAppend(a[1..], b, urn);
    } else {
      assert a + b == b;
    }
  }

  /** Removing an event that is not on the playlist leaves it unchanged. */
  lemma {:induction false} WithoutAbsent(playlist: seq<ReplayEvent>, urn: string)
    requires forall i :: 0 <= i < |playlist| ==> playlist[i].ToUrn() != urn
    ensures Without(playlist, urn) == playlist
    decreases |playlist|
  {
    if playlist != [] {
      WithoutAbsent(playlist[1..], urn);
    }
  }

  /** Removing twice leaves the same playlist as removing once. */
  lemma WithoutIdempotent(playlist: seq<ReplayEvent>, urn: string)
    ensures Without(Without(playlist, urn), urn) == Without(playlist, urn)
  {
    WithoutAbsent(Without(playlist, urn), urn);
  }

  // ---------------------------------------------------------------- the controller

  /** `ReplayEnvironmentController`: the local mirror of the remote playlist and of the last
      configuration a replay was started with. Each operation takes the transport outcome of
      its request and changes the mirror only when the remote call succeeded. */
  class Controller {
    var playlist: seq<ReplayEvent>
    var currentConfig: ReplayConfig

    constructor ()
      ensures playlist == [] && currentConfig == DefaultConfig
    {
      playlist := [];
      currentConfig := DefaultConfig;
    }

    /** `add_event_to_playlist`: PUT the event's URN; on success append exactly that event. */
    method AddEventToPlaylist(eventId: string, eventType: EventType, startTime: Option<int>, reply: Transport)
      returns (success: bool)
      modifies this
      ensures success == Accepted(reply)
      ensures playlist == if success then old(playlist) + [ReplayEvent(eventId, eventType, startTime)] else old(playlist)
      ensures currentConfig == old(currentConfig)
    {
      var event := ReplayEvent(eventId, eventType, startTime);
      var response := MakeRequest(reply, OK);
      success := response.success;
      if success {
        playlist := playlist + [event];
      }
    }

    /** `remove_event_from_playlist`: DELETE the event's URN; on success drop every entry with
      that URN and keep the rest in order. */
    method RemoveEventFromPlaylist(eventId: string, eventType: EventType, reply: Transport)
      returns (success: bool)
      modifies this
      ensures success == Accepted(reply)
      ensures playlist == if success then Without(old(playlist), ReplayEvent(eventId, eventType, None).ToUrn()) else old(playlist)
      ensures currentConfig == old(currentConfig)
    {
      var event := ReplayEvent(eventId, eventType, None);
      var response := MakeRequest(reply, OK);
      success := response.success;
      if success {
        playlist := Without(playlist, event.ToUrn());
      }
    }

    /** `get_playlist`: the remote playlist's "events" entry, or an empty list when the response
      has none, which is always the case on failure. The local mirror is not consulted. */
    method GetPlaylist(reply: Transport) returns (success: bool, events: Json)
      ensures success == Accepted(reply)
      ensures !success ==> events == JList([])
      ensures success && reply.decoded.Some? && "events" in reply.decoded.value
        ==> events == reply.decoded.value["events"]
      ensures success && (reply.decoded.None? || "events" !in reply.decoded.value) ==> events == JList([])
    {
      var response := MakeRequest(reply, OK);
      success := response.success;
      events := if "events" in response.data then response.data["events"] else JList([]);
    }

    /** `start_replay`: POST the play payload built from the parameters; on success the
      configuration becomes exactly the given parameters, including falsy optional fields the
      payload left out. */
    method StartReplay(speed: real, maxDelay: int, useReplayTimestamp: bool,
                       nodeId: Option<string>, productId: Option<int>, reply: Transport)
      returns (success: bool, sent: JsonObject)
      modifies this
      ensures sent == StartPayload(ReplayConfig(speed, maxDelay, useReplayTimestamp, nodeId, productId))
      ensures success == Accepted(reply)
      ensures currentConfig == if success then ReplayConfig(speed, maxDelay, useReplayTimestamp, nodeId, productId)
                               else old(currentConfig)
      ensures playlist == old(playlist)
    {
      var config := ReplayConfig(speed, maxDelay, useReplayTimestamp, nodeId, productId);
      sent := StartPayload(config);
      var response := MakeRequest(reply, OK);
      success := response.success;
      if success {
        currentConfig := config;
      }
    }

    /** `stop_replay`: reports the remote outcome and changes nothing locally (it has no
      modifies clause). */
    method StopReplay(reply: Transport) returns (success: bool)
      ensures success == Accepted(reply)
    {
      var response := MakeRequest(reply, OK);
      success := response.success;
    }

    /** `reset_replay`: on success the playlist is emptied; the configuration is kept. */
    method ResetReplay(reply: Transport) returns (success: bool)
      modifies this
      ensures success == Accepted(reply)
      ensures playlist == if success then [] else old(playlist)
      ensures currentConfig == old(currentConfig)
    {
      var response := MakeRequest(reply, OK);
      success := response.success;
      if success {
        playlist := [];
      }
    }
  }

  // ---------------------------------------------------------------- workflows

  /** The matches of `matchIds` whose add succeeded, in input order: what
      `replay_multiple_matches` leaves on the playlist after a successful reset. */
  function Admitted(matchIds: seq<string>, replies: seq<Transport>): (r: seq<ReplayEvent>)
    requires |replies| == |matchIds|
    ensures |r| <= |matchIds|
    decreases |matchIds|
  {
    if matchIds == [] then []
    else
      var n := |matchIds| - 1;
      Admitted(matchIds[..n], replies[..n]) + (if Accepted(replies[n]) then [MatchEvent(matchIds[n])] else [])
  }

  /** Admission works id by id: the admitted matches of a concatenation are those of each part. */
  lemma {:induction false} AdmittedAppend(a: seq<string>, ra: seq<Transport>, b: seq<string>, rb: seq<Transport>)
    requires |ra| == |a| && |rb| == |b|
    ensures Admitted(a + b, ra + rb) == Admitted(a, ra) + Admitted(b, rb)
    decreases |b|
  {
    if b != [] {
      var n := |b| - 1;
      assert (a + b)[..|a| + n] == a + b[..n];
      assert (ra + rb)[..|a| + n] == ra + rb[..n];
      AdmittedAppend(a, ra, b[..n], rb[..n]);
    } else {
      assert a + b == a && ra + rb == ra;
    }
  }

  /** A match is admitted exactly when one of its adds succeeded. */
  lemma {:induction false} AdmittedMembers(matchIds: seq<string>, replies: seq<Transport>, id: string)
    requires |replies| == |matchIds|
    ensures MatchEvent(id) in Admitted(matchIds, replies)
      <==> exists i :: 0 <= i < |matchIds| && matchIds[i] == id && Accepted(replies[i])
    decreases |matchIds|
  {
    if matchIds != [] {
      var n := |matchIds| - 1;
      var prefix := Admitted(matchIds[..n], replies[..n]);
      var last := if Accepted(replies[n]) then [MatchEvent(matchIds[n])] else [];
      assert Admitted(matchIds, replies) == prefix + last;
      AdmittedMembers(matchIds[..n], replies[..n], id);
      if MatchEvent(id) in prefix {
        var i :| 0 <= i < n && matchIds[..n][i] == id && Accepted(replies[..n][i]);
        assert matchIds[i] == id && Accepted(replies[i]);
      } else if MatchEvent(id) in last {
        assert matchIds[n] == id && Accepted(replies[n]);
      } else {
        forall i | 0 <= i < |matchIds| && matchIds[i] == id
          ensures !Accepted(replies[i])
        {
          if i < n {
            assert matchIds[..n][i] == id;
            assert !Accepted(replies[..n][i]);
          }
        }
      }
    }
  }

  /** Every admitted entry is a match added from its start. */
  lemma {:induction false} AdmittedAreMatches(matchIds: seq<string>, replies: seq<Transport>)
    requires |replies| == |matchIds|
    ensures forall e :: e in Admitted(matchIds, replies) ==> e.eventType == Match && e.startTime == None
    decreases |matchIds|
  {
    if matchIds != [] {
      var n := |matchIds| - 1;
      AdmittedAreMatches(matchIds[..n], replies[..n]);
    }
  }

  /** When every add succeeds the playlist is the whole input, in order. */
  lemma {:induction false} AdmittedAll(matchIds: seq<string>, replies: seq<Transport>)
    requires |replies| == |matchIds|
    requires forall i :: 0 <= i < |replies| ==> Accepted(replies[i])
    ensures |Admitted(matchIds, replies)| == |matchIds|
    ensures forall i :: 0 <= i < |matchIds| ==> Admitted(matchIds, replies)[i] == MatchEvent(matchIds[i])
    decreases |matchIds|
  {
    if matchIds != [] {
      var n := |matchIds| - 1;
      AdmittedAll(matchIds[..n], replies[..n]);
    }
  }

  /** `ReplayWorkflow`: high-level sequences of controller operations. */
  class Workflow {
    const controller: Controller

    constructor (controller: Controller)
      ensures this.controller == controller
    {
      this.controller := controller;
    }

    /** `replay_single_match`: reset, add the match, start; the first failing step ends the
      workflow with false and no later step is sent. */
    method ReplaySingleMatch(matchId: string, speed: real, maxDelay: int,
                             resetReply: Transport, addReply: Transport, startReply: Transport)
      returns (ok: bool)
      modifies controller
      ensures ok <==> Accepted(resetReply) && Accepted(addReply) && Accepted(startReply)
      ensures controller.playlist == if !Accepted(resetReply) then old(controller.playlist)
                                     else if Accepted(addReply) then [MatchEvent(matchId)]
                                     else []
      ensures controller.currentConfig == if ok then ReplayConfig(speed, maxDelay, false, None, None)
                                          else old(controller.currentConfig)
    {
      var reset := controller.ResetReplay(resetReply);
      if !reset {
        return false;
      }
      var added := controller.AddEventToPlaylist(matchId, Match, None, addReply);
      if !added {
        return false;
      }
      var started, _ := controller.StartReplay(speed, maxDelay, false, None, None, startReply);
      if !started {
        return false;
      }
      return true;
    }

    /** `replay_multiple_matches`: reset, add each match in turn skipping the ones whose add fails,
      then start. Only a failed reset or a failed start makes it return false; a start after
      every add failed still succeeds, with an empty playlist. */
    method ReplayMultipleMatches(matchIds: seq<string>, speed: real, maxDelay: int,
                                 resetReply: Transport, addReplies: seq<Transport>, startReply: Transport)
      returns (ok: bool)
      requires |addReplies| == |matchIds|
      modifies controller
      ensures ok <==> Accepted(resetReply) && Accepted(startReply)
      ensures controller.playlist == if Accepted(resetReply) then Admitted(matchIds, addReplies)
                                     else old(controller.playlist)
      ensures controller.currentConfig == if ok then ReplayConfig(speed, maxDelay, false, None, None)
                                          else old(controller.currentConfig)
    {
      var reset := controller.ResetReplay(resetReply);
      if !reset {
        return false;
      }
      var i := 0;
      while i < |matchIds|
        invariant 0 <= i <= |matchIds|
        invariant controller.playlist == Admitted(matchIds[..i], addReplies[..i])
        invariant controller.currentConfig == old(controller.currentConfig)
      {
        var added := controller.AddEventToPlaylist(matchIds[i], Match, None, addReplies[i]);
        assert matchIds[..i + 1][..i] == matchIds[..i];
        assert addReplies[..i + 1][..i] == addReplies[..i];
        i := i + 1;
      }
      assert matchIds[..i] == matchIds && addReplies[..i] == addReplies;
      var started, _ := controller.StartReplay(speed, maxDelay, false, None, None, startReply);
      if !started {
        return false;
      }
      return true;
    }
  }
}
