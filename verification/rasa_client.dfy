/**
 * Extraction of the intent and entities from the reply of the Rasa server.
 * The HTTP exchange itself is outside the model: its outcome (connection
 * failure, other exception, or a status code with a body that may or may not
 * decode as JSON) is the input.
 */
module RasaClient {
  import opened Wrappers

  /** A decoded JSON value; Python's `None` is `JNull`. */
  datatype Json =
    | JNull
    | JBool(b: bool)
    | JNum(n: int)
    | JStr(s: string)
    | JArr(items: seq<Json>)
    | JObj(fields: map<string, Json>)

  const EmptyObject: Json := JObj(map[])
  const EmptyList: Json := JArr([])

  /** What the POST to the Rasa endpoint came back with. */
  datatype RasaReply =
    | ConnectionFailed                      // aiohttp.ClientConnectorError
    | OtherError                            // any other exception while talking to the server
    | Http(status: int, body: Option<Json>) // `body` is None when `response.json()` raises

  /** The `{'intent': ..., 'entities': ...}` dictionary the client returns. */
  datatype RasaData = RasaData(intent: Json, entities: Json)

  /** Python's `v.get(key, default)`: only a dictionary has `.get`; on anything else it raises (None here). */
  function Get(v: Json, key: string, default: Json): (r: Option<Json>)
    ensures r.Some? <==> v.JObj?
    ensures v.JObj? && key in v.fields ==> r == Some(v.fields[key])
    ensures v.JObj? && key !in v.fields ==> r == Some(default)
  {
    if v.JObj? then Some(if key in v.fields then v.fields[key] else default) else None
  }

  /**
   * `pd.get('intent', {}).get('name')` and `pd.get('entities', [])`; None
   * when one of the lookups raises.
   */
  function ParseFields(pd: Json): (r: Option<RasaData>)
    ensures !pd.JObj? ==> r == None
    ensures pd == EmptyObject ==> r == Some(RasaData(JNull, EmptyList))
  {
    match Get(pd, "intent", EmptyObject)
    case None => None
    case Some(intentObj) =>
      match (Get(intentObj, "name", JNull), Get(pd, "entities", EmptyList))
      case (Some(name), Some(entities)) => Some(RasaData(name, entities))
      case _ => None
  }

  /** `event.get('event') == 'user'`. */
  predicate IsUserEvent(e: Json)
  {
    e.JObj? && "event" in e.fields && e.fields["event"] == JStr("user")
  }

  /** `event.get('parse_data', {})` of an event that is a dictionary. */
  function ParseDataOf(e: Json): (r: Json)
    requires e.JObj?
    ensures "parse_data" in e.fields ==> r == e.fields["parse_data"]
    ensures "parse_data" !in e.fields ==> r == EmptyObject
  {
    if "parse_data" in e.fields then e.fields["parse_data"] else EmptyObject
  }

  /** How the scan of a tracker-event list from its end ends. */
  datatype ScanResult = Found(index: nat) | NotFound | Raised

  /** Every event at `from` or later is a dictionary whose `event` is not `'user'`. */
  ghost predicate PassedOver(events: seq<Json>, from: nat)
  {
    forall j :: from <= j < |events| ==> events[j].JObj? && !IsUserEvent(events[j])
  }

  /**
   * `for event in reversed(events)`: the first event met that is not a
   * dictionary raises, the first `'user'` event met is the answer.
   */
  function ScanFromEnd(events: seq<Json>): (r: ScanResult)
    ensures r.Found? ==> r.index < |events| && IsUserEvent(events[r.index])
    decreases |events|
  {
    if events == [] then NotFound
    else
      var last := events[|events| - 1];
      if !last.JObj? then Raised
      else if IsUserEvent(last) then Found(|events| - 1)
      else ScanFromEnd(events[..|events| - 1])
  }

  lemma PassedOverPrefix(events: seq<Json>, from: nat)
    requires 0 < |events| && from < |events|
    ensures PassedOver(events, from) <==>
      PassedOver(events[..|events| - 1], from) && events[|events| - 1].JObj? && !IsUserEvent(events[|events| - 1])
  {
    var pre := events[..|events| - 1];
    if PassedOver(pre, from) && events[|events| - 1].JObj? && !IsUserEvent(events[|events| - 1]) {
      forall j | from <= j < |events| ensures events[j].JObj? && !IsUserEvent(events[j]) {
        if j < |events| - 1 { assert events[j] == pre[j]; }
      }
    }
  }

  /** The scan finds index `i` exactly when `events[i]` is the latest `'user'` event and every later event is a dictionary. */
  lemma {:induction false} ScanFromEndFound(events: seq<Json>, i: nat)
    ensures ScanFromEnd(events) == Found(i) <==>
      i < |events| && IsUserEvent(events[i]) && PassedOver(events, i + 1)
    decreases |events|
  {
    if events != [] {
      var n := |events|;
      var pre := events[..n - 1];
      if i < n - 1 {
        PassedOverPrefix(events, i + 1);
        ScanFromEndFound(pre, i);
        assert events[i] == pre[i];
      }
    }
  }

  /** The scan falls off the start of the list exactly when every event is a dictionary and none is a `'user'` event. */
  lemma {:induction false} ScanFromEndNotFound(events: seq<Json>)
    ensures ScanFromEnd(events) == NotFound <==> PassedOver(events, 0)
    decreases |events|
  {
    if events != [] {
      PassedOverPrefix(events, 0);
      ScanFromEndNotFound(events[..|events| - 1]);
    }
  }

  /** The scan raises exactly when a non-dictionary event comes after every `'user'` event. */
  lemma {:induction false} ScanFromEndRaised(events: seq<Json>)
    ensures ScanFromEnd(events) == Raised <==>
      exists j :: 0 <= j < |events| && !events[j].JObj? && PassedOver(events, j + 1)
    decreases |events|
  {
    if events != [] {
      var n := |events|;
      var pre := events[..n - 1];
      ScanFromEndRaised(pre);
      if ScanFromEnd(events) == Raised && events[n - 1].JObj? {
        var j :| 0 <= j < |pre| && !pre[j].JObj? && PassedOver(pre, j + 1);
        PassedOverPrefix(events, j + 1);
        assert events[j] == pre[j];
      }
      if exists j :: 0 <= j < n && !events[j].JObj? && PassedOver(events, j + 1) {
        var j :| 0 <= j < n && !events[j].JObj? && PassedOver(events, j + 1);
        if j < n - 1 {
          PassedOverPrefix(events, j + 1);
          assert pre[j] == events[j];
        }
      }
    }
  }

  /** The scan as the source runs it: a loop from the last event backwards, returning early. */
  method ScanLatestUserEvent(events: seq<Json>) returns (r: ScanResult)
    ensures r == ScanFromEnd(events)
  {
    var i := |events|;
    assert events[..i] == events;
    while i > 0
      invariant 0 <= i <= |events|
      invariant ScanFromEnd(events) == ScanFromEnd(events[..i])
    {
      var event := events[i - 1];
      assert events[..i][..i - 1] == events[..i - 1];
      if !event.JObj? {
        return Raised;
      }
      if IsUserEvent(event) {
        return Found(i - 1);
      }
      i := i - 1;
    }
    return NotFound;
  }

  /**
   * The value `get_rasa_intent` returns for a given outcome of the HTTP
   * exchange: only a 200 reply whose body is a non-empty list (read from its
   * latest `'user'` event) or a dictionary (read directly) yields a result;
   * every other case, and every exception, yields None.
   */
  function RasaIntent(reply: RasaReply): Option<RasaData>
  {
    if !reply.Http? || reply.status != 200 || reply.body.None? then None
    else
      var body := reply.body.value;
      if body.JArr? && |body.items| > 0 then
        match ScanFromEnd(body.items)
        case Found(i) => ParseFields(ParseDataOf(body.items[i]))
        case _ => None
      else if body.JObj? then ParseFields(body)
      else None
  }

  /** `get_rasa_intent` after the HTTP exchange. */
  method GetRasaIntent(reply: RasaReply) returns (r: Option<RasaData>)
    ensures r == RasaIntent(reply)
  {
    if !reply.Http? || reply.status != 200 || reply.body.None? {
      return None;
    }
    var body := reply.body.value;
    if body.JArr? && |body.items| > 0 {
      var scan := ScanLatestUserEvent(body.items);
      if scan.Found? {
        return ParseFields(ParseDataOf(body.items[scan.index]));
      }
    } else if body.JObj? {
      return ParseFields(body);
    }
    return None;
  }

  /** A status other than 200, a failed connection or any other exception gives None. */
  lemma NotOkGivesNone(reply: RasaReply)
    requires !reply.Http? || reply.status != 200 || reply.body.None?
    ensures RasaIntent(reply) == None
  {
  }

  /** A result comes only from a 200 reply whose body is a non-empty list or a dictionary. */
  lemma ResultOnlyFromOk(reply: RasaReply)
    requires RasaIntent(reply).Some?
    ensures reply.Http? && reply.status == 200 && reply.body.Some?
    ensures (reply.body.value.JArr? && |reply.body.value.items| > 0) || reply.body.value.JObj?
  {
  }

  /**
   * For a list, the result is read from the latest `'user'` event, provided
   * no non-dictionary follows it: a missing `parse_data` gives a None intent
   * name and `[]`, and a `parse_data` that is not a dictionary raises, giving None.
   */
  lemma ListReadsLatestUserEvent(events: seq<Json>, i: nat)
    requires i < |events| && IsUserEvent(events[i]) && PassedOver(events, i + 1)
    ensures RasaIntent(Http(200, Some(JArr(events)))) == ParseFields(ParseDataOf(events[i]))
    ensures "parse_data" !in events[i].fields ==>
      RasaIntent(Http(200, Some(JArr(events)))) == Some(RasaData(JNull, EmptyList))
    ensures "parse_data" in events[i].fields && !events[i].fields["parse_data"].JObj? ==>
      RasaIntent(Http(200, Some(JArr(events)))) == None
  {
    ScanFromEndFound(events, i);
  }

  /** A list without any `'user'` event gives None, whether the scan ends normally or raises. */
  lemma ListWithoutUserEventGivesNone(events: seq<Json>)
    requires forall j :: 0 <= j < |events| ==> !IsUserEvent(events[j])
    ensures RasaIntent(Http(200, Some(JArr(events)))) == None
  {
  }

  /** A list in which a non-dictionary event follows every `'user'` event gives None. */
  lemma ListWithStrayEventGivesNone(events: seq<Json>, j: nat)
    requires j < |events| && !events[j].JObj? && PassedOver(events, j + 1)
    ensures RasaIntent(Http(200, Some(JArr(events)))) == None
  {
    ScanFromEndRaised(events);
  }

  /**
   * Reading a dictionary: missing `intent` gives a None intent name, missing
   * `entities` gives `[]` whether or not `intent` is present, and the lookups
   * fail only when `intent` is present but is not a dictionary.
   */
  lemma ParseFieldsOfObject(m: map<string, Json>)
    ensures ParseFields(JObj(m)).Some? <==> "intent" !in m || m["intent"].JObj?
    ensures ParseFields(JObj(m)).Some? ==>
      ParseFields(JObj(m)).value.entities == if "entities" in m then m["entities"] else EmptyList
    ensures "intent" !in m ==>
      ParseFields(JObj(m)) == Some(RasaData(JNull, if "entities" in m then m["entities"] else EmptyList))
    ensures "intent" in m && m["intent"].JObj? && "name" in m["intent"].fields ==>
      ParseFields(JObj(m)).value.intent == m["intent"].fields["name"]
    ensures "intent" in m && m["intent"].JObj? && "name" !in m["intent"].fields ==>
      ParseFields(JObj(m)).value.intent == JNull
  {
  }

  /** A dictionary body is read directly; a body that is neither a list nor a dictionary gives None. */
  lemma DictAndScalarBodies(body: Json)
    ensures body.JObj? ==> RasaIntent(Http(200, Some(body))) == ParseFields(body)
    ensures !body.JObj? && !body.JArr? ==> RasaIntent(Http(200, Some(body))) == None
    ensures body == EmptyList ==> RasaIntent(Http(200, Some(body))) == None
  {
  }
}
