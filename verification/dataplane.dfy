/** The data-plane routes under
    `/subscriptions/{s}/resourceGroups/{r}/providers/Microsoft.EventGrid/domains/{d}/topics/{t}/providers/Microsoft.EventGrid/eventSubscriptions`:
    creating an event subscription (src/index.ts:129-174) and the two reads
    (src/index.ts:41-126). Every one of them runs the full resolution chain
    first and answers a plain (unprefixed) 404 for the first missing level. */
module DataPlane {
  import opened Json
  import opened Store

  /** `entry.name === name`: strict equality, so only a string field matches. */
  predicate NameIs(entry: Json, name: string)
  {
    Member(entry, "name") == Str(name)
  }

  ghost predicate HasNamed(entries: seq<Json>, name: string)
  {
    exists i :: 0 <= i < |entries| && NameIs(entries[i], name)
  }

  /** `entry` is the earliest element of `entries` with that name. */
  ghost predicate FirstNamed(entries: seq<Json>, name: string, entry: Json)
  {
    exists i :: 0 <= i < |entries| && entries[i] == entry && NameIs(entry, name)
      && forall j :: 0 <= j < i ==> !NameIs(entries[j], name)
  }

  /** `Array.prototype.find` by name: the index of the first match, if any. */
  function FindByName(entries: seq<Json>, name: string): (found: Option<nat>)
    ensures found.Some? ==> found.value < |entries| && NameIs(entries[found.value], name)
    ensures found.Some? ==> forall j :: 0 <= j < found.value ==> !NameIs(entries[j], name)
    ensures found.None? ==> forall j :: 0 <= j < |entries| ==> !NameIs(entries[j], name)
  {
    if |entries| == 0 then None
    else if NameIs(entries[0], name) then Some(0)
    else
      match FindByName(entries[1..], name)
      case None => None
      case Some(i) => Some(i + 1)
  }

  /** Appending never changes an earlier match; it can only supply the first one. */
  lemma {:induction false} FindAfterAppend(entries: seq<Json>, entry: Json, name: string)
    ensures FindByName(entries + [entry], name) ==
      if FindByName(entries, name).Some? then FindByName(entries, name)
      else if NameIs(entry, name) then Some(|entries|)
      else None
  {
    if |entries| > 0 {
      FindAfterAppend(entries[1..], entry, name);
      assert (entries + [entry])[1..] == entries[1..] + [entry];
    }
  }

  /** `properties?.destination?.endpointType`. */
  function EndpointType(properties: Json): Json
  {
    Member(Member(properties, "destination"), "endpointType")
  }

  /** What `...properties?.destination?.endpointType?.properties` adds. */
  function EndpointExtras(properties: Json): map<string, Json>
  {
    Spread(Member(EndpointType(properties), "properties"))
  }

  /** The stored `destination`: `{ endpointType, ...endpointType?.properties }`. */
  function Destination(properties: Json): Json
  {
    Obj(Layer([map["endpointType" := EndpointType(properties)], EndpointExtras(properties)]))
  }

  /** The destination's keys are `endpointType` and the spread keys, and the
      spread keys win, a nested `endpointType` included; a non-object
      `endpointType` (the usual string tag) contributes nothing extra. */
  lemma DestinationMerge(properties: Json)
    ensures Destination(properties).fields.Keys == {"endpointType"} + EndpointExtras(properties).Keys
    ensures forall k :: k in EndpointExtras(properties) ==>
      Destination(properties).fields[k] == EndpointExtras(properties)[k]
    ensures "endpointType" !in EndpointExtras(properties) ==>
      Destination(properties).fields["endpointType"] == EndpointType(properties)
    ensures !EndpointType(properties).Obj? ==>
      Destination(properties) == Obj(map["endpointType" := EndpointType(properties)])
  {
    var layers := [map["endpointType" := EndpointType(properties)], EndpointExtras(properties)];
    LayerLastWins(layers);
    assert forall k :: k in EndpointExtras(properties) ==> LastWith(layers, k, 1);
    assert "endpointType" !in EndpointExtras(properties) ==> LastWith(layers, "endpointType", 0);
    if !EndpointType(properties).Obj? {
      assert EndpointExtras(properties) == map[];
    }
  }

  /** The stored event subscription: `{ name, ...properties, destination }`. */
  function NewEntry(name: string, properties: Json): Json
  {
    Obj(Layer([map["name" := Str(name)], Spread(properties), map["destination" := Destination(properties)]]))
  }

  /** Keys of `properties` override the name from the path, and the computed
      destination overrides `properties.destination`; no other key appears. */
  lemma NewEntryMerge(name: string, properties: Json)
    ensures NewEntry(name, properties).fields.Keys == {"name", "destination"} + Spread(properties).Keys
    ensures NewEntry(name, properties).fields["destination"] == Destination(properties)
    ensures forall k :: k in Spread(properties) && k != "destination" ==>
      NewEntry(name, properties).fields[k] == Spread(properties)[k]
    ensures "name" !in Spread(properties) ==> NewEntry(name, properties).fields["name"] == Str(name)
  {
    var layers := [map["name" := Str(name)], Spread(properties), map["destination" := Destination(properties)]];
    LayerLastWins(layers);
    assert LastWith(layers, "destination", 2);
    assert forall k :: k in Spread(properties) && k != "destination" ==> LastWith(layers, k, 1);
    assert "name" !in Spread(properties) ==> LastWith(layers, "name", 0);
  }

  /** The action recorded for a data-plane create on the topic at `p`. */
  function PutAction(p: Path, body: Json): Action
  {
    Action(Put, Render(p), body)
  }

  /** `PUT .../eventSubscriptions/{name}`: on a resolved topic, appends the new
      entry and one `put` action (scope path, raw body) and answers the entry;
      a duplicate name is not rejected. */
  function PutEventSubscription(store: Store, s: string, r: string, d: string, t: string, name: string, body: Json): (h: Handled)
    ensures h.response.NotFound? <==> !Exists(store, Top(s, r, d, t))
    ensures h.response.NotFound? ==> RejectedAt(store, h, Top(s, r, d, t), false)
    ensures h.response.Ok? ==>
      && var before := TopicAt(store, Top(s, r, d, t)).value;
      && h.response.body == NewEntry(name, Member(body, "properties"))
      && TopicAt(h.store, Top(s, r, d, t)) == Some(Topic(
           before.eventSubscriptions + [h.response.body],
           before.actions + [Action(Put, Render(Top(s, r, d, t)), body)]))
      && (forall q :: q != Top(s, r, d, t) ==> TopicAt(h.store, q) == TopicAt(store, q))
      && (forall q :: Exists(h.store, q) <==> Exists(store, q))
  {
    var p := Top(s, r, d, t);
    match Resolve(store, p)
    case Some(missing) => Handled(store, NotFound(NotFoundMessage(missing)))
    case None =>
      var topic := TopicAt(store, p).value;
      var entry := NewEntry(name, Member(body, "properties"));
      var updated := Topic(topic.eventSubscriptions + [entry], topic.actions + [PutAction(p, body)]);
      Handled(WithTopic(store, p, updated), Ok(entry))
  }

  /** The 404 for a resolved topic without the requested entry. The last
      segment is the subscription id, not the event-subscription name. */
  function MissingEntryMessage(p: Path): string
  {
    NotFoundMessage(p) + "/eventSubscriptions/" + p.subscription
  }

  /** `GET //subscriptions/.../eventSubscriptions/{name}`: the first entry of
      the topic with that name. */
  function GetEventSubscription(store: Store, s: string, r: string, d: string, t: string, name: string): (response: Response)
    ensures response.Ok? <==>
      Exists(store, Top(s, r, d, t)) && HasNamed(TopicAt(store, Top(s, r, d, t)).value.eventSubscriptions, name)
    ensures !Exists(store, Top(s, r, d, t)) ==> RejectedAt(store, Handled(store, response), Top(s, r, d, t), false)
    ensures Exists(store, Top(s, r, d, t)) && response.NotFound? ==>
      response.message == NotFoundMessage(Top(s, r, d, t)) + "/eventSubscriptions/" + s
    ensures response.Ok? ==> FirstNamed(TopicAt(store, Top(s, r, d, t)).value.eventSubscriptions, name, response.body)
  {
    var p := Top(s, r, d, t);
    match Resolve(store, p)
    case Some(missing) => NotFound(NotFoundMessage(missing))
    case None =>
      var entries := TopicAt(store, p).value.eventSubscriptions;
      match FindByName(entries, name)
      case Some(i) => Ok(entries[i])
      case None => NotFound(MissingEntryMessage(p))
  }

  /** `GET /subscriptions/.../eventSubscriptions/{name?}`: the whole topic
      (entries and action log), both when no name is given (or it is empty)
      and when some entry has the name; 404 only when a name is given and no
      entry has it. */
  function GetTopic(store: Store, s: string, r: string, d: string, t: string, name: Option<string>): (response: Response)
    ensures response.Ok? <==>
      && Exists(store, Top(s, r, d, t))
      && (name.None? || name.value == "" || HasNamed(TopicAt(store, Top(s, r, d, t)).value.eventSubscriptions, name.value))
    ensures !Exists(store, Top(s, r, d, t)) ==> RejectedAt(store, Handled(store, response), Top(s, r, d, t), false)
    ensures Exists(store, Top(s, r, d, t)) && response.NotFound? ==>
      response.message == NotFoundMessage(Top(s, r, d, t)) + "/eventSubscriptions/" + s
    ensures response.Ok? ==> TopicFromJson(response.body) == TopicAt(store, Top(s, r, d, t))
  {
    var p := Top(s, r, d, t);
    match Resolve(store, p)
    case Some(missing) => NotFound(NotFoundMessage(missing))
    case None =>
      var topic := TopicAt(store, p).value;
      TopicRoundTrip(topic);
      if name.Some? && name.value != "" then
        match FindByName(topic.eventSubscriptions, name.value)
        case Some(_) => Ok(TopicJson(topic))
        case None => NotFound(MissingEntryMessage(p))
      else Ok(TopicJson(topic))
  }
}
