/** The management surface (`/manage-api/...`): resetting the store, creating
    each level of the hierarchy, appending a raw event subscription and reading
    a topic's action log (src/index.ts:182-349). Creation checks only that the
    parents exist, subscription first, and overwrites whatever was there. */
module Provisioning {
  import opened Json
  import opened Store

  /** `POST /manage-api/clear`: drops every subscription (the store is only
      replaced when it is non-empty) and always answers `{}`. */
  function Clear(store: Store): (h: Handled)
    ensures forall q :: !Exists(h.store, q)
    ensures h.response == Ok(Empty)
  {
    if |store| > 0 then Handled(map[], Ok(Empty)) else Handled(store, Ok(Empty))
  }

  /** Clearing twice is clearing once. */
  lemma ClearIdempotent(store: Store)
    ensures Clear(Clear(store).store) == Clear(store)
  {
  }

  /** `PUT /manage-api/subscriptions/{s}`: always succeeds and replaces any
      existing subscription with an empty one. */
  function CreateSubscription(store: Store, s: string): (h: Handled)
    ensures h.response == Ok(Empty)
    ensures Replaced(store, h.store, Sub(s))
  {
    Handled(store[s := map[]], Ok(Empty))
  }

  /** `PUT /manage-api/subscriptions/{s}/resourceGroups/{r}`: 404 when the
      subscription is missing, otherwise an empty resource group replaces any
      existing one. */
  function CreateResourceGroup(store: Store, s: string, r: string): (h: Handled)
    ensures h.response.NotFound? <==> !Exists(store, Sub(s))
    ensures h.response.NotFound? ==> RejectedAt(store, h, Sub(s), true)
    ensures h.response.Ok? ==> h.response.body == Empty && Replaced(store, h.store, Group(s, r))
  {
    match Resolve(store, Sub(s))
    case Some(missing) => Handled(store, NotFound(ManageNotFoundMessage(missing)))
    case None => Handled(WithEmptyGroup(store, Group(s, r)), Ok(Empty))
  }

  /** `PUT /manage-api/.../domains/{d}`: 404 naming the first missing of
      subscription and resource group, otherwise an empty domain replaces any
      existing one. */
  function CreateDomain(store: Store, s: string, r: string, d: string): (h: Handled)
    ensures h.response.NotFound? <==> !Exists(store, Group(s, r))
    ensures h.response.NotFound? ==> RejectedAt(store, h, Group(s, r), true)
    ensures h.response.Ok? ==> h.response.body == Empty && Replaced(store, h.store, Dom(s, r, d))
  {
    match Resolve(store, Group(s, r))
    case Some(missing) => Handled(store, NotFound(ManageNotFoundMessage(missing)))
    case None => Handled(WithEmptyDomain(store, Dom(s, r, d)), Ok(Empty))
  }

  /** `PUT /manage-api/.../topics/{t}`: 404 naming the first missing of
      subscription, resource group and domain, otherwise the topic is (re)set
      to empty event-subscription and action lists. */
  function CreateTopic(store: Store, s: string, r: string, d: string, t: string): (h: Handled)
    ensures h.response.NotFound? <==> !Exists(store, Dom(s, r, d))
    ensures h.response.NotFound? ==> RejectedAt(store, h, Dom(s, r, d), true)
    ensures h.response.Ok? ==> h.response.body == Empty && Replaced(store, h.store, Top(s, r, d, t))
    ensures h.response.Ok? ==> TopicAt(h.store, Top(s, r, d, t)) == Some(EmptyTopic)
  {
    match Resolve(store, Dom(s, r, d))
    case Some(missing) => Handled(store, NotFound(ManageNotFoundMessage(missing)))
    case None => Handled(WithEmptyTopic(store, Top(s, r, d, t)), Ok(Empty))
  }

  /** `PUT /manage-api/.../topics/{t}/eventSubscriptions`: after the full
      resolution chain, appends the request body verbatim to the topic's event
      subscriptions; the action log is not touched. */
  function AppendEventSubscription(store: Store, s: string, r: string, d: string, t: string, body: Json): (h: Handled)
    ensures h.response.NotFound? <==> !Exists(store, Top(s, r, d, t))
    ensures h.response.NotFound? ==> RejectedAt(store, h, Top(s, r, d, t), true)
    ensures h.response.Ok? ==>
      && var before := TopicAt(store, Top(s, r, d, t)).value;
      && h.response.body == Empty
      && TopicAt(h.store, Top(s, r, d, t)) == Some(Topic(before.eventSubscriptions + [body], before.actions))
      && (forall q :: q != Top(s, r, d, t) ==> TopicAt(h.store, q) == TopicAt(store, q))
      && (forall q :: Exists(h.store, q) <==> Exists(store, q))
  {
    var p := Top(s, r, d, t);
    match Resolve(store, p)
    case Some(missing) => Handled(store, NotFound(ManageNotFoundMessage(missing)))
    case None =>
      var topic := TopicAt(store, p).value;
      Handled(WithTopic(store, p, topic.(eventSubscriptions := topic.eventSubscriptions + [body])), Ok(Empty))
  }

  /** `GET /manage-api/.../topics/{t}/event-subscription-actions`: the topic's
      action log, every entry in append order. */
  function GetActions(store: Store, s: string, r: string, d: string, t: string): (response: Response)
    ensures response.Ok? <==> Exists(store, Top(s, r, d, t))
    ensures response.NotFound? ==> RejectedAt(store, Handled(store, response), Top(s, r, d, t), true)
    ensures response.Ok? ==>
      response.body.Arr? && ActionsFromJson(response.body.items) == Some(TopicAt(store, Top(s, r, d, t)).value.actions)
  {
    var p := Top(s, r, d, t);
    match Resolve(store, p)
    case Some(missing) => NotFound(ManageNotFoundMessage(missing))
    case None =>
      var actions := TopicAt(store, p).value.actions;
      ActionsRoundTrip(actions);
      Ok(Arr(ActionsJson(actions)))
  }
}
