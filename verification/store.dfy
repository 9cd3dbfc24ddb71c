/** The in-memory resource hierarchy of the event-routing mock: subscription,
    resource group, domain and topic, with the topic holding its event
    subscriptions and its action log (src/index.ts:14-33). Also the parts every
    handler shares: addressing a level of the hierarchy, resolving a path
    parent-first to its first missing ancestor, the canonical path strings the
    404 messages carry, and the JSON form of a topic. */
module Store {
  import opened Json

  datatype Option<T> = None | Some(value: T)

  /** The kind of a recorded mutation; only `Put` is ever recorded. */
  datatype ActionKind = Put | Delete

  /** One entry of a topic's action log: what was attempted, on which scope,
      with the raw request body. */
  datatype Action = Action(kind: ActionKind, id: string, payload: Json)

  datatype Topic = Topic(eventSubscriptions: seq<Json>, actions: seq<Action>)
  datatype Domain = Domain(topics: map<string, Topic>)
  datatype ResourceGroup = ResourceGroup(domains: map<string, Domain>)
  type Subscription = map<string, ResourceGroup>

  /** The whole store: subscription id to its resource groups. */
  type Store = map<string, Subscription>

  const EmptyTopic: Topic := Topic([], [])

  /** A node of the hierarchy, named by the identifiers leading to it. */
  datatype Path =
    | Sub(subscription: string)
    | Group(subscription: string, resourceGroup: string)
    | Dom(subscription: string, resourceGroup: string, domain: string)
    | Top(subscription: string, resourceGroup: string, domain: string, topic: string)

  /** Subscriptions are at depth 0, topics at depth 3. */
  function Depth(p: Path): nat
  {
    match p
    case Sub(_) => 0
    case Group(_, _) => 1
    case Dom(_, _, _) => 2
    case Top(_, _, _, _) => 3
  }

  /** The ancestor of `p` at depth `k` (`p` itself when `k` is its depth). */
  function Ancestor(p: Path, k: nat): (a: Path)
    requires k <= Depth(p)
    ensures Depth(a) == k
    ensures a.subscription == p.subscription
  {
    if k == 0 then Sub(p.subscription)
    else if k == 1 then Group(p.subscription, p.resourceGroup)
    else if k == 2 then Dom(p.subscription, p.resourceGroup, p.domain)
    else p
  }

  /** The immediate parent of a node below subscription level. */
  function Parent(p: Path): (a: Path)
    requires Depth(p) > 0
    ensures Depth(a) + 1 == Depth(p)
  {
    Ancestor(p, Depth(p) - 1)
  }

  /** `q` is `p` or lies below it. */
  ghost predicate Within(q: Path, p: Path)
  {
    Depth(p) <= Depth(q) && Ancestor(q, Depth(p)) == p
  }

  /** The node `p` is in the store (and so, by nesting, are all its ancestors). */
  predicate Exists(store: Store, p: Path)
  {
    match p
    case Sub(s) => s in store
    case Group(s, r) => s in store && r in store[s]
    case Dom(s, r, d) => s in store && r in store[s] && d in store[s][r].domains
    case Top(s, r, d, t) =>
      s in store && r in store[s] && d in store[s][r].domains && t in store[s][r].domains[d].topics
  }

  /** The topic stored at `p`, if `p` names a topic that exists. */
  function TopicAt(store: Store, p: Path): Option<Topic>
  {
    if p.Top? && Exists(store, p)
    then Some(store[p.subscription][p.resourceGroup].domains[p.domain].topics[p.topic])
    else None
  }

  /** `a` is the shallowest ancestor of `p` (possibly `p` itself) that is
      missing from the store: every node above it exists and it does not. */
  ghost predicate FirstMissing(store: Store, p: Path, a: Path)
  {
    && Within(p, a)
    && !Exists(store, a)
    && forall k :: 0 <= k < Depth(a) ==> Exists(store, Ancestor(p, k))
  }

  /** Parent-first resolution: the subscription is checked first, then the
      resource group, the domain and the topic, stopping at the first level that
      is missing. `None` means the whole path resolved. */
  function Resolve(store: Store, p: Path): (missing: Option<Path>)
    ensures missing.None? <==> Exists(store, p)
    ensures missing.Some? ==> FirstMissing(store, p, missing.value)
    decreases Depth(p)
  {
    if Depth(p) == 0 then
      if Exists(store, p) then None else Some(p)
    else
      assert forall k :: 0 <= k < Depth(p) ==> Ancestor(Parent(p), k) == Ancestor(p, k);
      match Resolve(store, Parent(p))
      case Some(a) => Some(a)
      case None => if Exists(store, p) then None else Some(p)
  }

  /** Only one ancestor can be the first missing one. */
  lemma FirstMissingUnique(store: Store, p: Path, a: Path, b: Path)
    requires FirstMissing(store, p, a) && FirstMissing(store, p, b)
    ensures a == b
  {
  }

  /** The canonical resource path of a node, as used both in 404 messages and
      as the scope recorded in the action log. */
  function Render(p: Path): string
    decreases Depth(p)
  {
    match p
    case Sub(s) => "/subscriptions/" + s
    case Group(s, r) => Render(Sub(s)) + "/resourceGroups/" + r
    case Dom(s, r, d) => Render(Group(s, r)) + "/providers/Microsoft.EventGrid/domains/" + d
    case Top(s, r, d, t) => Render(Dom(s, r, d)) + "/topics/" + t
  }

  /** Every ancestor's path is a prefix of the node's path, and a strictly
      shorter one for a proper ancestor. */
  lemma {:induction false} RenderAncestorIsPrefix(p: Path, k: nat)
    requires k <= Depth(p)
    ensures Render(Ancestor(p, k)) <= Render(p)
    ensures k < Depth(p) ==> |Render(Ancestor(p, k))| < |Render(p)|
    decreases Depth(p)
  {
    if k < Depth(p) {
      RenderAncestorIsPrefix(Parent(p), k);
      assert Ancestor(Parent(p), k) == Ancestor(p, k);
      var parent := Render(Parent(p));
      assert Render(p)[..|parent|] == parent;
    }
  }

  const ManagePrefix: string := "[manage]"

  /** The body of a data-plane 404. */
  function NotFoundMessage(a: Path): string
  {
    "could not find " + Render(a)
  }

  /** The body of a management 404: the same message behind the marker. */
  function ManageNotFoundMessage(a: Path): string
  {
    ManagePrefix + " " + NotFoundMessage(a)
  }

  /** A topic's scope spelled out segment by segment. */
  lemma ScopeSpelling(s: string, r: string, d: string, t: string)
    ensures Render(Top(s, r, d, t)) == "/subscriptions/" + s + "/resourceGroups/" + r
      + "/providers/Microsoft.EventGrid/domains/" + d + "/topics/" + t
  {
    assert Render(Group(s, r)) == "/subscriptions/" + s + "/resourceGroups/" + r;
    assert Render(Dom(s, r, d)) == Render(Group(s, r)) + "/providers/Microsoft.EventGrid/domains/" + d;
  }

  /** What a handler sends: 200 with a JSON body, or 404 with a message. */
  datatype Response = Ok(body: Json) | NotFound(message: string)

  /** A handler's outcome: the store after the request and the response. */
  datatype Handled = Handled(store: Store, response: Response)

  /** A failed request: the store is untouched and the 404 names the first
      missing ancestor of `p`, behind the management marker when `manage`. */
  ghost predicate RejectedAt(store: Store, h: Handled, p: Path, manage: bool)
  {
    && h.store == store
    && exists a :: FirstMissing(store, p, a) && h.response == NotFound(Message(a, manage))
  }

  /** The 404 message for a missing node, on the management or the data plane. */
  function Message(a: Path, manage: bool): string
  {
    if manage then ManageNotFoundMessage(a) else NotFoundMessage(a)
  }

  /** `after` is `before` with the node `p` (re)created empty: `p` exists,
      nothing below it does, and nothing outside its subtree changed. */
  ghost predicate Replaced(before: Store, after: Store, p: Path)
  {
    && (forall q :: Exists(after, q) <==> if Within(q, p) then q == p else Exists(before, q))
    && (forall q :: !Within(q, p) ==> TopicAt(after, q) == TopicAt(before, q))
  }

  /** An empty resource group put at `p` replaces only `p`'s subtree. */
  lemma EmptyGroupReplaces(store: Store, p: Path, updated: Store)
    requires p.Group? && Exists(store, Parent(p))
    requires updated == store[p.subscription := store[p.subscription][p.resourceGroup := ResourceGroup(map[])]]
    ensures Replaced(store, updated, p)
  {
  }

  /** The store with a fresh, empty resource group at `p`, whose subscription exists. */
  function WithEmptyGroup(store: Store, p: Path): (updated: Store)
    requires p.Group? && Exists(store, Parent(p))
    ensures Replaced(store, updated, p)
  {
    var updated := store[p.subscription := store[p.subscription][p.resourceGroup := ResourceGroup(map[])]];
    EmptyGroupReplaces(store, p, updated);
    updated
  }

  /** An empty domain put at `p` replaces only `p`'s subtree. */
  lemma EmptyDomainReplaces(store: Store, p: Path, updated: Store)
    requires p.Dom? && Exists(store, Parent(p))
    requires
      var s, r := p.subscription, p.resourceGroup;
      var group := store[s][r];
      updated == store[s := store[s][r := group.(domains := group.domains[p.domain := Domain(map[])])]]
    ensures Replaced(store, updated, p)
  {
  }

  /** The store with a fresh, empty domain at `p`, whose resource group exists. */
  function WithEmptyDomain(store: Store, p: Path): (updated: Store)
    requires p.Dom? && Exists(store, Parent(p))
    ensures Replaced(store, updated, p)
  {
    var s, r := p.subscription, p.resourceGroup;
    var group := store[s][r];
    var updated := store[s := store[s][r := group.(domains := group.domains[p.domain := Domain(map[])])]];
    EmptyDomainReplaces(store, p, updated);
    updated
  }

  /** Which nodes exist once an empty topic is put at `p`: the same as before,
      plus `p`. */
  lemma EmptyTopicExistence(store: Store, p: Path, updated: Store)
    requires p.Top? && Exists(store, Parent(p))
    requires
      var s, r, d := p.subscription, p.resourceGroup, p.domain;
      var group := store[s][r];
      var domain := group.domains[d];
      updated == store[s := store[s][r := group.(domains := group.domains[d := domain.(topics := domain.topics[p.topic := EmptyTopic])])]]
    ensures forall q :: Exists(updated, q) <==> if Within(q, p) then q == p else Exists(store, q)
  {
  }

  /** The store with a fresh, empty topic at `p`, whose domain exists. */
  function WithEmptyTopic(store: Store, p: Path): (updated: Store)
    requires p.Top? && Exists(store, Parent(p))
    ensures Replaced(store, updated, p)
    ensures TopicAt(updated, p) == Some(EmptyTopic)
  {
    var s, r, d, t := p.subscription, p.resourceGroup, p.domain, p.topic;
    var group := store[s][r];
    var domain := group.domains[d];
    var updated := store[s := store[s][r := group.(domains := group.domains[d := domain.(topics := domain.topics[t := EmptyTopic])])]];
    EmptyTopicExistence(store, p, updated);
    updated
  }

  /** The store with the topic at `p` replaced; nothing else changes. */
  function WithTopic(store: Store, p: Path, topic: Topic): (updated: Store)
    requires p.Top? && Exists(store, p)
    ensures TopicAt(updated, p) == Some(topic)
    ensures forall q :: q != p ==> TopicAt(updated, q) == TopicAt(store, q)
    ensures forall q :: Exists(updated, q) <==> Exists(store, q)
  {
    var s, r, d, t := p.subscription, p.resourceGroup, p.domain, p.topic;
    var domain := store[s][r].domains[d];
    var group := store[s][r];
    store[s := store[s][r := group.(domains := group.domains[d := domain.(topics := domain.topics[t := topic])])]]
  }

  // JSON form of the stored records, as the GET handlers send them.

  function KindJson(k: ActionKind): Json
  {
    match k
    case Put => Str("put")
    case Delete => Str("delete")
  }

  function ActionJson(a: Action): Json
  {
    Obj(map["action" := KindJson(a.kind), "id" := Str(a.id), "payload" := a.payload])
  }

  function ActionsJson(actions: seq<Action>): seq<Json>
  {
    if |actions| == 0 then [] else [ActionJson(actions[0])] + ActionsJson(actions[1..])
  }

  function TopicJson(t: Topic): Json
  {
    Obj(map["eventSubscriptions" := Arr(t.eventSubscriptions), "actions" := Arr(ActionsJson(t.actions))])
  }

  function KindFromJson(j: Json): Option<ActionKind>
  {
    if j == Str("put") then Some(Put)
    else if j == Str("delete") then Some(Delete)
    else None
  }

  function ActionFromJson(j: Json): Option<Action>
  {
    if j.Obj? && j.fields.Keys == {"action", "id", "payload"} && j.fields["id"].Str? then
      match KindFromJson(j.fields["action"])
      case Some(k) => Some(Action(k, j.fields["id"].s, j.fields["payload"]))
      case None => None
    else None
  }

  function ActionsFromJson(items: seq<Json>): Option<seq<Action>>
  {
    if |items| == 0 then Some([])
    else
      match (ActionFromJson(items[0]), ActionsFromJson(items[1..]))
      case (Some(a), Some(rest)) => Some([a] + rest)
      case _ => None
  }

  function TopicFromJson(j: Json): Option<Topic>
  {
    if j.Obj? && j.fields.Keys == {"eventSubscriptions", "actions"}
       && j.fields["eventSubscriptions"].Arr? && j.fields["actions"].Arr? then
      match ActionsFromJson(j.fields["actions"].items)
      case Some(actions) => Some(Topic(j.fields["eventSubscriptions"].items, actions))
      case None => None
    else None
  }

  /** The JSON form of an action log loses nothing: every entry, in order. */
  lemma {:induction false} ActionsRoundTrip(actions: seq<Action>)
    ensures |ActionsJson(actions)| == |actions|
    ensures ActionsFromJson(ActionsJson(actions)) == Some(actions)
  {
    if |actions| > 0 {
      ActionsRoundTrip(actions[1..]);
      var items := ActionsJson(actions);
      assert items[0] == ActionJson(actions[0]);
      assert items[1..] == ActionsJson(actions[1..]);
      assert ActionFromJson(items[0]) == Some(actions[0]) by {
        match actions[0].kind
        case Put =>
        case Delete =>
      }
      assert [actions[0]] + actions[1..] == actions;
    }
  }

  /** The JSON form of a topic loses nothing either. */
  lemma TopicRoundTrip(t: Topic)
    ensures TopicFromJson(TopicJson(t)) == Some(t)
  {
    ActionsRoundTrip(t.actions);
  }

  /** Only the JSON form of an action decodes to it. */
  lemma ActionDecodesOnlyEncoding(j: Json, a: Action)
    requires ActionFromJson(j) == Some(a)
    ensures j == ActionJson(a)
  {
    assert j.fields == ActionJson(a).fields;
  }

  /** Only the JSON form of an action log decodes to it: nothing is added,
      dropped or reordered. */
  lemma {:induction false} ActionsDecodeOnlyEncoding(items: seq<Json>, actions: seq<Action>)
    requires ActionsFromJson(items) == Some(actions)
    ensures items == ActionsJson(actions)
  {
    if |items| > 0 {
      var a, rest := ActionFromJson(items[0]).value, ActionsFromJson(items[1..]).value;
      assert actions == [a] + rest;
      ActionDecodesOnlyEncoding(items[0], a);
      ActionsDecodeOnlyEncoding(items[1..], rest);
      assert actions[1..] == rest;
      assert items == [items[0]] + items[1..];
    }
  }

  /** Only the JSON form of a topic decodes to it, so a body that decodes to a
      topic is exactly the object the route sends. */
  lemma TopicDecodesOnlyEncoding(j: Json, t: Topic)
    requires TopicFromJson(j) == Some(t)
    ensures j == TopicJson(t)
  {
    ActionsDecodeOnlyEncoding(j.fields["actions"].items, t.actions);
    assert j.fields == TopicJson(t).fields;
  }
}
