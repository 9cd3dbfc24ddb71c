/** The routing table of the mock as one state machine: every request is
    handled synchronously against the single store (src/index.ts:41-383), and a
    run of requests threads the store from one handler to the next. The lemmas
    here are about runs: what a topic looks like after a sequence of requests,
    what a reset does, and how duplicate names resolve. */
module Server {
  import opened Json
  import opened Store
  import Provisioning
  import DataPlane

  /** One request, with its route parameters already extracted. */
  datatype Request =
    | ClearAll
    | PutSubscription(s: string)
    | PutResourceGroup(s: string, r: string)
    | PutDomain(s: string, r: string, d: string)
    | PutTopic(s: string, r: string, d: string, t: string)
    | PutRawEventSubscription(s: string, r: string, d: string, t: string, body: Json)
    | GetActionLog(s: string, r: string, d: string, t: string)
    | GetEntry(s: string, r: string, d: string, t: string, name: string)
    | GetTopicState(s: string, r: string, d: string, t: string, optionalName: Option<string>)
    | PutEntry(s: string, r: string, d: string, t: string, name: string, body: Json)
    | Unmatched
  {
    /** The routes that only read the store. */
    predicate IsRead()
    {
      GetActionLog? || GetEntry? || GetTopicState? || Unmatched?
    }
  }

  /** Dispatch one request. A request that fails leaves the store as it was. */
  function Handle(store: Store, req: Request): (h: Handled)
    ensures h.response.NotFound? ==> h.store == store
  {
    match req
    case ClearAll => Provisioning.Clear(store)
    case PutSubscription(s) => Provisioning.CreateSubscription(store, s)
    case PutResourceGroup(s, r) => Provisioning.CreateResourceGroup(store, s, r)
    case PutDomain(s, r, d) => Provisioning.CreateDomain(store, s, r, d)
    case PutTopic(s, r, d, t) => Provisioning.CreateTopic(store, s, r, d, t)
    case PutRawEventSubscription(s, r, d, t, body) => Provisioning.AppendEventSubscription(store, s, r, d, t, body)
    case GetActionLog(s, r, d, t) => Handled(store, Provisioning.GetActions(store, s, r, d, t))
    case GetEntry(s, r, d, t, name) => Handled(store, DataPlane.GetEventSubscription(store, s, r, d, t, name))
    case GetTopicState(s, r, d, t, name) => Handled(store, DataPlane.GetTopic(store, s, r, d, t, name))
    case PutEntry(s, r, d, t, name, body) => DataPlane.PutEventSubscription(store, s, r, d, t, name, body)
    case Unmatched => Handled(store, Ok(Empty))
  }

  /** The read routes never change the store, and a request that no route
      matches is answered `{}` whatever it carries. */
  lemma ReadsLeaveStore(store: Store, req: Request)
    requires req.IsRead()
    ensures Handle(store, req).store == store
    ensures req.Unmatched? ==> Handle(store, req).response == Ok(Empty)
  {
  }

  /** The store after handling `reqs` in order. */
  function Run(store: Store, reqs: seq<Request>): Store
    decreases |reqs|
  {
    if |reqs| == 0 then store else Run(Handle(store, reqs[0]).store, reqs[1..])
  }

  /** `req` re-creates the topic at `p` or one of its ancestors, or clears the
      store: the only requests that can discard the topic's contents. */
  predicate Resets(req: Request, p: Path)
    requires p.Top?
  {
    match req
    case ClearAll => true
    case PutSubscription(s) => Sub(s) == Ancestor(p, 0)
    case PutResourceGroup(s, r) => Group(s, r) == Ancestor(p, 1)
    case PutDomain(s, r, d) => Dom(s, r, d) == Ancestor(p, 2)
    case PutTopic(s, r, d, t) => Top(s, r, d, t) == p
    case _ => false
  }

  /** The entries a request aimed at the topic `p` appends there. */
  function EntriesOf(req: Request, p: Path): seq<Json>
  {
    match req
    case PutEntry(s, r, d, t, name, body) =>
      if Top(s, r, d, t) == p then [DataPlane.NewEntry(name, Member(body, "properties"))] else []
    case PutRawEventSubscription(s, r, d, t, body) => if Top(s, r, d, t) == p then [body] else []
    case _ => []
  }

  /** The actions a request aimed at the topic `p` records there. */
  function ActionsOf(req: Request, p: Path): seq<Action>
  {
    match req
    case PutEntry(s, r, d, t, _, body) => if Top(s, r, d, t) == p then [DataPlane.PutAction(p, body)] else []
    case _ => []
  }

  function EntriesAdded(reqs: seq<Request>, p: Path): seq<Json>
  {
    if |reqs| == 0 then [] else EntriesOf(reqs[0], p) + EntriesAdded(reqs[1..], p)
  }

  function ActionsAdded(reqs: seq<Request>, p: Path): seq<Action>
  {
    if |reqs| == 0 then [] else ActionsOf(reqs[0], p) + ActionsAdded(reqs[1..], p)
  }

  /** How many data-plane creates in `reqs` target the topic `p`. */
  function PutCount(reqs: seq<Request>, p: Path): nat
  {
    if |reqs| == 0 then 0
    else
      var here := if reqs[0].PutEntry? && Top(reqs[0].s, reqs[0].r, reqs[0].d, reqs[0].t) == p then 1 else 0;
      here + PutCount(reqs[1..], p)
  }

  /** `req` is a create aimed at the topic `p` itself. */
  predicate Targets(req: Request, p: Path)
  {
    (req.PutEntry? || req.PutRawEventSubscription?) && Top(req.s, req.r, req.d, req.t) == p
  }

  /** A request that neither resets nor targets the topic at `p` leaves it as it was. */
  lemma OthersLeaveTopic(store: Store, req: Request, p: Path)
    requires p.Top? && TopicAt(store, p).Some?
    requires !Resets(req, p) && !Targets(req, p)
    ensures TopicAt(Handle(store, req).store, p) == TopicAt(store, p)
  {
  }

  /** One request that does not reset the topic at `p` leaves it in place and
      only appends to it what that request adds. */
  lemma StepOnTopic(store: Store, req: Request, p: Path)
    requires p.Top? && TopicAt(store, p).Some?
    requires !Resets(req, p)
    ensures
      var before := TopicAt(store, p).value;
      TopicAt(Handle(store, req).store, p)
        == Some(Topic(before.eventSubscriptions + EntriesOf(req, p), before.actions + ActionsOf(req, p)))
  {
    var before := TopicAt(store, p).value;
    if Targets(req, p) {
      if req.PutRawEventSubscription? {
        assert ActionsOf(req, p) == [];
        assert before.actions + [] == before.actions;
      }
    } else {
      OthersLeaveTopic(store, req, p);
      assert EntriesOf(req, p) == [] && ActionsOf(req, p) == [];
      assert before.eventSubscriptions + [] == before.eventSubscriptions;
      assert before.actions + [] == before.actions;
    }
  }

  /** Append-only growth: over any run that never resets the topic at `p`, its
      entries and its action log only grow, by exactly what each request adds,
      in request order. */
  lemma {:induction false} TopicTrace(store: Store, reqs: seq<Request>, p: Path)
    requires p.Top? && TopicAt(store, p).Some?
    requires forall i :: 0 <= i < |reqs| ==> !Resets(reqs[i], p)
    ensures
      var before := TopicAt(store, p).value;
      TopicAt(Run(store, reqs), p)
        == Some(Topic(before.eventSubscriptions + EntriesAdded(reqs, p), before.actions + ActionsAdded(reqs, p)))
    decreases |reqs|
  {
    var before := TopicAt(store, p).value;
    if |reqs| == 0 {
      assert before.eventSubscriptions + [] == before.eventSubscriptions;
      assert before.actions + [] == before.actions;
    } else {
      StepOnTopic(store, reqs[0], p);
      var next := Handle(store, reqs[0]).store;
      TopicTrace(next, reqs[1..], p);
      Regroup(before.eventSubscriptions, EntriesOf(reqs[0], p), EntriesAdded(reqs[1..], p));
      Regroup(before.actions, ActionsOf(reqs[0], p), ActionsAdded(reqs[1..], p));
    }
  }

  lemma Regroup<T>(a: seq<T>, b: seq<T>, c: seq<T>)
    ensures (a + b) + c == a + (b + c)
  {
  }

  /** Every recorded action is a `put` on the topic's own scope, one per
      data-plane create aimed at it. */
  lemma {:induction false} ActionsAddedArePuts(reqs: seq<Request>, p: Path)
    ensures |ActionsAdded(reqs, p)| == PutCount(reqs, p)
    ensures forall i :: 0 <= i < |ActionsAdded(reqs, p)| ==>
      ActionsAdded(reqs, p)[i].kind == Put && ActionsAdded(reqs, p)[i].id == Render(p)
  {
    if |reqs| > 0 {
      ActionsAddedArePuts(reqs[1..], p);
    }
  }

  /** A topic after it is (re)created: as long as nothing resets it again, it
      holds exactly the entries and actions the later requests aimed at it
      added, in request order, and nothing from before the create. */
  lemma {:induction false} TopicSinceCreate(store: Store, s: string, r: string, d: string, t: string, reqs: seq<Request>)
    requires Exists(store, Dom(s, r, d))
    requires forall i :: 0 <= i < |reqs| ==> !Resets(reqs[i], Top(s, r, d, t))
    ensures TopicAt(Run(store, [PutTopic(s, r, d, t)] + reqs), Top(s, r, d, t))
      == Some(Topic(EntriesAdded(reqs, Top(s, r, d, t)), ActionsAdded(reqs, Top(s, r, d, t))))
  {
    var p := Top(s, r, d, t);
    var created := Handle(store, PutTopic(s, r, d, t)).store;
    assert TopicAt(created, p) == Some(EmptyTopic);
    assert ([PutTopic(s, r, d, t)] + reqs)[1..] == reqs;
    TopicTrace(created, reqs, p);
    assert [] + EntriesAdded(reqs, p) == EntriesAdded(reqs, p);
    assert [] + ActionsAdded(reqs, p) == ActionsAdded(reqs, p);
  }

  /** The action log after (re)creating a topic, read back through the
      management route: exactly the actions recorded by the later data-plane
      creates on that topic (one `put` each, by `ActionsAddedArePuts`), in
      order, as long as nothing resets the topic again. */
  lemma {:induction false} ActionLogSinceCreate(store: Store, s: string, r: string, d: string, t: string, reqs: seq<Request>)
    requires Exists(store, Dom(s, r, d))
    requires forall i :: 0 <= i < |reqs| ==> !Resets(reqs[i], Top(s, r, d, t))
    ensures Provisioning.GetActions(Run(store, [PutTopic(s, r, d, t)] + reqs), s, r, d, t).Ok?
    ensures ActionsFromJson(Provisioning.GetActions(Run(store, [PutTopic(s, r, d, t)] + reqs), s, r, d, t).body.items)
      == Some(ActionsAdded(reqs, Top(s, r, d, t)))
  {
    TopicSinceCreate(store, s, r, d, t, reqs);
  }

  /** After a clear, every topic-level read (both GET routes, with or without a
      name, and the action log) reports the subscription missing. */
  lemma ClearedReadsNotFound(store: Store, s: string, r: string, d: string, t: string, name: string)
    ensures
      var cleared := Handle(store, ClearAll).store;
      && DataPlane.GetTopic(cleared, s, r, d, t, Some(name)) == NotFound(NotFoundMessage(Sub(s)))
      && DataPlane.GetTopic(cleared, s, r, d, t, None) == NotFound(NotFoundMessage(Sub(s)))
      && DataPlane.GetEventSubscription(cleared, s, r, d, t, name) == NotFound(NotFoundMessage(Sub(s)))
      && Provisioning.GetActions(cleared, s, r, d, t) == NotFound(ManageNotFoundMessage(Sub(s)))
  {
    var cleared := Handle(store, ClearAll).store;
    assert !Exists(cleared, Sub(s));
    assert Resolve(cleared, Top(s, r, d, t)) == Some(Sub(s)) by {
      assert Resolve(cleared, Dom(s, r, d)) == Some(Sub(s)) by {
        assert Resolve(cleared, Group(s, r)) == Some(Sub(s));
      }
    }
  }

  /** Duplicate names: two creates with the same name on one topic both succeed
      and both entries are stored, but a lookup by that name returns the first. */
  lemma DuplicateNameFirstWins(store: Store, s: string, r: string, d: string, t: string, name: string, first: Json, second: Json)
    requires TopicAt(store, Top(s, r, d, t)).Some?
    requires !DataPlane.HasNamed(TopicAt(store, Top(s, r, d, t)).value.eventSubscriptions, name)
    requires "name" !in Spread(Member(first, "properties")) || Spread(Member(first, "properties"))["name"] == Str(name)
    ensures
      var h1 := DataPlane.PutEventSubscription(store, s, r, d, t, name, first);
      var h2 := DataPlane.PutEventSubscription(h1.store, s, r, d, t, name, second);
      && h1.response.Ok? && h2.response.Ok?
      && TopicAt(h2.store, Top(s, r, d, t)).value.eventSubscriptions
           == TopicAt(store, Top(s, r, d, t)).value.eventSubscriptions + [h1.response.body, h2.response.body]
      && DataPlane.GetEventSubscription(h2.store, s, r, d, t, name) == Ok(h1.response.body)
  {
    var p := Top(s, r, d, t);
    var entries := TopicAt(store, p).value.eventSubscriptions;
    var h1 := DataPlane.PutEventSubscription(store, s, r, d, t, name, first);
    var h2 := DataPlane.PutEventSubscription(h1.store, s, r, d, t, name, second);
    DataPlane.NewEntryMerge(name, Member(first, "properties"));
    assert DataPlane.NameIs(h1.response.body, name);
    DataPlane.FindAfterAppend(entries, h1.response.body, name);
    DataPlane.FindAfterAppend(entries + [h1.response.body], h2.response.body, name);
    assert entries + [h1.response.body] + [h2.response.body] == entries + [h1.response.body, h2.response.body];
  }

  /** Create then read back: after a data-plane create whose properties do not
      rename it, both GET routes find the name, and the stored entry carries
      that name and, for a string (non-object) `endpointType`, a destination of
      just `{ endpointType }`. */
  lemma CreateThenRead(store: Store, s: string, r: string, d: string, t: string, name: string, body: Json)
    requires TopicAt(store, Top(s, r, d, t)).Some?
    requires "name" !in Spread(Member(body, "properties")) || Spread(Member(body, "properties"))["name"] == Str(name)
    ensures
      var h := DataPlane.PutEventSubscription(store, s, r, d, t, name, body);
      var entry := h.response.body;
      var endpointType := DataPlane.EndpointType(Member(body, "properties"));
      && h.response.Ok?
      && entry.Obj? && "name" in entry.fields && entry.fields["name"] == Str(name)
      && (!endpointType.Obj? ==>
            "destination" in entry.fields && entry.fields["destination"] == Obj(map["endpointType" := endpointType]))
      && DataPlane.GetTopic(h.store, s, r, d, t, Some(name)).Ok?
      && DataPlane.GetEventSubscription(h.store, s, r, d, t, name).Ok?
  {
    var properties := Member(body, "properties");
    var h := DataPlane.PutEventSubscription(store, s, r, d, t, name, body);
    DataPlane.NewEntryMerge(name, properties);
    DataPlane.DestinationMerge(properties);
    var entries := TopicAt(h.store, Top(s, r, d, t)).value.eventSubscriptions;
    assert entries[|entries| - 1] == h.response.body;
    assert DataPlane.NameIs(entries[|entries| - 1], name);
  }
}
