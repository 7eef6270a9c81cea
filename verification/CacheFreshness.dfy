/**
 The payload cache. In runs without faults no cached response for the environment and organization of a
 connection predates the controller's last write of it, however responses are cached in between. A write
 whose clear fails is never made good.
 */
module CacheFreshness {
  import opened Wrappers
  import opened Documents
  import opened Selectors
  import opened Resources
  import opened Upserts
  import opened Worlds
  import opened Pass
  import opened DatabaseModel
  import opened Identity
  import opened Quiet
  import opened Fixpoint
  import FinalizerNames
  import KeyGenerator

  /** A cached response served to the SDKs of the connection. */
  predicate Serves(c: SDKConnection, pl: Payload) {
    pl.environment == c.environment && pl.organization == c.organization
  }

  ghost predicate FreshFor(w: World, k: DocKey) {
    k in w.stamps && k in w.docs && w.docs[k].ConnectionDoc? ==>
      forall pl | pl in w.payloads && Serves(w.docs[k].connection, pl) :: w.stamps[k] <= pl.stamp
  }

  ghost predicate Stamped(w: World) {
    && (forall k | k in w.stamps :: w.stamps[k] <= w.clock)
    && (forall pl | pl in w.payloads :: pl.stamp <= w.clock)
  }

  ghost predicate Fresh(w: World) {
    Stamped(w) && forall k :: FreshFor(w, k)
  }

  predicate NoFaults(ticks: seq<Tick>) {
    forall t | t in ticks :: !t.fault
  }

  /** Of one document: others may drop or replace it, which ends its stamp, and what they cache is new. */
  lemma FreshForSame(w: World, w': World, k: DocKey)
    requires w'.docs == w.docs && w'.payloads == w.payloads && w'.clock == w.clock && w'.stamps == w.stamps
    ensures FreshFor(w, k) <==> FreshFor(w', k)
  {
  }

  lemma EventKeepsFreshFor(p: Params, w: World, e: Event, k: DocKey)
    requires Stamped(w)
    ensures var w' := Applied(p, w, e);
            && Stamped(w')
            && (FreshFor(w, k) ==> FreshFor(w', k))
            && (k in w'.stamps ==> k in w.stamps && w'.stamps[k] == w.stamps[k])
            && (k in w'.stamps && k in w'.docs ==> k in w.docs && w'.docs[k] == w.docs[k])
  {
    if !e.WriteDoc? && !e.RemoveDoc? && !e.Fill? {
      FreshForSame(w, Applied(p, w, e), k);
    }
  }

  lemma {:induction false} EventsKeepFreshFor(p: Params, w: World, events: seq<Event>, k: DocKey)
    requires Stamped(w)
    ensures var w' := AppliedAll(p, w, events);
            && Stamped(w')
            && (FreshFor(w, k) ==> FreshFor(w', k))
            && (k in w'.stamps ==> k in w.stamps && w'.stamps[k] == w.stamps[k])
            && (k in w'.stamps && k in w'.docs ==> k in w.docs && w'.docs[k] == w.docs[k])
    decreases |events|
  {
    if events != [] {
      EventKeepsFreshFor(p, w, events[0], k);
      EventsKeepFreshFor(p, Applied(p, w, events[0]), events[1..], k);
    }
  }

  lemma EventsKeepFresh(p: Params, w: World, events: seq<Event>)
    requires Fresh(w)
    ensures Fresh(AppliedAll(p, w, events))
  {
    EventsKeepFreshFor(p, w, events, DocKey(ClientKind, ""));
    forall k
      ensures FreshFor(AppliedAll(p, w, events), k)
    {
      EventsKeepFreshFor(p, w, events, k);
    }
  }

  lemma {:induction false} EventsKeepFiled(p: Params, w: World, events: seq<Event>)
    requires Filed(w.docs)
    ensures Filed(AppliedAll(p, w, events).docs)
    decreases |events|
  {
    if events != [] {
      EventsKeepFiled(p, Applied(p, w, events[0]), events[1..]);
    }
  }

  /** From s to r without a fault, unless the schedule ended. */
  ghost predicate KeepsFresh(s: State, r: State) {
    && NoFaults(r.ticks)
    && (r.ticks != [] ==> s.ticks != [])
    && (Filed(s.w.docs) ==> Filed(r.w.docs))
    && (Fresh(s.w) && r.ticks != [] ==> Fresh(r.w))
  }

  lemma BeginKeepsFresh(p: Params, s: State)
    requires NoFaults(s.ticks)
    ensures KeepsFresh(s, Begin(p, s).s) && (s.ticks != [] ==> Begin(p, s).ok)
  {
    if s.ticks != [] {
      if Fresh(s.w) {
        EventsKeepFresh(p, s.w, s.ticks[0].events);
      }
      if Filed(s.w.docs) {
        EventsKeepFiled(p, s.w, s.ticks[0].events);
      }
    }
    assert s.ticks != [] ==> s.ticks[0] in s.ticks;
  }

  /** Nothing but objects, instance or history of foreign writes differs. */
  lemma FreshAside(w: World, w': World)
    requires Fresh(w) && w'.docs == w.docs && w'.payloads == w.payloads && w'.clock == w.clock && w'.stamps == w.stamps
    ensures Fresh(w')
  {
    assert forall k :: FreshFor(w, k) ==> FreshFor(w', k);
  }

  lemma PatchKeepsFresh(p: Params, s: State, uid: nat, finalizers: seq<string>)
    requires NoFaults(s.ticks)
    ensures KeepsFresh(s, Patch(p, s, uid, finalizers).s)
  {
    BeginKeepsFresh(p, s);
    var b, r := Begin(p, s).s, Patch(p, s, uid, finalizers).s;
    if Fresh(b.w) {
      FreshAside(b.w, r.w);
    }
  }

  lemma {:induction false} MarkAllKeepsFresh(p: Params, s: State, items: seq<Object>)
    requires NoFaults(s.ticks)
    ensures KeepsFresh(s, MarkAll(p, s, items).s)
    decreases |items|
  {
    if items != [] {
      var o := items[0];
      PatchKeepsFresh(p, s, o.uid, With(o.finalizers, p.finalizer));
      var a := AddFinalizer(p, s, o);
      if a.ok {
        MarkAllKeepsFresh(p, if o.deleting then a.s else a.s.(catalog := Catalogued(a.s.catalog, o)), items[1..]);
      }
    }
  }

  lemma {:induction false} GatherKeepsFresh(p: Params, s: State, bindings: seq<Binding>)
    requires NoFaults(s.ticks)
    ensures KeepsFresh(s, Gather(p, s, bindings).out.s)
    decreases |bindings|
  {
    if bindings != [] {
      BeginKeepsFresh(p, s);
      GatherKeepsFresh(p, Begin(p, s).s, bindings[1..]);
    }
  }

  /** A write keeps every other connection fresh: a stamp is never newer than what is cached after it. */
  lemma StoredKeepsOthersFresh(w: World, key: DocKey, r: Upserted<Doc>)
    requires Fresh(w) && (!r.wrote ==> key in w.docs && w.docs[key] == r.doc)
    ensures forall k | k != key :: FreshFor(Stored(w, key, r), k)
    ensures !r.wrote || !r.doc.ConnectionDoc? ==> Fresh(Stored(w, key, r))
  {
    var w' := Stored(w, key, r);
    forall k | k != key || !r.wrote || !r.doc.ConnectionDoc?
      ensures FreshFor(w', k)
    {
      assert FreshFor(w, k);
    }
  }

  /** The clear after the write, with whatever was cached in between. */
  lemma ClearMakesFresh(p: Params, w: World, events: seq<Event>, key: DocKey)
    requires Stamped(w) && forall k | k != key :: FreshFor(w, k)
    requires key in w.docs && w.docs[key].ConnectionDoc?
    ensures var c, v := w.docs[key].connection, AppliedAll(p, w, events);
            Fresh(v.(payloads := Cleared(v.payloads, c.environment, c.organization)))
  {
    var c, v := w.docs[key].connection, AppliedAll(p, w, events);
    ClearedExactly(v.payloads, c.environment, c.organization);
    EventsKeepFreshFor(p, w, events, key);
    forall k
      ensures FreshFor(v.(payloads := Cleared(v.payloads, c.environment, c.organization)), k)
    {
      EventsKeepFreshFor(p, w, events, k);
    }
  }

  lemma ClearKeepsFresh(p: Params, s: State, key: DocKey)
    requires NoFaults(s.ticks) && key in s.w.docs && s.w.docs[key].ConnectionDoc?
    requires Stamped(s.w) && forall k | k != key :: FreshFor(s.w, k)
    ensures var c, r := s.w.docs[key].connection, ClearCache(p, s, s.w.docs[key].connection.environment, s.w.docs[key].connection.organization).s;
            NoFaults(r.ticks) && (r.ticks != [] ==> s.ticks != [] && Fresh(r.w)) && (Filed(s.w.docs) ==> Filed(r.w.docs))
  {
    BeginKeepsFresh(p, s);
    if s.ticks != [] {
      assert s.ticks[0] in s.ticks;
      ClearMakesFresh(p, s.w, s.ticks[0].events, key);
    }
  }

  lemma PutKeepsFresh(p: Params, s: State, organization: string, members: seq<Member>, o: Object)
    requires NoFaults(s.ticks) && Filed(s.w.docs)
    ensures KeepsFresh(s, Put(p, s, organization, members, o).s)
  {
    BeginKeepsFresh(p, s);
    var b := Begin(p, s);
    if b.ok {
      EventsKeepFiled(p, s.w, s.ticks[0].events);
      var existing, e := Get(b.s.w.docs, o.Key()), s.ticks[0].entropy;
      var c := Computed(p, b.s.w.secrets, organization, members, o, existing, e);
      if c.Some? {
        ComputedConnection(p, b.s.w.secrets, organization, members, o, existing, e);
        if Fresh(b.s.w) {
          StoredKeepsOthersFresh(b.s.w, o.Key(), c.value);
        }
        if o.spec.ClientSpec? && c.value.wrote {
          var s' := b.s.(w := Stored(b.s.w, o.Key(), c.value));
          if Fresh(b.s.w) {
            ClearKeepsFresh(p, s', o.Key());
          } else {
            BeginKeepsFresh(p, s');
          }
        }
      }
    }
  }

  lemma RetireKeepsFresh(p: Params, s: State, o: Object)
    requires NoFaults(s.ticks)
    ensures KeepsFresh(s, Retire(p, s, o).s)
  {
    BeginKeepsFresh(p, s);
    var d := Purge(p, s, o.Key());
    if Fresh(Begin(p, s).s.w) {
      assert forall k :: FreshFor(Begin(p, s).s.w, k) ==> FreshFor(d.s.w, k);
    }
    PatchKeepsFresh(p, d.s, o.uid, Without(o.finalizers, p.finalizer));
    PatchKeepsFresh(p, s, o.uid, Without(o.finalizers, p.finalizer));
  }

  lemma SettleOneKeepsFresh(p: Params, s: State, i: Instance, organization: string, o: Object)
    requires NoFaults(s.ticks) && Filed(s.w.docs)
    ensures KeepsFresh(s, SettleOne(p, s, i, organization, o).s)
  {
    var g := if o.spec.OrganizationSpec? then Gather(p, s, o.spec.bindings) else Gathered(Outcome(s, true), []);
    if o.spec.OrganizationSpec? {
      GatherKeepsFresh(p, s, o.spec.bindings);
    }
    if g.out.ok {
      RetireKeepsFresh(p, g.out.s, o);
      PutKeepsFresh(p, g.out.s, organization, g.members, o);
    }
  }

  lemma {:induction false} SettleAllKeepsFresh(p: Params, s: State, i: Instance, organization: string, items: seq<Object>)
    requires NoFaults(s.ticks) && Filed(s.w.docs)
    ensures KeepsFresh(s, SettleAll(p, s, i, organization, items).s)
    decreases |items|
  {
    if items != [] {
      SettleOneKeepsFresh(p, s, i, organization, items[0]);
      var a := SettleOne(p, s, i, organization, items[0]);
      if a.ok {
        SettleAllKeepsFresh(p, a.s, i, organization, items[1..]);
      }
    }
  }

  lemma ReconcileKindKeepsFresh(p: Params, s: State, i: Instance, kind: Kind, selector: Option<LabelSelector>, organization: string)
    requires NoFaults(s.ticks) && Filed(s.w.docs)
    ensures KeepsFresh(s, ReconcileKind(p, s, i, kind, selector, organization).s)
  {
    BeginKeepsFresh(p, s);
    var b, items := Begin(p, s), Snapshot(p, s, kind, selector);
    MarkAllKeepsFresh(p, b.s, items);
    var m := if i.deleting then Outcome(b.s, true) else MarkAll(p, b.s, items);
    SettleAllKeepsFresh(p, m.s, i, organization, items);
  }

  lemma {:induction false} ReconcileOwnedKeepsFresh(p: Params, s: State, i: Instance, orgs: seq<Object>)
    requires NoFaults(s.ticks) && Filed(s.w.docs) && forall o | o in orgs :: o.spec.OrganizationSpec?
    ensures KeepsFresh(s, ReconcileOwned(p, s, i, orgs).s)
    decreases |orgs|
  {
    if orgs != [] {
      var selector, id := orgs[0].spec.resourceSelector, orgs[0].Id();
      ReconcileKindKeepsFresh(p, s, i, FeatureKind, selector, id);
      var f := ReconcileKind(p, s, i, FeatureKind, selector, id);
      ReconcileKindKeepsFresh(p, f.s, i, ClientKind, selector, id);
      ReconcileOwnedKeepsFresh(p, ReconcileKind(p, f.s, i, ClientKind, selector, id).s, i, orgs[1..]);
    }
  }

  lemma ReconcileAllKeepsFresh(p: Params, s: State, i: Instance)
    requires NoFaults(s.ticks) && Filed(s.w.docs)
    ensures KeepsFresh(s, ReconcileAll(p, s, i).s)
  {
    var s0 := s.(catalog := []);
    ReconcileKindKeepsFresh(p, s0, i, UserKind, p.selector, "");
    var u := ReconcileKind(p, s0, i, UserKind, p.selector, "");
    ReconcileKindKeepsFresh(p, u.s, i, OrganizationKind, p.selector, "");
    var o := ReconcileKind(p, u.s, i, OrganizationKind, p.selector, "");
    SnapshotKinds(p, u.s, p.selector);
    ReconcileOwnedKeepsFresh(p, o.s, i, Snapshot(p, u.s, OrganizationKind, p.selector));
  }

  lemma KeepsFreshAside(s: State, b: State, r: State)
    requires KeepsFresh(s, b) && r.ticks == b.ticks
    requires r.w.docs == b.w.docs && r.w.payloads == b.w.payloads && r.w.clock == b.w.clock && r.w.stamps == b.w.stamps
    ensures KeepsFresh(s, r)
  {
    if Fresh(b.w) {
      FreshAside(b.w, r.w);
    }
  }

  lemma PatchInstanceKeepsFresh(p: Params, s: State, finalizers: seq<string>)
    requires NoFaults(s.ticks)
    ensures KeepsFresh(s, PatchInstance(p, s, finalizers).s)
  {
    BeginKeepsFresh(p, s);
    KeepsFreshAside(s, Begin(p, s).s, PatchInstance(p, s, finalizers).s);
  }

  lemma ReconcileKeepsFresh(p: Params, s: State)
    requires NoFaults(s.ticks) && Filed(s.w.docs)
    ensures KeepsFresh(s, Reconcile(p, s).s)
  {
    BeginKeepsFresh(p, s);
    var b := Begin(p, s);
    if b.ok && b.s.w.instance.Some? && !p.suspend {
      var i := b.s.w.instance.value;
      PatchInstanceKeepsFresh(p, b.s, With(i.finalizers, FinalizerNames.FINALIZER));
      var m := if i.deleting then b else PatchInstance(p, b.s, With(i.finalizers, FinalizerNames.FINALIZER));
      if m.ok {
        ReconcileAllKeepsFresh(p, m.s, i);
        PatchInstanceKeepsFresh(p, ReconcileAll(p, m.s, i).s, Without(i.finalizers, FinalizerNames.FINALIZER));
      }
    }
  }

  /** Every pass of the run has no fault and ends before its schedule does. */
  ghost predicate FaultFree(p: Params, w: World, rounds: seq<Round>)
    decreases |rounds|
  {
    rounds != [] ==>
      && (rounds[0].Attempt? ==> NoFaults(rounds[0].ticks) && Reconcile(p, State(w, rounds[0].ticks, [])).s.ticks != [])
      && FaultFree(p, After(p, w, rounds[0]), rounds[1..])
  }

  /** Payload cache freshness. */
  lemma {:induction false} NoStalePayloads(p: Params, w: World, rounds: seq<Round>)
    requires Fresh(w) && Filed(w.docs) && FaultFree(p, w, rounds)
    ensures Fresh(Run(p, w, rounds)) && Filed(Run(p, w, rounds).docs)
    decreases |rounds|
  {
    if rounds != [] {
      var v := After(p, w, rounds[0]);
      match rounds[0]
      case Attempt(ticks) =>
        ReconcileKeepsFresh(p, State(w, ticks, []));
        NoStalePayloads(p, v, rounds[1..]);
      case Interval(events) =>
        EventsKeepFresh(p, w, events);
        EventsKeepFiled(p, w, events);
        NoStalePayloads(p, v, rounds[1..]);
    }
  }

  /** When the clear after a write fails, the entries it should have removed stay, and repeating the same
      upsert writes nothing, so clears nothing: the cache is fresh only if there was nothing to remove. */
  lemma LostClearIsNotRetried(existing: Option<SDKConnection>, c: SDKConnection, now: Time, later: Time, key1: string, key2: string)
    ensures var r := UpsertConnection(existing, c, now, key1, key2);
            && UpsertConnection(Some(r.doc), c, later, key2, key1) == Upserted(r.doc, false)
            && forall payloads: seq<Payload> ::
                 (forall pl | pl in payloads :: !Serves(r.doc, pl)) <==> (forall pl | pl in payloads :: pl in Cleared(payloads, c.environment, c.organization))
  {
    var r := UpsertConnection(existing, c, now, key1, key2);
    forall payloads: seq<Payload>
      ensures (forall pl | pl in payloads :: !Serves(r.doc, pl)) <==> (forall pl | pl in payloads :: pl in Cleared(payloads, c.environment, c.organization))
    {
      ClearedExactly(payloads, c.environment, c.organization);
    }
  }

  /** The first upsert writes and its clear fails; the second is the retry. Nobody else acts. */
  ghost predicate ClearFails(p: Params, w: World, organization: string, o: Object, failing: seq<Tick>, retry: seq<Tick>) {
    && o.spec.ClientSpec?
    && |failing| == 2 && !failing[0].fault && failing[1].fault && retry != []
    && (forall t | t in failing + retry :: t.events == [])
    && var c := Computed(p, w.secrets, organization, [], o, Get(w.docs, o.Key()), failing[0].entropy);
       c.Some? && c.value.wrote
  }

  lemma FailedClear(p: Params, w: World, organization: string, o: Object, failing: seq<Tick>, retry: seq<Tick>)
    requires ClearFails(p, w, organization, o, failing, retry)
    ensures var c := Computed(p, w.secrets, organization, [], o, Get(w.docs, o.Key()), failing[0].entropy).value;
            Put(p, State(w, failing, []), organization, [], o) == Outcome(State(Stored(w, o.Key(), c), [], []), false)
  {
  }

  /** The retry finds the document as it wants it. */
  lemma RetryComputes(p: Params, secrets: Secrets, organization: string, o: Object, existing: Option<Doc>, e: Entropy, e': Entropy)
    requires o.spec.ClientSpec? && Computed(p, secrets, organization, [], o, existing, e).Some?
    ensures var first := Computed(p, secrets, organization, [], o, existing, e).value;
            && first.doc.ConnectionDoc?
            && first.doc.connection.environment == o.spec.environment && first.doc.connection.organization == organization
            && Computed(p, secrets, organization, [], o, Some(first.doc), e') == Some(Upserted(first.doc, false))
  {
    LostClearIsNotRetried(AsConnection(existing), ConnectionOf(secrets, o, organization).value, e.now, e'.now,
                          KeyGenerator.GenerateKey("", e.key1), KeyGenerator.GenerateKey("", e.key2));
  }

  lemma RetryPuts(p: Params, x: World, organization: string, o: Object, retry: seq<Tick>, d: Doc)
    requires retry != [] && retry[0].events == [] && !retry[0].fault && o.spec.ClientSpec? && Get(x.docs, o.Key()) == Some(d)
    requires Computed(p, x.secrets, organization, [], o, Some(d), retry[0].entropy) == Some(Upserted(d, false))
    ensures var r := Put(p, State(x, retry, []), organization, [], o); r.ok && r.s.w == x.(foreign := r.s.w.foreign)
  {
  }

  lemma StaleExactly(w: World, key: DocKey, d: Doc)
    requires d.ConnectionDoc? && forall pl | pl in w.payloads :: pl.stamp <= w.clock
    ensures FreshFor(Stored(w, key, Upserted(d, true)), key) <==> forall pl | pl in w.payloads :: !Serves(d.connection, pl)
  {
  }

  /** So a run with a fault between write and clear ends with a fresh cache exactly if nothing was cached for
      the connection: the retry succeeds, and leaves documents and payloads as they are. */
  lemma FaultBeforeClearStrandsPayloads(p: Params, w: World, organization: string, o: Object, failing: seq<Tick>, retry: seq<Tick>)
    requires ClearFails(p, w, organization, o, failing, retry) && !retry[0].fault
    requires forall pl | pl in w.payloads :: pl.stamp <= w.clock
    ensures var x := Put(p, State(w, failing, []), organization, [], o).s.w;
            var r := Put(p, State(x, retry, []), organization, [], o);
            && r.ok && r.s.w.docs == x.docs && r.s.w.payloads == w.payloads
            && (FreshFor(r.s.w, o.Key()) <==>
                forall pl | pl in w.payloads :: !(pl.environment == o.spec.environment && pl.organization == organization))
  {
    FailedClear(p, w, organization, o, failing, retry);
    assert retry[0] in failing + retry;
    var first := Computed(p, w.secrets, organization, [], o, Get(w.docs, o.Key()), failing[0].entropy).value;
    RetryComputes(p, w.secrets, organization, o, Get(w.docs, o.Key()), failing[0].entropy, retry[0].entropy);
    RetryPuts(p, Stored(w, o.Key(), first), organization, o, retry, first.doc);
    StaleExactly(w, o.Key(), first.doc);
  }

  /** And further passes do not make it good either: where the failed clear followed the last write the cluster
      needed, no number of them, complete or cut short, removes an entry, so the cache stays as stale as it was. */
  lemma StrandedPayloadsStay(p: Params, w: World, organization: string, o: Object, failing: seq<Tick>, rounds: seq<Round>)
    requires ClearFails(p, w, organization, o, failing, failing) && forall pl | pl in w.payloads :: pl.stamp <= w.clock
    requires var x := Put(p, State(w, failing, []), organization, [], o).s.w;
             && Settled(p, x) && (x.instance.Some? ==> !x.instance.value.deleting)
             && forall r | r in rounds :: QuietRound(r) && Orderly(p, x, r.ticks)
    ensures var y := Run(p, Put(p, State(w, failing, []), organization, [], o).s.w, rounds);
            && y.payloads == w.payloads
            && (FreshFor(y, o.Key()) <==>
                forall pl | pl in w.payloads :: !(pl.environment == o.spec.environment && pl.organization == organization))
  {
    FailedClear(p, w, organization, o, failing, failing);
    var first := Computed(p, w.secrets, organization, [], o, Get(w.docs, o.Key()), failing[0].entropy).value;
    RetryComputes(p, w.secrets, organization, o, Get(w.docs, o.Key()), failing[0].entropy, failing[0].entropy);
    var x := Stored(w, o.Key(), first);
    IdleRun(p, x, rounds);
    StaleExactly(w, o.Key(), first.doc);
    StaleStays(x, Run(p, x, rounds), o.Key());
  }

  lemma StaleStays(x: World, y: World, key: DocKey)
    requires Still(x, y)
    ensures FreshFor(y, key) <==> FreshFor(x, key)
  {
  }
}
