/**
 What failing calls do: a pass stops at the first one and reports failure, wherever it is. No error is swallowed,
 and nothing is called after one.
 */
module Faults {
  import opened Wrappers
  import opened Documents
  import opened Selectors
  import opened Resources
  import opened FeatureTranslation
  import opened Worlds
  import opened Pass
  import FinalizerNames

  /** The calls made are a first part of the schedule; none but the last one fails, and none at all if this
      reports success. */
  ghost predicate Called(ticks: seq<Tick>, rest: seq<Tick>, ok: bool) {
    var n := |ticks| - |rest|;
    && n >= 0 && rest == ticks[n..]
    && (forall i | 0 <= i < n && ticks[i].fault :: i == n - 1 && !ok)
  }

  ghost predicate Heeds(ticks: seq<Tick>, r: Outcome) {
    Called(ticks, r.s.ticks, r.ok)
  }

  lemma CalledTransitive(a: seq<Tick>, b: seq<Tick>, c: seq<Tick>, ok: bool)
    requires Called(a, b, true) && Called(b, c, ok)
    ensures Called(a, c, ok)
  {
    var n, k := |a| - |b|, |b| - |c|;
    forall i | 0 <= i < n + k && a[i].fault
      ensures i == n + k - 1 && !ok
    {
      assert i >= n;
      assert b[i - n] == a[i];
    }
  }

  lemma HeedsTransitive(ticks: seq<Tick>, m: Outcome, r: Outcome)
    requires Heeds(ticks, m) && m.ok && Heeds(m.s.ticks, r)
    ensures Heeds(ticks, r)
  {
    CalledTransitive(ticks, m.s.ticks, r.s.ticks, r.ok);
  }

  lemma BeginHeeds(p: Params, s: State)
    ensures Heeds(s.ticks, Begin(p, s))
  {
  }

  lemma PatchHeeds(p: Params, s: State, uid: nat, finalizers: seq<string>)
    ensures Heeds(s.ticks, Patch(p, s, uid, finalizers))
  {
    BeginHeeds(p, s);
    var b, r := Begin(p, s), Patch(p, s, uid, finalizers);
    assert r.s.ticks == b.s.ticks && (r.ok ==> b.ok);
  }

  lemma {:induction false} MarkAllHeeds(p: Params, s: State, items: seq<Object>)
    ensures Heeds(s.ticks, MarkAll(p, s, items))
    decreases |items|
  {
    if items != [] {
      var a := AddFinalizer(p, s, items[0]);
      if !items[0].deleting {
        PatchHeeds(p, s, items[0].uid, With(items[0].finalizers, p.finalizer));
      }
      if a.ok {
        var t := if items[0].deleting then a.s else a.s.(catalog := Catalogued(a.s.catalog, items[0]));
        MarkAllHeeds(p, t, items[1..]);
        HeedsTransitive(s.ticks, a, MarkAll(p, t, items[1..]));
      }
    }
  }

  lemma ClearCacheHeeds(p: Params, s: State, environment: string, organization: string)
    ensures Heeds(s.ticks, ClearCache(p, s, environment, organization))
  {
    BeginHeeds(p, s);
    assert ClearCache(p, s, environment, organization).s.ticks == Begin(p, s).s.ticks;
  }

  lemma PutHeeds(p: Params, s: State, organization: string, members: seq<Member>, o: Object)
    ensures Heeds(s.ticks, Put(p, s, organization, members, o))
  {
    BeginHeeds(p, s);
    var b := Begin(p, s);
    if b.ok {
      var r := Computed(p, b.s.w.secrets, organization, members, o, Get(b.s.w.docs, o.Key()), s.ticks[0].entropy);
      if r.Some? && o.spec.ClientSpec? {
        var t := b.s.(w := Stored(b.s.w, o.Key(), r.value));
        ClearCacheHeeds(p, t, o.spec.environment, organization);
        HeedsTransitive(s.ticks, Outcome(t, true), ClearCache(p, t, o.spec.environment, organization));
      }
    }
  }

  lemma RetireHeeds(p: Params, s: State, o: Object)
    ensures Heeds(s.ticks, Retire(p, s, o))
  {
    var d := Purge(p, s, o.Key());
    PatchHeeds(p, s, o.uid, Without(o.finalizers, p.finalizer));
    if d.ok {
      PatchHeeds(p, d.s, o.uid, Without(o.finalizers, p.finalizer));
      HeedsTransitive(s.ticks, d, Release(p, d.s, o));
    }
  }

  lemma {:induction false} GatherHeeds(p: Params, s: State, bindings: seq<Binding>)
    ensures Heeds(s.ticks, Gather(p, s, bindings).out)
    decreases |bindings|
  {
    var b := Begin(p, s);
    if bindings != [] && Convertible(bindings[0].selector) && b.ok {
      GatherHeeds(p, b.s, bindings[1..]);
      HeedsTransitive(s.ticks, b, Gather(p, b.s, bindings[1..]).out);
    }
  }

  lemma SettleHeeds(p: Params, s: State, i: Instance, organization: string, members: seq<Member>, o: Object)
    ensures Heeds(s.ticks, Settle(p, s, i, organization, members, o))
  {
    RetireHeeds(p, s, o);
    PutHeeds(p, s, organization, members, o);
  }

  lemma SettleOneHeeds(p: Params, s: State, i: Instance, organization: string, o: Object)
    ensures Heeds(s.ticks, SettleOne(p, s, i, organization, o))
  {
    if o.spec.OrganizationSpec? {
      var g := Gather(p, s, o.spec.bindings);
      GatherHeeds(p, s, o.spec.bindings);
      if g.out.ok {
        SettleHeeds(p, g.out.s, i, organization, g.members, o);
        HeedsTransitive(s.ticks, g.out, Settle(p, g.out.s, i, organization, g.members, o));
      }
    } else {
      SettleHeeds(p, s, i, organization, [], o);
    }
  }

  lemma {:induction false} SettleAllHeeds(p: Params, s: State, i: Instance, organization: string, items: seq<Object>)
    ensures Heeds(s.ticks, SettleAll(p, s, i, organization, items))
    decreases |items|
  {
    if items != [] {
      var a := SettleOne(p, s, i, organization, items[0]);
      SettleOneHeeds(p, s, i, organization, items[0]);
      if a.ok {
        SettleAllHeeds(p, a.s, i, organization, items[1..]);
        HeedsTransitive(s.ticks, a, SettleAll(p, a.s, i, organization, items[1..]));
      }
    }
  }

  lemma ReconcileKindHeeds(p: Params, s: State, i: Instance, kind: Kind, selector: Option<LabelSelector>, organization: string)
    ensures Heeds(s.ticks, ReconcileKind(p, s, i, kind, selector, organization))
  {
    var b, items := Begin(p, s), Snapshot(p, s, kind, selector);
    if Convertible(selector) && Convertible(p.selector) && b.ok {
      var m := if i.deleting then Outcome(b.s, true) else MarkAll(p, b.s, items);
      MarkAllHeeds(p, b.s, items);
      HeedsTransitive(s.ticks, b, m);
      if m.ok {
        SettleAllHeeds(p, m.s, i, organization, items);
        HeedsTransitive(s.ticks, m, SettleAll(p, m.s, i, organization, items));
      }
    }
  }

  lemma {:induction false} ReconcileOwnedHeeds(p: Params, s: State, i: Instance, orgs: seq<Object>)
    requires forall o | o in orgs :: o.spec.OrganizationSpec?
    ensures Heeds(s.ticks, ReconcileOwned(p, s, i, orgs))
    decreases |orgs|
  {
    if orgs != [] {
      var selector, id := orgs[0].spec.resourceSelector, orgs[0].Id();
      var f := ReconcileKind(p, s, i, FeatureKind, selector, id);
      ReconcileKindHeeds(p, s, i, FeatureKind, selector, id);
      if f.ok {
        var c := ReconcileKind(p, f.s, i, ClientKind, selector, id);
        ReconcileKindHeeds(p, f.s, i, ClientKind, selector, id);
        HeedsTransitive(s.ticks, f, c);
        if c.ok {
          ReconcileOwnedHeeds(p, c.s, i, orgs[1..]);
          HeedsTransitive(s.ticks, c, ReconcileOwned(p, c.s, i, orgs[1..]));
        }
      }
    }
  }

  lemma ReconcileAllHeeds(p: Params, s: State, i: Instance)
    ensures Heeds(s.ticks, ReconcileAll(p, s, i))
  {
    var u := ReconcileKind(p, s.(catalog := []), i, UserKind, p.selector, "");
    ReconcileKindHeeds(p, s.(catalog := []), i, UserKind, p.selector, "");
    if u.ok {
      var o := ReconcileKind(p, u.s, i, OrganizationKind, p.selector, "");
      ReconcileKindHeeds(p, u.s, i, OrganizationKind, p.selector, "");
      HeedsTransitive(s.ticks, u, o);
      if o.ok {
        SnapshotKinds(p, u.s, p.selector);
        var orgs := Snapshot(p, u.s, OrganizationKind, p.selector);
        ReconcileOwnedHeeds(p, o.s, i, orgs);
        HeedsTransitive(s.ticks, o, ReconcileOwned(p, o.s, i, orgs));
      }
    }
  }

  lemma PatchInstanceHeeds(p: Params, s: State, finalizers: seq<string>)
    ensures Heeds(s.ticks, PatchInstance(p, s, finalizers))
  {
  }

  /** What comes between the two patches of the instance, and the second of them. */
  lemma ClosingHeeds(p: Params, s: State, i: Instance)
    ensures var r := ReconcileAll(p, s, i);
            Heeds(s.ticks, if !r.ok || !i.deleting then r else PatchInstance(p, r.s, Without(i.finalizers, FinalizerNames.FINALIZER)))
  {
    var r := ReconcileAll(p, s, i);
    ReconcileAllHeeds(p, s, i);
    if r.ok && i.deleting {
      PatchInstanceHeeds(p, r.s, Without(i.finalizers, FinalizerNames.FINALIZER));
      HeedsTransitive(s.ticks, r, PatchInstance(p, r.s, Without(i.finalizers, FinalizerNames.FINALIZER)));
    }
  }

  lemma ReconcileHeeds(p: Params, s: State)
    ensures Heeds(s.ticks, Reconcile(p, s))
  {
    var b := Begin(p, s);
    if b.ok && b.s.w.instance.Some? && !p.suspend {
      var i := b.s.w.instance.value;
      var m := if i.deleting then b else PatchInstance(p, b.s, With(i.finalizers, FinalizerNames.FINALIZER));
      if !i.deleting {
        PatchInstanceHeeds(p, b.s, With(i.finalizers, FinalizerNames.FINALIZER));
        HeedsTransitive(s.ticks, b, m);
      }
      if m.ok {
        ClosingHeeds(p, m.s, i);
        HeedsTransitive(s.ticks, m, Reconcile(p, s));
      }
    }
  }

  /** On every schedule, whatever others do, a pass ends with the first call that fails and then reports failure; one
      that reports success made no call that failed. */
  lemma FirstFaultEndsThePass(p: Params, s: State)
    ensures var r := Reconcile(p, s);
            var n := |s.ticks| - |r.s.ticks|;
            && n >= 0 && r.s.ticks == s.ticks[n..]
            && (forall i | 0 <= i < n && s.ticks[i].fault :: i == n - 1 && !r.ok)
  {
    ReconcileHeeds(p, s);
  }
}
