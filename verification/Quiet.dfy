/**
 Passes during which nobody else acts: they may still crash at any call. What one loop over a listing
 does to objects and documents, completed or cut short.
 */
module Quiet {
  import opened Wrappers
  import opened Documents
  import opened Selectors
  import opened Resources
  import opened FeatureTranslation
  import opened Worlds
  import opened Pass
  import opened NoOrphans
  import opened NoStrands
  import opened Effects

  predicate QuietTicks(ticks: seq<Tick>) {
    forall t | t in ticks :: t.events == []
  }

  predicate QuietRound(r: Round) {
    r.Attempt? && QuietTicks(r.ticks)
  }

  /** The same object but for this instance's finalizer; the others are there in the same order. */
  predicate Same(p: Params, o: Object, o': Object) {
    o' == o.(finalizers := o'.finalizers) && Without(o.finalizers, p.finalizer) == Without(o'.finalizers, p.finalizer)
  }

  /** Nothing but this instance's finalizer keeps the object. */
  predicate Dangling(p: Params, o: Object) {
    o.deleting && Without(o.finalizers, p.finalizer) == []
  }

  /** Every object is there with all other finalizers, unless nothing else keeps it. */
  ghost predicate Isolates(p: Params, w: World, w': World) {
    && w'.nextUid == w.nextUid && w'.arrangement == w.arrangement
    && w'.secrets == w.secrets
    && (forall u | u in w'.objects :: u in w.objects && Same(p, w.objects[u], w'.objects[u]))
    && (forall u | u in w.objects && u !in w'.objects :: Dangling(p, w.objects[u]))
  }

  ghost predicate Untouched(w: World, w': World, except: set<nat>) {
    forall u | u in w.objects && u !in except :: u in w'.objects && w'.objects[u] == w.objects[u]
  }

  /** The objects as listed, but for this instance's finalizer, or gone. */
  ghost predicate Current(p: Params, w: World, items: seq<Object>) {
    forall o | o in items && o.uid in w.objects :: Same(p, o, w.objects[o.uid])
  }

  lemma IsolatesTransitive(p: Params, w: World, w': World, w'': World)
    requires Isolates(p, w, w') && Isolates(p, w', w'')
    ensures Isolates(p, w, w'')
  {
  }

  lemma CurrentLater(p: Params, w: World, w': World, items: seq<Object>)
    requires Current(p, w, items) && Isolates(p, w, w')
    ensures Current(p, w', items)
  {
  }

  lemma BeginIsQuiet(p: Params, s: State)
    requires QuietTicks(s.ticks)
    ensures Begin(p, s).s.w == s.w && QuietTicks(Begin(p, s).s.ticks) && Begin(p, s).s.catalog == s.catalog
  {
  }

  lemma {:induction false} WithoutAppend(a: seq<string>, b: seq<string>, f: string)
    ensures Without(a + b, f) == Without(a, f) + Without(b, f)
  {
    if a == [] {
      assert a + b == b;
    } else {
      assert (a + b)[1..] == a[1..] + b;
      WithoutAppend(a[1..], b, f);
    }
  }

  lemma {:induction false} WithoutTwice(a: seq<string>, f: string)
    ensures Without(Without(a, f), f) == Without(a, f)
  {
    WithoutMembers(a, f);
    WithoutMembers(Without(a, f), f);
  }

  lemma WithoutWith(a: seq<string>, f: string)
    ensures Without(With(a, f), f) == Without(a, f)
  {
    WithoutAppend(a, [f], f);
    assert Without([f], f) == [];
  }

  lemma PatchedIsolates(p: Params, w: World, uid: nat, finalizers: seq<string>)
    requires uid in w.objects && Without(finalizers, p.finalizer) == Without(w.objects[uid].finalizers, p.finalizer)
    ensures var w' := w.(objects := Patched(w.objects, uid, finalizers));
            && Isolates(p, w, w') && Untouched(w, w', {uid})
            && (finalizers != [] ==> w'.objects.Keys == w.objects.Keys)
  {
  }

  /** Both lists the pass computes keep the others in order. */
  lemma PatchKeepsOthers(p: Params, o: Object, o': Object, finalizers: seq<string>)
    requires Same(p, o, o')
    requires finalizers == With(o.finalizers, p.finalizer) || finalizers == Without(o.finalizers, p.finalizer)
    ensures Without(finalizers, p.finalizer) == Without(o'.finalizers, p.finalizer)
  {
    WithoutTwice(o.finalizers, p.finalizer);
    WithoutWith(o.finalizers, p.finalizer);
  }

  lemma PatchIsQuiet(p: Params, s: State, o: Object, finalizers: seq<string>)
    requires QuietTicks(s.ticks) && Current(p, s.w, [o])
    requires finalizers == With(o.finalizers, p.finalizer) || finalizers == Without(o.finalizers, p.finalizer)
    ensures var r := Patch(p, s, o.uid, finalizers).s;
            && QuietTicks(r.ticks) && r.catalog == s.catalog
            && r.w == s.w.(objects := r.w.objects)
            && Isolates(p, s.w, r.w) && Untouched(s.w, r.w, {o.uid})
            && (p.finalizer in finalizers ==> r.w.objects.Keys == s.w.objects.Keys)
  {
    BeginIsQuiet(p, s);
    assert o in [o];
    if Patch(p, s, o.uid, finalizers).ok {
      PatchKeepsOthers(p, o, s.w.objects[o.uid], finalizers);
      PatchedIsolates(p, s.w, o.uid, finalizers);
    }
  }

  /** The first loop changes nothing but this instance's finalizer on listed objects. */
  lemma {:induction false} MarkAllIsQuiet(p: Params, s: State, items: seq<Object>)
    requires QuietTicks(s.ticks) && Current(p, s.w, items)
    ensures var r := MarkAll(p, s, items).s;
            && QuietTicks(r.ticks)
            && r.w == s.w.(objects := r.w.objects)
            && Isolates(p, s.w, r.w) && Untouched(s.w, r.w, Uids(items))
            && r.w.objects.Keys == s.w.objects.Keys
    decreases |items|
  {
    if items != [] {
      var o := items[0];
      var a := AddFinalizer(p, s, o);
      assert Uids(items) == {o.uid} + Uids(items[1..]);
      if !o.deleting {
        assert Current(p, s.w, [o]) by {
          assert o in items;
        }
        PatchIsQuiet(p, s, o, With(o.finalizers, p.finalizer));
      }
      if a.ok {
        var s' := if o.deleting then a.s else a.s.(catalog := Catalogued(a.s.catalog, o));
        CurrentLater(p, s.w, s'.w, items);
        assert Current(p, s'.w, items[1..]);
        MarkAllIsQuiet(p, s', items[1..]);
        IsolatesTransitive(p, s.w, s'.w, MarkAll(p, s, items).s.w);
      }
    }
  }

  lemma {:induction false} GatherIsQuiet(p: Params, s: State, bindings: seq<Binding>)
    requires QuietTicks(s.ticks)
    ensures var g := Gather(p, s, bindings);
            && QuietTicks(g.out.s.ticks) && g.out.s.w == s.w && g.out.s.catalog == s.catalog
            && (g.out.ok ==> g.members == Assigned(s.w.objects, Order(s.w), bindings))
    decreases |bindings|
  {
    if bindings != [] {
      BeginIsQuiet(p, s);
      GatherIsQuiet(p, Begin(p, s).s, bindings[1..]);
    }
  }

  lemma PutIsQuiet(p: Params, s: State, organization: string, members: seq<Member>, o: Object)
    requires QuietTicks(s.ticks)
    ensures var r := Put(p, s, organization, members, o);
            && QuietTicks(r.s.ticks) && r.s.catalog == s.catalog
            && r.s.w.objects == s.w.objects && r.s.w.nextUid == s.w.nextUid && r.s.w.arrangement == s.w.arrangement && r.s.w.secrets == s.w.secrets && r.s.w.instance == s.w.instance
            && (forall k | k != o.Key() :: Get(r.s.w.docs, k) == Get(s.w.docs, k))
            && (r.ok || r.s.w.docs != s.w.docs ==>
                  && Mergeable(s.w.secrets, o)
                  && Look(r.s.w.docs, o.Key()) == Merge(p, s.w.secrets, organization, members, o, Look(s.w.docs, o.Key())))
  {
    BeginIsQuiet(p, s);
    var b := Begin(p, s);
    if b.ok {
      var e := s.ticks[0].entropy;
      ComputedErases(p, s.w.secrets, organization, members, o, Get(s.w.docs, o.Key()), e);
      var c := Computed(p, s.w.secrets, organization, members, o, Get(s.w.docs, o.Key()), e);
      if c.Some? {
        BeginIsQuiet(p, b.s.(w := Stored(b.s.w, o.Key(), c.value)));
      }
    }
  }

  lemma RetireIsQuiet(p: Params, s: State, o: Object)
    requires QuietTicks(s.ticks) && Current(p, s.w, [o])
    ensures var r := Retire(p, s, o);
            && QuietTicks(r.s.ticks) && r.s.catalog == s.catalog && r.s.w.instance == s.w.instance
            && Isolates(p, s.w, r.s.w) && Untouched(s.w, r.s.w, {o.uid})
            && r.s.w.docs == (if p.prune && (r.ok || r.s.w.docs != s.w.docs) then s.w.docs - {o.Key()} else s.w.docs)
            && (o.uid in s.w.objects && o.uid !in r.s.w.objects ==> r.ok)
  {
    BeginIsQuiet(p, s);
    var d := if p.prune then Purge(p, s, o.Key()) else Outcome(s, true);
    if d.ok {
      PatchIsQuiet(p, d.s, o, Without(o.finalizers, p.finalizer));
    }
  }

  /** What settling the items, or some of them, did. */
  ghost predicate DocsSettled(p: Params, w: World, w': World, i: Instance, organization: string, items: seq<Object>, ok: bool) {
    && (forall k | forall o | o in items :: o.Key() != k :: Get(w'.docs, k) == Get(w.docs, k))
    && (forall o {:trigger DocSettled(p, w, w', i, organization, o, ok)} | o in items :: DocSettled(p, w, w', i, organization, o, ok))
  }

  ghost predicate DocSettled(p: Params, w: World, w': World, i: Instance, organization: string, o: Object, ok: bool) {
    var before, after := Look(w.docs, o.Key()), Look(w'.docs, o.Key());
    var effect := Effect(p, w.secrets, i, organization, MembersFor(w.objects, Order(w), o), o, before);
    && (after == before || after == effect)
    && (ok || (o.uid in w.objects && o.uid !in w'.objects) ==> after == effect)
    && (ok && !Retiring(i, o) ==> Mergeable(w.secrets, o))
    && (o.uid in w.objects && o.uid !in w'.objects ==> Retiring(i, o))
    && (Retiring(i, o) && !p.prune ==> Get(w'.docs, o.Key()) == Get(w.docs, o.Key()))
  }

  /** What settling one object leaves. */
  ghost predicate OneSettled(p: Params, s: State, r: Outcome, i: Instance, organization: string, o: Object) {
    && QuietTicks(r.s.ticks) && r.s.catalog == s.catalog && r.s.w.instance == s.w.instance
    && Isolates(p, s.w, r.s.w) && Untouched(s.w, r.s.w, {o.uid})
    && (forall k | k != o.Key() :: Get(r.s.w.docs, k) == Get(s.w.docs, k))
    && DocSettled(p, s.w, r.s.w, i, organization, o, r.ok)
  }

  lemma RetireSettles(p: Params, s: State, i: Instance, organization: string, o: Object)
    requires QuietTicks(s.ticks) && Current(p, s.w, [o]) && Retiring(i, o)
    ensures OneSettled(p, s, Retire(p, s, o), i, organization, o)
  {
    RetireIsQuiet(p, s, o);
  }

  lemma PutSettles(p: Params, s: State, i: Instance, organization: string, o: Object)
    requires QuietTicks(s.ticks) && !Retiring(i, o)
    ensures OneSettled(p, s, Put(p, s, organization, MembersFor(s.w.objects, Order(s.w), o), o), i, organization, o)
  {
    PutIsQuiet(p, s, organization, MembersFor(s.w.objects, Order(s.w), o), o);
  }

  lemma StoppingSettles(p: Params, s: State, r: State, i: Instance, organization: string, o: Object)
    requires QuietTicks(r.ticks) && r.catalog == s.catalog && r.w == s.w
    ensures OneSettled(p, s, Outcome(r, false), i, organization, o)
  {
  }

  lemma SettleOneIsQuiet(p: Params, s: State, i: Instance, organization: string, o: Object)
    requires QuietTicks(s.ticks) && Current(p, s.w, [o])
    ensures OneSettled(p, s, SettleOne(p, s, i, organization, o), i, organization, o)
  {
    var g := if o.spec.OrganizationSpec? then Gather(p, s, o.spec.bindings) else Gathered(Outcome(s, true), []);
    if o.spec.OrganizationSpec? {
      GatherIsQuiet(p, s, o.spec.bindings);
    }
    if !g.out.ok || (o.spec.FeatureSpec? && !Translates(o.spec.environments)) {
      StoppingSettles(p, s, g.out.s, i, organization, o);
    } else if Retiring(i, o) {
      RetireSettles(p, g.out.s, i, organization, o);
    } else {
      PutSettles(p, g.out.s, i, organization, o);
    }
  }

  /** The same users with the same labels, as far as memberships can tell. */
  ghost predicate SameUsers(a: map<nat, Object>, b: map<nat, Object>) {
    forall u :: (u in a && a[u].Kind() == UserKind <==> u in b && b[u].Kind() == UserKind) &&
                (u in a && a[u].Kind() == UserKind && u in b ==> a[u].Id() == b[u].Id() && a[u].labels == b[u].labels)
  }

  lemma {:induction false} MembersAppend(a: seq<Object>, b: seq<Object>, role: string)
    ensures MembersOf(a + b, role) == MembersOf(a, role) + MembersOf(b, role)
  {
    if a == [] {
      assert a + b == b;
    } else {
      assert (a + b)[1..] == a[1..] + b;
      MembersAppend(a[1..], b, role);
    }
  }

  /** The membership one object brings. */
  function Membership(objects: map<nat, Object>, u: nat, binding: Binding): seq<Member> {
    if u in objects && Picked(objects[u], UserKind, binding.selector) then [Member(objects[u].Id(), binding.role)] else []
  }

  lemma MembersCons(objects: map<nat, Object>, order: seq<nat>, binding: Binding)
    requires order != []
    ensures MembersOf(List(objects, order, UserKind, binding.selector), binding.role) ==
            Membership(objects, order[0], binding) + MembersOf(List(objects, order[1..], UserKind, binding.selector), binding.role)
  {
    var u := order[0];
    var x := if u in objects && Picked(objects[u], UserKind, binding.selector) then [objects[u]] else [];
    MembersAppend(x, List(objects, order[1..], UserKind, binding.selector), binding.role);
    assert x != [] ==> x[1..] == [];
  }

  lemma {:induction false} ListedMembersSame(a: map<nat, Object>, b: map<nat, Object>, order: seq<nat>, binding: Binding)
    requires SameUsers(a, b)
    ensures MembersOf(List(a, order, UserKind, binding.selector), binding.role) == MembersOf(List(b, order, UserKind, binding.selector), binding.role)
  {
    if order != [] {
      ListedMembersSame(a, b, order[1..], binding);
      MembersCons(a, order, binding);
      MembersCons(b, order, binding);
      assert Membership(a, order[0], binding) == Membership(b, order[0], binding);
    }
  }

  lemma {:induction false} AssignedSame(a: map<nat, Object>, b: map<nat, Object>, order: seq<nat>, bindings: seq<Binding>)
    requires SameUsers(a, b)
    ensures Assigned(a, order, bindings) == Assigned(b, order, bindings)
    decreases |bindings|
  {
    if bindings != [] {
      ListedMembersSame(a, b, order, bindings[0]);
      AssignedSame(a, b, order, bindings[1..]);
    }
  }

  /** A listing that can be settled: of one kind, with distinct uids and keys, and current. */
  ghost predicate Settleable(p: Params, w: World, items: seq<Object>, kind: Kind) {
    && Apart(items)
    && Current(p, w, items)
    && (forall o | o in items :: o.Kind() == kind)
    && (forall a, b | a in items && b in items && a.Key() == b.Key() :: a == b)
  }

  lemma MembersSame(p: Params, w: World, w': World, o: Object)
    requires SameUsers(w.objects, w'.objects) && Order(w') == Order(w)
    ensures MembersFor(w'.objects, Order(w'), o) == MembersFor(w.objects, Order(w), o)
  {
    if o.spec.OrganizationSpec? {
      AssignedSame(w.objects, w'.objects, Order(w), o.spec.bindings);
    }
  }

  /** Settling an object of another kind than user leaves the users as they are. */
  lemma UsersUntouched(p: Params, w: World, w': World, o: Object)
    requires Isolates(p, w, w') && Untouched(w, w', {o.uid}) && Current(p, w, [o]) && o.Kind() != UserKind
    ensures SameUsers(w.objects, w'.objects)
  {
  }

  lemma DocSettledLater(p: Params, w: World, a: World, r: World, i: Instance, organization: string, o: Object, x: Object, ok: bool)
    requires Isolates(p, w, a) && Untouched(w, a, {x.uid}) && Current(p, w, [x])
    requires o.Kind() == x.Kind() && o.uid != x.uid
    requires Get(a.docs, o.Key()) == Get(w.docs, o.Key())
    requires DocSettled(p, a, r, i, organization, o, ok)
    ensures DocSettled(p, w, r, i, organization, o, ok)
  {
    if x.Kind() != UserKind {
      UsersUntouched(p, w, a, x);
      MembersSame(p, w, a, o);
    }
  }

  lemma NothingSettled(p: Params, w: World, i: Instance, organization: string, items: seq<Object>)
    ensures DocsSettled(p, w, w, i, organization, items, false)
  {
  }

  /** Settling the head and then the rest settles them all. */
  lemma SettlingComposes(p: Params, w: World, a: World, r: World, i: Instance, organization: string, x: Object, rest: seq<Object>, head: bool, ok: bool)
    requires Current(p, w, [x]) && Isolates(p, w, a) && Untouched(w, a, {x.uid})
    requires (forall k | k != x.Key() :: Get(a.docs, k) == Get(w.docs, k)) && DocSettled(p, w, a, i, organization, x, head)
    requires ok ==> head
    requires Untouched(a, r, Uids(rest)) && Isolates(p, a, r) && DocsSettled(p, a, r, i, organization, rest, ok)
    requires forall o | o in rest :: o.uid != x.uid && o.Key() != x.Key() && o.Kind() == x.Kind()
    ensures DocsSettled(p, w, r, i, organization, [x] + rest, ok)
    ensures Untouched(w, r, {x.uid} + Uids(rest))
  {
    assert Get(r.docs, x.Key()) == Get(a.docs, x.Key());
    assert x.uid !in Uids(rest);
    forall o | o in rest
      ensures DocSettled(p, w, r, i, organization, o, ok)
    {
      DocSettledLater(p, w, a, r, i, organization, o, x, ok);
    }
    assert forall o :: o in [x] + rest <==> o == x || o in rest;
    assert DocSettled(p, w, r, i, organization, x, ok);
  }

  lemma {:induction false} SettleAllIsQuiet(p: Params, s: State, i: Instance, organization: string, items: seq<Object>, kind: Kind)
    requires QuietTicks(s.ticks) && Settleable(p, s.w, items, kind)
    ensures var r := SettleAll(p, s, i, organization, items);
            && QuietTicks(r.s.ticks) && r.s.catalog == s.catalog && r.s.w.instance == s.w.instance
            && Isolates(p, s.w, r.s.w) && Untouched(s.w, r.s.w, Uids(items))
            && DocsSettled(p, s.w, r.s.w, i, organization, items, r.ok)
    decreases |items|
  {
    if items != [] {
      var x, rest := items[0], items[1..];
      HeadAndRest(p, s.w, items, kind);
      SettleOneIsQuiet(p, s, i, organization, x);
      var a := SettleOne(p, s, i, organization, x);
      var r := if a.ok then SettleAll(p, a.s, i, organization, rest) else a;
      if a.ok {
        SettleableLater(p, s.w, a.s.w, rest, kind);
        SettleAllIsQuiet(p, a.s, i, organization, rest, kind);
        IsolatesTransitive(p, s.w, a.s.w, r.s.w);
      } else {
        NothingSettled(p, a.s.w, i, organization, rest);
      }
      SettlingComposes(p, s.w, a.s.w, r.s.w, i, organization, x, rest, a.ok, r.ok);
    }
  }

  lemma HeadAndRest(p: Params, w: World, items: seq<Object>, kind: Kind)
    requires Settleable(p, w, items, kind) && items != []
    ensures var x, rest := items[0], items[1..];
            && items == [x] + rest && Uids(items) == {x.uid} + Uids(rest)
            && Current(p, w, [x]) && Settleable(p, w, rest, kind)
            && forall o | o in rest :: o.uid != x.uid && o.Key() != x.Key() && o.Kind() == x.Kind()
  {
  }

  lemma SettleableLater(p: Params, w: World, w': World, items: seq<Object>, kind: Kind)
    requires Settleable(p, w, items, kind) && Isolates(p, w, w')
    ensures Settleable(p, w', items, kind)
  {
  }

  lemma SnapshotIsSettleable(p: Params, w: World, kind: Kind, selector: Option<LabelSelector>)
    requires WF(w)
    ensures Settleable(p, w, List(w.objects, Order(w), kind, selector), kind)
  {
    ListDistinct(w, kind, selector);
  }

  lemma MarksSettleNothing(p: Params, w: World, m: World, r: World, i: Instance, organization: string, items: seq<Object>, ok: bool)
    requires m == w.(objects := m.objects) && Isolates(p, w, m) && m.objects.Keys == w.objects.Keys
    requires DocsSettled(p, m, r, i, organization, items, ok)
    ensures DocsSettled(p, w, r, i, organization, items, ok)
  {
    assert SameUsers(w.objects, m.objects);
    forall o | o in items
      ensures DocSettled(p, w, r, i, organization, o, ok)
    {
      MembersSame(p, w, m, o);
      assert DocSettled(p, m, r, i, organization, o, ok);
    }
  }

  /** What dealing with a listing did. */
  ghost predicate Processed(p: Params, w: World, r: Outcome, i: Instance, organization: string, items: seq<Object>) {
    && QuietTicks(r.s.ticks) && r.s.w.instance == w.instance
    && WF(r.s.w) && Isolates(p, w, r.s.w) && Untouched(w, r.s.w, Uids(items))
    && DocsSettled(p, w, r.s.w, i, organization, items, r.ok)
    && (r.ok ==> forall o | o in items && Retiring(i, o) :: Released(p, r.s.w, o))
  }

  lemma ProcessIsQuiet(p: Params, s: State, i: Instance, organization: string, items: seq<Object>, kind: Kind)
    requires QuietTicks(s.ticks) && WF(s.w) && Settleable(p, s.w, items, kind)
    requires forall o | o in items :: o.uid < s.w.nextUid
    ensures Processed(p, s.w, Process(p, s, i, organization, items), i, organization, items)
  {
    var m := if i.deleting then Outcome(s, true) else MarkAll(p, s, items);
    MarkAllIsQuiet(p, s, items);
    MarkAllMoves(p, s, items);
    if m.ok {
      CurrentLater(p, s.w, m.s.w, items);
      SettleAllIsQuiet(p, m.s, i, organization, items, kind);
      SettleAllMoves(p, m.s, i, organization, items);
      var r := SettleAll(p, m.s, i, organization, items);
      IsolatesTransitive(p, s.w, m.s.w, r.s.w);
      MarksSettleNothing(p, s.w, m.s.w, r.s.w, i, organization, items, r.ok);
    } else {
      NothingSettled(p, m.s.w, i, organization, items);
      MarksSettleNothing(p, s.w, m.s.w, m.s.w, i, organization, items, false);
    }
  }

  /** What reconciling one kind does, completed or cut short, in terms of the world it starts from. */
  lemma ReconcileKindIsQuiet(p: Params, s: State, i: Instance, kind: Kind, selector: Option<LabelSelector>, organization: string)
    requires QuietTicks(s.ticks) && WF(s.w)
    ensures Processed(p, s.w, ReconcileKind(p, s, i, kind, selector, organization), i, organization, List(s.w.objects, Order(s.w), kind, selector))
  {
    BeginIsQuiet(p, s);
    var items := List(s.w.objects, Order(s.w), kind, selector);
    SnapshotIsSettleable(p, s.w, kind, selector);
    ListDistinct(s.w, kind, selector);
    if Begin(p, s).ok && Convertible(selector) && Convertible(p.selector) {
      ProcessIsQuiet(p, Begin(p, s).s, i, organization, items, kind);
    } else {
      NothingSettled(p, s.w, i, organization, items);
    }
  }
}
