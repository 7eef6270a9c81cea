/**
 Label selectors: the full semantics a List call applies, the weaker test the watch handlers use to
 choose the instances to enqueue, and how the two relate.
 */
module Selectors {
  import opened Wrappers

  type Labels = map<string, string>

  datatype Operator = In | NotIn | Exists | DoesNotExist | Unknown

  datatype Requirement = Requirement(key: string, operator: Operator, values: seq<string>)

  datatype LabelSelector = LabelSelector(matchLabels: Labels, matchExpressions: seq<Requirement>)

  predicate WellFormed(r: Requirement) {
    match r.operator
    case In => r.values != []
    case NotIn => r.values != []
    case Exists => r.values == []
    case DoesNotExist => r.values == []
    case Unknown => false
  }

  /** LabelSelectorAsSelector returns no error. */
  predicate Convertible(selector: Option<LabelSelector>) {
    selector.Some? ==> forall r | r in selector.value.matchExpressions :: WellFormed(r)
  }

  predicate Meets(labels: Labels, r: Requirement) {
    match r.operator
    case In => r.key in labels && labels[r.key] in r.values
    case NotIn => r.key in labels ==> labels[r.key] !in r.values
    case Exists => r.key in labels
    case DoesNotExist => r.key !in labels
    case Unknown => false
  }

  predicate HasPairs(labels: Labels, pairs: Labels) {
    forall k | k in pairs :: k in labels && labels[k] == pairs[k]
  }

  /** What a List call returns: a nil selector converts to the selector that matches nothing. */
  predicate Selects(selector: Option<LabelSelector>, labels: Labels) {
    && selector.Some?
    && HasPairs(labels, selector.value.matchLabels)
    && forall r | r in selector.value.matchExpressions :: Meets(labels, r)
  }

  /** What the watch handlers test. */
  predicate Triggers(selector: Option<LabelSelector>, labels: Labels) {
    selector.Some? ==> HasPairs(labels, selector.value.matchLabels)
  }

  /** The nested loops over both maps; the keys come in any order. */
  method Matches(labels: Labels, selector: Option<LabelSelector>) returns (matched: bool)
    ensures matched <==> selector.None? || forall k | k in selector.value.matchLabels :: (k, selector.value.matchLabels[k]) in labels.Items
  {
    if selector.None? {
      return true;
    }
    var pairs := selector.value.matchLabels;
    var todo := pairs.Keys;
    while todo != {}
      invariant todo <= pairs.Keys
      invariant forall k | k in pairs && k !in todo :: (k, pairs[k]) in labels.Items
    {
      var kS :| kS in todo;
      var found := false;
      var rest := labels.Keys;
      while rest != {}
        invariant rest <= labels.Keys
        invariant found <==> exists k | k in labels && k !in rest :: k == kS && labels[k] == pairs[kS]
      {
        var kL :| kL in rest;
        if kS == kL && pairs[kS] == labels[kL] {
          found := true;
        }
        rest := rest - {kL};
      }
      if !found {
        assert (kS, pairs[kS]) !in labels.Items;
        return false;
      }
      todo := todo - {kS};
    }
    return true;
  }

  /** An instance as the watch handlers see it. */
  datatype NamedInstance = NamedInstance(namespace: string, name: string, selector: Option<LabelSelector>)

  datatype Request = Request(namespace: string, name: string)

  /** What the handler enqueues for one instance. */
  function Enqueued(i: NamedInstance, namespace: string, labels: Labels): seq<Request> {
    if i.namespace == namespace && Triggers(i.selector, labels) then [Request(i.namespace, i.name)] else []
  }

  /** The instances of the object's namespace that the handler enqueues, in list order. */
  function Requests(instances: seq<NamedInstance>, namespace: string, labels: Labels): seq<Request> {
    if instances == [] then []
    else Requests(instances[..|instances| - 1], namespace, labels) + Enqueued(instances[|instances| - 1], namespace, labels)
  }

  method RequestsForChangeBySelector(instances: seq<NamedInstance>, namespace: string, labels: Labels)
    returns (reqs: seq<Request>)
    ensures reqs == Requests(instances, namespace, labels)
  {
    reqs := [];
    for n := 0 to |instances|
      invariant reqs == Requests(instances[..n], namespace, labels)
    {
      var i := instances[n];
      assert instances[..n + 1][..n] == instances[..n];
      if i.namespace == namespace {
        var matched := Matches(labels, i.selector);
        assert matched <==> Triggers(i.selector, labels);
        if matched {
          reqs := reqs + [Request(i.namespace, i.name)];
        }
      }
    }
    assert instances[..|instances|] == instances;
  }

  /** Every instance whose pass would list a labelled object is enqueued by a change of that object, and
      exactly the instances the handler's test accepts are. */
  lemma {:induction false} TriggerCompleteness(instances: seq<NamedInstance>, namespace: string, labels: Labels)
    ensures forall i | i in instances && i.namespace == namespace && Selects(i.selector, labels) ::
              Request(namespace, i.name) in Requests(instances, namespace, labels)
    ensures forall r | r in Requests(instances, namespace, labels) ::
              exists i | i in instances :: r == Request(i.namespace, i.name) && i.namespace == namespace && Triggers(i.selector, labels)
    ensures forall i | i in instances && i.namespace == namespace && Triggers(i.selector, labels) ::
              Request(namespace, i.name) in Requests(instances, namespace, labels)
  {
    if instances != [] {
      var n := |instances| - 1;
      TriggerCompleteness(instances[..n], namespace, labels);
      assert instances == instances[..n] + [instances[n]];
    }
  }

  /** The handler's test accepts more than a List call exactly when the selector is nil or an expression fails. */
  lemma TriggerExcess(selector: Option<LabelSelector>, labels: Labels)
    ensures Selects(selector, labels) ==> Triggers(selector, labels)
    ensures Triggers(selector, labels) && !Selects(selector, labels) <==>
            || selector.None?
            || (HasPairs(labels, selector.value.matchLabels) &&
                exists r | r in selector.value.matchExpressions :: !Meets(labels, r))
  {
  }

  /** The selector of one expression, and of one pair. */
  function Expressing(r: Requirement): Option<LabelSelector> {
    Some(LabelSelector(map[], [r]))
  }

  function Pairing(key: string, value: string): Option<LabelSelector> {
    Some(LabelSelector(map[key := value], []))
  }

  /** A pair selects what has the value under the key; no pairs and no expressions select everything; a nil
      selector selects nothing. */
  lemma PairsSelectExactly(labels: Labels, key: string, value: string)
    ensures Selects(Pairing(key, value), labels) <==> (key, value) in labels.Items
    ensures Selects(Some(LabelSelector(map[], [])), labels)
    ensures !Selects(None, labels)
  {
    assert key in map[key := value];
  }

  /** In with one value selects what the pair selects, and with more values what any of them selects. */
  lemma InSelectsExactly(labels: Labels, key: string, value: string, a: seq<string>, b: seq<string>)
    ensures Selects(Expressing(Requirement(key, In, [value])), labels) <==> Selects(Pairing(key, value), labels)
    ensures Selects(Expressing(Requirement(key, In, a + b)), labels) <==>
            Selects(Expressing(Requirement(key, In, a)), labels) || Selects(Expressing(Requirement(key, In, b)), labels)
    ensures !Selects(Expressing(Requirement(key, In, [])), labels)
  {
    PairsSelectExactly(labels, key, value);
    SelectsOne(labels, Requirement(key, In, [value]));
    SelectsOne(labels, Requirement(key, In, a));
    SelectsOne(labels, Requirement(key, In, b));
    SelectsOne(labels, Requirement(key, In, a + b));
    SelectsOne(labels, Requirement(key, In, []));
  }

  lemma SelectsOne(labels: Labels, r: Requirement)
    ensures Selects(Expressing(r), labels) <==> Meets(labels, r)
  {
    assert r in [r];
  }

  /** Exists selects what has the key; NotIn and DoesNotExist select what In and Exists do not; nothing else selects. */
  lemma OperatorsSelectExactly(labels: Labels, key: string, values: seq<string>)
    ensures Selects(Expressing(Requirement(key, Exists, values)), labels) <==> key in labels
    ensures Selects(Expressing(Requirement(key, DoesNotExist, values)), labels) <==> !Selects(Expressing(Requirement(key, Exists, values)), labels)
    ensures Selects(Expressing(Requirement(key, NotIn, values)), labels) <==> !Selects(Expressing(Requirement(key, In, values)), labels)
    ensures !Selects(Expressing(Requirement(key, Unknown, values)), labels)
  {
    SelectsOne(labels, Requirement(key, Exists, values));
    SelectsOne(labels, Requirement(key, DoesNotExist, values));
    SelectsOne(labels, Requirement(key, In, values));
    SelectsOne(labels, Requirement(key, NotIn, values));
    SelectsOne(labels, Requirement(key, Unknown, values));
  }

  /** Pairs and expressions all have to hold: a selector selects what each pair and each expression alone selects. */
  lemma SelectorsIntersect(labels: Labels, pairs: Labels, expressions: seq<Requirement>)
    ensures Selects(Some(LabelSelector(pairs, expressions)), labels) <==>
            && (forall k | k in pairs :: Selects(Pairing(k, pairs[k]), labels))
            && (forall r | r in expressions :: Selects(Expressing(r), labels))
  {
    forall k | k in pairs
      ensures Selects(Pairing(k, pairs[k]), labels) <==> k in labels && labels[k] == pairs[k]
    {
      PairsSelectExactly(labels, k, pairs[k]);
    }
    forall r {
      SelectsOne(labels, r);
    }
  }

  /** A selector converts if each expression does: In and NotIn with values, Exists and DoesNotExist without. */
  lemma ConvertsExactly(pairs: Labels, expressions: seq<Requirement>, key: string, values: seq<string>)
    ensures Convertible(None) && Convertible(Some(LabelSelector(pairs, [])))
    ensures Convertible(Some(LabelSelector(pairs, expressions))) <==> forall r | r in expressions :: Convertible(Expressing(r))
    ensures Convertible(Expressing(Requirement(key, In, values))) <==> values != []
    ensures Convertible(Expressing(Requirement(key, NotIn, values))) <==> values != []
    ensures Convertible(Expressing(Requirement(key, Exists, values))) <==> values == []
    ensures Convertible(Expressing(Requirement(key, DoesNotExist, values))) <==> values == []
    ensures !Convertible(Expressing(Requirement(key, Unknown, values)))
  {
    forall r: Requirement
      ensures Convertible(Expressing(r)) <==> WellFormed(r)
    {
      assert r in [r];
    }
  }

  /** Requests come in list order: the handler treats the instances one by one. */
  lemma RequestOfOne(i: NamedInstance, namespace: string, labels: Labels)
    ensures Requests([i], namespace, labels) ==
            if i.namespace == namespace && Triggers(i.selector, labels) then [Request(namespace, i.name)] else []
  {
    assert [i][..0] == [];
  }

  lemma RequestsSnoc(a: seq<NamedInstance>, i: NamedInstance, namespace: string, labels: Labels)
    ensures Requests(a + [i], namespace, labels) == Requests(a, namespace, labels) + Requests([i], namespace, labels)
  {
    assert (a + [i])[..|a|] == a;
    assert [i][..0] == [];
  }

  lemma {:induction false} RequestsInOrder(a: seq<NamedInstance>, b: seq<NamedInstance>, namespace: string, labels: Labels)
    ensures Requests(a + b, namespace, labels) == Requests(a, namespace, labels) + Requests(b, namespace, labels)
    decreases |b|
  {
    if b == [] {
      assert a + b == a;
    } else {
      var n := |b| - 1;
      RequestsInOrder(a, b[..n], namespace, labels);
      RequestsSnoc(a + b[..n], b[n], namespace, labels);
      RequestsSnoc(b[..n], b[n], namespace, labels);
      assert b == b[..n] + [b[n]] && a + b == a + b[..n] + [b[n]];
    }
  }
}
