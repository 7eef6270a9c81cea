/** The finalizer each instance puts on the objects it manages. */
module FinalizerNames {
  const FINALIZER := "finalizers.doodle.com"

  function FinalizerName(name: string, namespace: string): string {
    FINALIZER + "/" + name + "." + namespace
  }

  lemma LastDot(a: string, b: string, c: string, d: string)
    requires a + "." + b == c + "." + d && '.' !in b && '.' !in d
    ensures b == d && a == c
  {
    var s := a + "." + b;
    assert s[|a|] == '.' && s[|c|] == '.';
    assert forall i | |a| < i < |s| :: s[i] == b[i - |a| - 1];
    assert forall i | |c| < i < |s| :: s[i] == d[i - |c| - 1];
    assert |a| == |c|;
    assert a == s[..|a|] && c == s[..|a|];
    assert b == s[|a| + 1..] && d == s[|a| + 1..];
  }

  /** Namespaces hold no dot, so two instances share a finalizer only if they are the same. */
  lemma FinalizersAreInjective(name: string, namespace: string, name': string, namespace': string)
    requires '.' !in namespace && '.' !in namespace'
    requires FinalizerName(name, namespace) == FinalizerName(name', namespace')
    ensures name == name' && namespace == namespace'
  {
    var p := FINALIZER + "/";
    assert FinalizerName(name, namespace)[|p|..] == name + "." + namespace;
    assert FinalizerName(name', namespace')[|p|..] == name' + "." + namespace';
    LastDot(name, namespace, name', namespace');
  }

  /** With dots allowed in a namespace two instances would share one. */
  lemma DotsCollide(a: string, b: string, c: string)
    ensures FinalizerName(a + "." + b, c) == FinalizerName(a, b + "." + c)
  {
  }

  /** Every instance's finalizer is the domain, a slash, its name, a dot and its namespace; so is one of an example. */
  lemma FinalizerShape(name: string, namespace: string)
    ensures "finalizers.doodle.com/" <= FinalizerName(name, namespace)
    ensures FinalizerName(name, namespace)[22..] == name + "." + namespace
    ensures FinalizerName("my-instance", "growthbook") == "finalizers.doodle.com/my-instance.growthbook"
  {
    assert FinalizerName(name, namespace) == "finalizers.doodle.com/" + (name + "." + namespace);
  }
}
