/**
 * The scope chain as a value: scopes[0] is the innermost environment's map, and each
 * following map belongs to the next enclosing environment, out to the global scope.
 */
module EnvChain {
  import opened Wrappers

  type Scopes<V> = seq<map<string, V>>

  /** The index of the nearest scope that binds name, if any does. */
  function Holder<V>(scopes: Scopes<V>, name: string): (h: Option<nat>)
    ensures h.Some? ==> h.value < |scopes| && name in scopes[h.value]
                        && forall j :: 0 <= j < h.value ==> name !in scopes[j]
    ensures h.None? ==> forall j :: 0 <= j < |scopes| ==> name !in scopes[j]
  {
    if scopes == [] then None
    else if name in scopes[0] then Some(0)
    else
      match Holder(scopes[1..], name)
      case None => None
      case Some(i) => Some(i + 1)
  }

  /** `get`: this scope's binding, otherwise the parent's answer, otherwise nothing. */
  function Lookup<V>(scopes: Scopes<V>, name: string): Option<V> {
    if scopes == [] then None
    else if name in scopes[0] then Some(scopes[0][name])
    else Lookup(scopes[1..], name)
  }

  /** `assign`: overwrite in this scope if bound here, otherwise ask the parent; None if nobody binds it. */
  function Assigned<V>(scopes: Scopes<V>, name: string, v: V): (r: Option<Scopes<V>>)
    ensures r.Some? ==> |r.value| == |scopes|
  {
    if scopes == [] then None
    else if name in scopes[0] then Some([scopes[0][name := v]] + scopes[1..])
    else
      match Assigned(scopes[1..], name, v)
      case None => None
      case Some(rest) => Some([scopes[0]] + rest)
  }

  /** `define`: bind in the innermost scope only, replacing any binding there. */
  function Defined<V>(scopes: Scopes<V>, name: string, v: V): (r: Scopes<V>)
    requires |scopes| > 0
    ensures |r| == |scopes| && r[0] == scopes[0][name := v] && r[1..] == scopes[1..]
  {
    scopes[0 := scopes[0][name := v]]
  }

  /** Lookup answers from the nearest scope that binds the name, and fails when none does. */
  lemma {:induction false} LookupIsNearest<V>(scopes: Scopes<V>, name: string)
    ensures Lookup(scopes, name) ==
            match Holder(scopes, name)
            case None => None
            case Some(i) => Some(scopes[i][name])
  {
    if scopes != [] && name !in scopes[0] {
      LookupIsNearest(scopes[1..], name);
    }
  }

  /** Lookup fails exactly when no scope of the chain binds the name. */
  lemma LookupFailsWhenUnbound<V>(scopes: Scopes<V>, name: string)
    ensures Lookup(scopes, name).None? <==> forall j :: 0 <= j < |scopes| ==> name !in scopes[j]
  {
    LookupIsNearest(scopes, name);
  }

  /**
   * Assignment changes the nearest scope that binds the name, in that one entry, and no
   * other scope; when no scope binds it, it fails.
   */
  lemma {:induction false} AssignedTouchesOnlyHolder<V>(scopes: Scopes<V>, name: string, v: V)
    ensures Assigned(scopes, name, v).None? <==> Holder(scopes, name).None?
    ensures Assigned(scopes, name, v).Some? ==>
              var c, i := Assigned(scopes, name, v).value, Holder(scopes, name).value;
              |c| == |scopes| && c[i] == scopes[i][name := v]
              && forall j :: 0 <= j < |scopes| && j != i ==> c[j] == scopes[j]
  {
    if scopes != [] && name !in scopes[0] {
      AssignedTouchesOnlyHolder(scopes[1..], name, v);
      var r := Assigned(scopes[1..], name, v);
      if r.Some? {
        var c := [scopes[0]] + r.value;
        forall j | 0 < j < |scopes|
          ensures c[j] == r.value[j - 1] && scopes[j] == scopes[1..][j - 1]
        {
        }
      }
    }
  }

  /** Assignment never adds or removes a binding anywhere in the chain. */
  lemma AssignedCreatesNothing<V>(scopes: Scopes<V>, name: string, v: V, j: nat, other: string)
    requires Assigned(scopes, name, v).Some? && j < |scopes|
    ensures other in Assigned(scopes, name, v).value[j] <==> other in scopes[j]
  {
    AssignedTouchesOnlyHolder(scopes, name, v);
  }

  /** After an assignment, looking the name up gives the assigned value; other names are unaffected. */
  lemma GetAfterAssign<V>(scopes: Scopes<V>, name: string, v: V, other: string)
    requires Assigned(scopes, name, v).Some?
    ensures Lookup(Assigned(scopes, name, v).value, name) == Some(v)
    ensures other != name ==> Lookup(Assigned(scopes, name, v).value, other) == Lookup(scopes, other)
  {
    var c := Assigned(scopes, name, v).value;
    AssignedTouchesOnlyHolder(scopes, name, v);
    var i := Holder(scopes, name).value;
    LookupIsNearest(c, name);
    LookupIsNearest(c, other);
    LookupIsNearest(scopes, other);
    assert forall j :: 0 <= j < |c| ==> (other in c[j] <==> other in scopes[j]);
    HolderRespectsDomains(c, scopes, other);
    if other != name {
      var h := Holder(scopes, other);
      if h.Some? {
        assert c[h.value][other] == scopes[h.value][other];
      }
    }
    HolderRespectsDomains(c, scopes, name);
  }

  /** Two chains whose scopes bind the same names have the same holders. */
  lemma {:induction false} HolderRespectsDomains<V>(a: Scopes<V>, b: Scopes<V>, name: string)
    requires |a| == |b| && forall j :: 0 <= j < |a| ==> (name in a[j] <==> name in b[j])
    ensures Holder(a, name) == Holder(b, name)
  {
    if a != [] && name !in a[0] {
      HolderRespectsDomains(a[1..], b[1..], name);
    }
  }

  /**
   * After `define` in the innermost scope, the name resolves there to the new value,
   * every enclosing scope is untouched (so a parent still answers with its own binding),
   * and other names resolve as before.
   */
  lemma DefineShadows<V>(scopes: Scopes<V>, name: string, v: V, other: string)
    requires |scopes| > 0
    ensures Lookup(Defined(scopes, name, v), name) == Some(v)
    ensures Defined(scopes, name, v)[1..] == scopes[1..]
    ensures other != name ==> Lookup(Defined(scopes, name, v), other) == Lookup(scopes, other)
  {
    var d := Defined(scopes, name, v);
    assert d[1..] == scopes[1..];
  }
}
