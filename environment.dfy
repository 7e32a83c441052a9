/**
 * An environment: a mutable map from names to values of type V, and a parent link fixed
 * at construction. Each method is proved against the EnvChain function on the chain of
 * maps from this environment out to the global one.
 */
module Environments {
  import opened Wrappers
  import opened Tokens
  import opened EnvChain

  datatype RuntimeError = RuntimeError(token: Token, message: string)

  function UndefinedVariable(name: Token): RuntimeError {
    RuntimeError(name, "Undefined variable '" + name.lexeme + "'.")
  }

  function UndefinedAssignment(name: Token): RuntimeError {
    RuntimeError(name, "Assigning to undefined variable '" + name.lexeme + "'.")
  }

  class Environment<V> {
    const parent: Environment?<V>
    var values: map<string, V>
    /** How many environments enclose this one. */
    ghost const depth: nat
    /** Every environment that encloses this one. */
    ghost const Ancestors: set<Environment<V>>

    /** The parent links form a finite chain, recorded in depth and Ancestors. */
    ghost predicate Valid()
      decreases depth
    {
      if parent == null then depth == 0 && Ancestors == {}
      else depth == parent.depth + 1 && Ancestors == {parent} + parent.Ancestors && parent.Valid()
    }

    /** Every ancestor is strictly shallower, so no environment is its own ancestor. */
    lemma {:induction false} AncestorsAreShallower()
      requires Valid()
      ensures forall a :: a in Ancestors ==> a.depth < depth && a.Valid()
      ensures this !in Ancestors
      decreases depth
    {
      if parent != null {
        parent.AncestorsAreShallower();
      }
    }

    /** The maps from this environment out to the global scope, this one first. */
    ghost function Chain(): (c: Scopes<V>)
      requires Valid()
      reads this, Ancestors
      ensures |c| == depth + 1 && c[0] == values
      decreases depth
    {
      [values] + (if parent == null then [] else parent.Chain())
    }

    constructor (parent: Environment?<V>)
      requires parent != null ==> parent.Valid()
      ensures Valid() && this.parent == parent && values == map[]
      ensures Chain() == [map[]] + (if parent == null then [] else parent.Chain())
    {
      this.parent := parent;
      values := map[];
      depth := if parent == null then 0 else parent.depth + 1;
      Ancestors := if parent == null then {} else {parent} + parent.Ancestors;
    }

    /** `define`: bind name here, replacing any binding here; enclosing environments are untouched. */
    method Define(name: string, newValue: V)
      requires Valid()
      modifies this`values
      ensures values == old(values)[name := newValue]
      ensures Chain() == Defined(old(Chain()), name, newValue)
    {
      AncestorsAreShallower();
      values := values[name := newValue];
    }

    /** `get`: the value bound to the token's lexeme in the nearest environment that binds it. */
    method Get(name: Token) returns (r: Result<V, RuntimeError>)
      requires Valid()
      ensures r == match Lookup(Chain(), name.lexeme)
                   case None => Failure(UndefinedVariable(name))
                   case Some(v) => Success(v)
      decreases depth
    {
      if name.lexeme in values {
        return Success(values[name.lexeme]);
      } else if parent != null {
        assert Chain()[1..] == parent.Chain();
        r := parent.Get(name);
      } else {
        return Failure(UndefinedVariable(name));
      }
    }

    /**
     * `assign`: overwrite the binding in the nearest environment that has one, leaving every
     * other environment as it was; fail, changing nothing, when none has one.
     */
    method Assign(name: Token, newValue: V) returns (r: Outcome<RuntimeError>)
      requires Valid()
      modifies this, Ancestors
      ensures Valid()
      ensures match Assigned(old(Chain()), name.lexeme, newValue)
              case None => r == Fail(UndefinedAssignment(name)) && Chain() == old(Chain())
              case Some(c) => r == Pass && Chain() == c
      decreases depth
    {
      AncestorsAreShallower();
      var key := name.lexeme;
      if key in values {
        values := values[key := newValue];
        assert Chain()[1..] == old(Chain())[1..];
        r := Pass;
      } else if parent != null {
        ghost var before := parent.Chain();
        assert old(Chain())[1..] == before;
        r := parent.Assign(name, newValue);
        assert Chain()[1..] == parent.Chain();
      } else {
        assert Chain() == [values] && [values][1..] == [];
        assert Assigned([values], key, newValue) == None;
        return Fail(UndefinedAssignment(name));
      }
    }
  }
}
