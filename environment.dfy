/**
 * The variable store of pylox/interpreter/environment.py: one dictionary
 * from names to values, updated in place by `define` and read by `get`.
 */
module Environments {
  import opened Tokens
  import opened Runtime

  /** The message `get` raises for a name that has no binding. */
  function UndefinedVariable(name: string): string {
    "Undefined variable '" + name + "'."
  }

  class Environment {
    var values: map<string, Value>

    constructor ()
      ensures values == map[]
    {
      values := map[];
    }

    /** `define(name, value)`: bind or rebind `name`; it never fails. */
    method Define(name: string, value: Value)
      modifies this
      ensures values == old(values)[name := value]
      ensures forall t: Token :: t.lexeme == name ==> Get(t) == Ok(value)
      ensures forall t: Token :: t.lexeme != name ==> Get(t) == old(Get(t))
    {
      values := values[name := value];
    }

    /** `get(name)`: the value bound to the token's lexeme, or a `RuntimeException` carrying the token. */
    function Get(name: Token): Result<Value>
      reads this
    {
      if name.lexeme in values then Ok(values[name.lexeme])
      else Err(RuntimeError(name, UndefinedVariable(name.lexeme)))
    }
  }

  /**
   * `get` succeeds exactly for the bound names and then returns the bound
   * value; for any other name it fails with "Undefined variable '<name>'."
   * and the name token.
   */
  lemma {:induction false} GetSucceedsIffBound(env: Environment, name: Token)
    ensures env.Get(name).Ok? <==> name.lexeme in env.values
    ensures env.Get(name).Ok? ==> env.Get(name).value == env.values[name.lexeme]
    ensures env.Get(name).Err? ==> env.Get(name).fault == RuntimeError(name, UndefinedVariable(name.lexeme))
  {
  }

  /** `get` looks only at the lexeme: tokens with the same text, on any line, see the same binding. */
  lemma {:induction false} GetByLexemeOnly(env: Environment, a: Token, b: Token)
    requires a.lexeme == b.lexeme
    ensures env.Get(a).Ok? <==> env.Get(b).Ok?
    ensures env.Get(a).Ok? ==> env.Get(a).value == env.Get(b).value
  {
  }

  /**
   * On a fresh environment: after `define(n, v)`, `get` of a token with
   * lexeme `n` returns `v`; after redefining `n` as `w`, it returns `w`; and
   * a name never defined is still undefined.
   */
  method DefineThenGet(name: Token, other: Token, v: Value, w: Value)
      returns (first: Result<Value>, second: Result<Value>, missing: Result<Value>)
    requires other.lexeme != name.lexeme
    ensures first == Ok(v) && second == Ok(w)
    ensures missing == Err(RuntimeError(other, UndefinedVariable(other.lexeme)))
  {
    var env := new Environment();
    env.Define(name.lexeme, v);
    first := env.Get(name);
    env.Define(name.lexeme, w);
    second := env.Get(name);
    missing := env.Get(other);
  }
}
