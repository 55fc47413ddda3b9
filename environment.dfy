/**
 * Environments: frames of name-to-value bindings, each linked to the frame
 * that encloses it. A frame's bindings change in place; the link never
 * changes, and following the links always ends at a frame with no
 * enclosing frame.
 */
module Environments {
  import opened Wrappers
  import opened Tokens
  import opened Values

  /** The error for a name bound nowhere along the chain. */
  function Undefined(name: Token): Failure {
    RuntimeError(name, "Undefined variable '" + name.lexeme + "'.")
  }

  class Environment {
    var values: map<string, Value>
    const enclosing: Environment?
    /** The frames of the chain that starts here. */
    ghost const Repr: set<Environment>
    /** A serial number, distinct for distinct frames of one interpreter. */
    ghost const id: nat

    /** The chain from this frame is finite and does not run into itself. */
    ghost predicate Valid()
      decreases Repr
    {
      && this in Repr
      && (enclosing == null ==> Repr == {this})
      && (enclosing != null ==>
            && enclosing in Repr && this !in enclosing.Repr
            && Repr == {this} + enclosing.Repr
            && enclosing.Valid())
    }

    constructor (values: map<string, Value>, enclosing: Environment?, ghost id: nat)
      requires enclosing != null ==> enclosing.Valid()
      ensures Valid()
      ensures this.values == values && this.enclosing == enclosing && this.id == id
      ensures Repr == {this} + (if enclosing == null then {} else enclosing.Repr)
    {
      this.values := values;
      this.enclosing := enclosing;
      this.id := id;
      Repr := {this} + (if enclosing == null then {} else enclosing.Repr);
    }

    /** The bindings visible from this frame: those of the enclosing frames, overridden by this frame's own. */
    ghost function Scope(): map<string, Value>
      requires Valid()
      reads Repr
      decreases Repr
    {
      if enclosing == null then values else enclosing.Scope() + values
    }

    /**
     * `get`: the value bound to the name in the nearest frame of the chain
     * that binds it, or "Undefined variable" when no frame does.
     */
    function Get(name: Token): (r: Result<Value, Failure>)
      requires Valid()
      reads Repr
      ensures r == if name.lexeme in Scope() then Ok(Scope()[name.lexeme]) else Err(Undefined(name))
      decreases Repr
    {
      if name.lexeme in values then Ok(values[name.lexeme])
      else if enclosing != null then enclosing.Get(name)
      else Err(Undefined(name))
    }

    /** The nearest frame of the chain that binds the name, if any. */
    ghost function Holder(name: string): (h: Environment?)
      requires Valid()
      reads Repr
      ensures h == null <==> name !in Scope()
      ensures h != null ==> h in Repr && name in h.values && h.values[name] == Scope()[name]
      decreases Repr
    {
      if name in values then this
      else if enclosing != null then enclosing.Holder(name)
      else null
    }

    /** `define`: binds the name in this frame, replacing any binding it had here; no other frame changes. */
    method Define(name: string, value: Value)
      requires Valid()
      modifies this`values
      ensures values == old(values)[name := value]
      ensures Scope() == old(Scope())[name := value]
    {
      values := values[name := value];
    }

    /**
     * `assign`: rebinds the name in the nearest frame that binds it. From a
     * frame with no enclosing frame that does not bind the name, this is
     * the error "Undefined variable"; from any other frame the enclosing
     * frame's answer is discarded and there is no error, whether or not
     * some frame binds the name. No binding is ever created.
     */
    method Assign(name: Token, value: Value) returns (err: Option<Failure>)
      requires Valid()
      modifies Repr
      ensures err == if name.lexeme !in old(values) && enclosing == null then Some(Undefined(name)) else None
      ensures forall f :: f in Repr ==> f.values == if f == old(Holder(name.lexeme)) then old(f.values)[name.lexeme := value] else old(f.values)
      ensures Scope() == if name.lexeme in old(Scope()) then old(Scope())[name.lexeme := value] else old(Scope())
      decreases Repr
    {
      if name.lexeme in values {
        values := values[name.lexeme := value];
        return None;
      }
      if enclosing != null {
        var _ := enclosing.Assign(name, value);
        assert enclosing.Scope() + values == (if name.lexeme in old(Scope()) then old(Scope())[name.lexeme := value] else old(Scope()));
        return None;
      }
      return Some(Undefined(name));
    }
  }

  /**
   * A name bound in a frame's own table is got from that frame with that
   * value, whatever the enclosing frames bind: the nearest binding shadows.
   */
  lemma BoundThenGet(e: Environment, name: Token, value: Value)
    requires e.Valid() && name.lexeme in e.values && e.values[name.lexeme] == value
    ensures e.Get(name) == Ok(value)
  {
  }
}
