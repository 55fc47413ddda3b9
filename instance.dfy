/**
 * An instance of a Lox class: its class and a table of fields that `set`
 * writes in place. Reading a field that was never set is a runtime error;
 * an instance does not fall back to its class's methods.
 */
module Instances {
  import opened Wrappers
  import opened Tokens
  import opened Values

  /** The message of the error for reading a missing field, misspelled as the interpreter spells it. */
  function UndefinedProperty(name: Token): Failure {
    RuntimeError(name, "Undefined propert " + name.lexeme + ".")
  }

  class LoxInstance {
    const klass: LoxClass
    var fields: map<string, Value>

    /** A new instance of `klass` has no fields. */
    constructor (klass: LoxClass)
      ensures this.klass == klass && fields == map[]
    {
      this.klass := klass;
      fields := map[];
    }

    /** `get`: the field's value when it is set, the error naming the property otherwise. */
    function Get(name: Token): (r: Result<Value, Failure>)
      reads this
      ensures r.Ok? <==> name.lexeme in fields
      ensures r.Ok? ==> r.value == fields[name.lexeme]
      ensures r.Err? ==> r.error == UndefinedProperty(name)
    {
      if name.lexeme in fields then Ok(fields[name.lexeme]) else Err(UndefinedProperty(name))
    }

    /** `set`: binds the field, adding it or overwriting it; no other field changes. */
    method Set(name: Token, value: Value)
      modifies this
      ensures fields == old(fields)[name.lexeme := value]
      ensures Get(name) == Ok(value)
      ensures forall other: Token :: other.lexeme != name.lexeme ==> Get(other) == old(Get(other))
    {
      fields := fields[name.lexeme := value];
    }

    /** An instance prints as its class's name followed by ` instance`. */
    function String(): string
      reads this
    {
      InstanceText(klass)
    }
  }
}
