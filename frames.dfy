/**
 * The frames of a running program as a value: a store of frames, each
 * with its bindings and the position of its enclosing frame. A frame
 * encloses only frames made before it, so a frame's chain follows strictly
 * decreasing positions (`Linked`). This is the state the reference
 * semantics runs on.
 */
module Frames {
  import opened Wrappers
  import opened Tokens
  import opened Values
  import Environments

  datatype Frame = Frame(values: map<string, Value>, enclosing: Option<nat>)

  type Store = seq<Frame>

  /** Every frame's enclosing frame is an earlier one. */
  predicate Linked(store: Store) {
    forall i :: 0 <= i < |store| && store[i].enclosing.Some? ==> store[i].enclosing.value < i
  }

  /**
   * The enclosing frame of frame `i`, followed only towards earlier
   * frames: in a linked store that is every enclosing frame.
   */
  function Up(store: Store, i: nat): (up: Option<nat>)
    requires i < |store|
    ensures up.Some? ==> up.value < i
    ensures Linked(store) ==> up == store[i].enclosing
  {
    if store[i].enclosing.Some? && store[i].enclosing.value < i then store[i].enclosing else None
  }

  /** The value bound to the name in the nearest frame of the chain from frame `i`. */
  function Lookup(store: Store, i: nat, name: Token): (r: Result<Value, Failure>)
    requires i < |store|
    ensures r.Err? ==> r.error == Environments.Undefined(name)
    decreases i
  {
    if name.lexeme in store[i].values then Ok(store[i].values[name.lexeme])
    else if Up(store, i).Some? then Lookup(store, Up(store, i).value, name)
    else Err(Environments.Undefined(name))
  }

  /** The nearest frame of the chain from frame `i` that binds the name. */
  function Holder(store: Store, i: nat, name: string): (h: Option<nat>)
    requires i < |store|
    ensures h.Some? ==> h.value <= i && name in store[h.value].values
    decreases i
  {
    if name in store[i].values then Some(i)
    else if Up(store, i).Some? then Holder(store, Up(store, i).value, name)
    else None
  }

  /** Binds the name in frame `i`. */
  function Define(store: Store, i: nat, name: string, value: Value): (after: Store)
    requires i < |store|
    ensures |after| == |store| && after[i].values == store[i].values[name := value]
    ensures after[i].enclosing == store[i].enclosing
    ensures forall j :: 0 <= j < |store| && j != i ==> after[j] == store[j]
  {
    store[i := store[i].(values := store[i].values[name := value])]
  }

  /**
   * Rebinds the name in the nearest frame of the chain from `i` that binds
   * it; the error "Undefined variable" only when frame `i` has no
   * enclosing frame and does not bind the name.
   */
  function Assign(store: Store, i: nat, name: Token, value: Value): (r: (Store, Option<Failure>))
    requires i < |store|
    ensures |r.0| == |store|
    decreases i
  {
    if name.lexeme in store[i].values then (Define(store, i, name.lexeme, value), None)
    else if Up(store, i).Some? then (Assign(store, Up(store, i).value, name, value).0, None)
    else (store, Some(Environments.Undefined(name)))
  }

  /**
   * The nearest holder exists exactly when a lookup succeeds, and holds the
   * value the lookup finds.
   */
  lemma {:induction false} HolderLookup(store: Store, i: nat, name: Token)
    requires i < |store|
    ensures var h := Holder(store, i, name.lexeme);
            && (h.None? <==> Lookup(store, i, name).Err?)
            && (h.Some? ==> Lookup(store, i, name) == Ok(store[h.value].values[name.lexeme]))
    decreases i
  {
    if name.lexeme !in store[i].values && Up(store, i).Some? {
      HolderLookup(store, Up(store, i).value, name);
    }
  }

  /** Definitions and assignments change bindings only: every frame keeps its enclosing frame. */
  lemma {:induction false} AssignKeepsLinks(store: Store, i: nat, name: Token, value: Value)
    requires i < |store|
    ensures forall j :: 0 <= j < |store| ==> Assign(store, i, name, value).0[j].enclosing == store[j].enclosing
    decreases i
  {
    if name.lexeme !in store[i].values && Up(store, i).Some? {
      AssignKeepsLinks(store, Up(store, i).value, name, value);
    }
  }

  /**
   * Assignment changes exactly the frame that holds the name, and only the
   * name's binding there; with no holder nothing changes. It fails exactly
   * from a frame with no enclosing frame that lacks the name.
   */
  lemma {:induction false} AssignHolder(store: Store, i: nat, name: Token, value: Value)
    requires i < |store|
    ensures var h := Holder(store, i, name.lexeme);
            Assign(store, i, name, value).0 == if h.Some? then Define(store, h.value, name.lexeme, value) else store
    ensures Assign(store, i, name, value).1.Some? <==> name.lexeme !in store[i].values && Up(store, i).None?
    decreases i
  {
    if name.lexeme !in store[i].values && Up(store, i).Some? {
      AssignHolder(store, Up(store, i).value, name, value);
    }
  }

  /** Defining in the newest frame changes only that frame's bindings. */
  lemma DefineLast(store: Store, frame: Frame, name: string, value: Value)
    ensures Define(store + [frame], |store|, name, value) == store + [frame.(values := frame.values[name := value])]
  {
  }

  /** A definition is seen by a lookup from the same frame. */
  lemma DefineThenLookup(store: Store, i: nat, name: Token, value: Value)
    requires i < |store|
    ensures Lookup(Define(store, i, name.lexeme, value), i, name) == Ok(value)
  {
  }

  /** After assignment, a lookup from the same frame sees the new value exactly when the name was bound. */
  lemma {:induction false} AssignThenLookup(store: Store, i: nat, name: Token, value: Value)
    requires i < |store|
    ensures Lookup(store, i, name).Ok? ==> Lookup(Assign(store, i, name, value).0, i, name) == Ok(value)
    ensures Lookup(store, i, name).Err? ==> Assign(store, i, name, value).0 == store
    decreases i
  {
    if name.lexeme !in store[i].values && Up(store, i).Some? {
      var up := Up(store, i).value;
      AssignThenLookup(store, up, name, value);
      AssignHolder(store, up, name, value);
      assert Assign(store, i, name, value).0[i] == store[i];
    }
  }

  /** A lookup from frame `i` sees only frame `i` and earlier frames. */
  lemma {:induction false} LookupPrefix(a: Store, b: Store, i: nat, name: Token)
    requires i < |a| && i < |b| && a[..i + 1] == b[..i + 1]
    ensures Lookup(a, i, name) == Lookup(b, i, name)
    decreases i
  {
    assert a[i] == a[..i + 1][i] && b[i] == b[..i + 1][i];
    if name.lexeme !in a[i].values && Up(a, i).Some? {
      var up := Up(a, i).value;
      assert a[..up + 1] == a[..i + 1][..up + 1] && b[..up + 1] == b[..i + 1][..up + 1];
      LookupPrefix(a, b, up, name);
    }
  }

  /**
   * A name defined in a later frame (a block's or a call's) is not seen
   * from an earlier one: inner declarations do not leak out.
   */
  lemma DefineInLaterFrame(store: Store, i: nat, j: nat, name: Token, value: Value)
    requires i < j < |store|
    ensures Lookup(Define(store, j, name.lexeme, value), i, name) == Lookup(store, i, name)
  {
    var after := Define(store, j, name.lexeme, value);
    assert after[..i + 1] == store[..i + 1];
    LookupPrefix(after, store, i, name);
  }
}
