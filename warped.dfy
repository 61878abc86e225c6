/**
 * Warped Reducers: compiles a namespace and a string-keyed map of action
 * handlers into canonical action-type strings, action creators and a single
 * Redux-style reducer that dispatches on the action type.
 *
 * State and payload are type parameters (S and P). A handler is curried,
 * payload first and state second, exactly like the handlers the library
 * accepts. The string-keyed dictionaries the library builds are Dafny maps;
 * the loops that fill them walk the key set in an unspecified order, as the
 * library's `forEach` over `Object.keys`/`Object.entries` does not give the
 * order any meaning.
 */
module WarpedReducers {
  import opened Wrappers

  /** An action handler: given a payload, a transformation of the state. */
  type Handler<!P, !S> = P -> S -> S

  /** The standard `{type, payload}` action object (`type` is a reserved word in Dafny). */
  datatype Action<P> = Action(actionType: string, payload: P)

  /** What `createReducer` returns: the compiled types, the creators and the reducer. */
  datatype Bundle<!S, !P> = Bundle(
    types: map<string, string>,
    actions: map<string, P -> Action<P>>,
    reducer: (S, Action<P>) -> S)

  /** The fixed prefix of every canonical action type, separator included. */
  const Prefix: string := "Warped/"

  /** The part of a canonical type that is shared by every action of one namespace. */
  function NamespaceHead(namespace: string): (head: string)
  {
    Prefix + namespace + "/"
  }

  /**
   * The canonical action type of `actionName` within `namespace`. No escaping
   * of the separator is done. Within one namespace the action name can be read
   * back from the type, so distinct names never share a type.
   */
  function CreateType(namespace: string, actionName: string): (r: string)
    ensures Prefix <= r
    ensures ParseType(namespace, r) == Some(actionName)
  {
    NamespaceHead(namespace) + actionName
  }

  /**
   * The partial inverse of CreateType for a fixed namespace: the action name a
   * type string stands for, or None when the string is not a type of that
   * namespace.
   */
  function ParseType(namespace: string, actionType: string): (actionName: Option<string>)
  {
    var head := NamespaceHead(namespace);
    if head <= actionType then Some(actionType[|head|..]) else None
  }

  /** A type string decodes to `actionName` exactly when it is that name's canonical type. */
  lemma ParseTypeInverse(namespace: string, actionType: string, actionName: string)
    ensures ParseType(namespace, actionType) == Some(actionName)
        <==> CreateType(namespace, actionName) == actionType
  {
  }

  /** For a fixed namespace, distinct action names give distinct canonical types. */
  lemma CreateTypeInjective(namespace: string, name1: string, name2: string)
    ensures CreateType(namespace, name1) == CreateType(namespace, name2) <==> name1 == name2
  {
  }

  /**
   * Across namespaces the types can collide, because a separator inside a
   * namespace is not escaped: it can stand for the separator that follows a
   * shorter namespace.
   */
  lemma SeparatorCollision()
    ensures "A/b" != "A" && CreateType("A/b", "c") == CreateType("A", "b/c")
  {
  }

  /**
   * When neither namespace contains the separator, a canonical type determines
   * both its namespace and its action name: the first separator after the
   * prefix ends the namespace.
   */
  lemma {:induction false} CreateTypeUniqueAcrossNamespaces(
    namespace1: string, name1: string, namespace2: string, name2: string)
    requires '/' !in namespace1 && '/' !in namespace2
    requires CreateType(namespace1, name1) == CreateType(namespace2, name2)
    ensures namespace1 == namespace2 && name1 == name2
  {
    var t := CreateType(namespace1, name1);
    assert t == Prefix + namespace1 + "/" + name1;
    assert t == Prefix + namespace2 + "/" + name2;
    if |namespace1| < |namespace2| {
      SeparatorInLongerNamespace(namespace1, name1, namespace2, name2);
    } else if |namespace2| < |namespace1| {
      SeparatorInLongerNamespace(namespace2, name2, namespace1, name1);
    }
    assert |namespace1| == |namespace2|;
    assert namespace1 == t[|Prefix|..|Prefix| + |namespace1|];
    assert namespace2 == t[|Prefix|..|Prefix| + |namespace2|];
    CreateTypeInjective(namespace1, name1, name2);
  }

  /**
   * Two spellings of one type with namespaces of different lengths: the
   * longer namespace has a separator where the shorter one ends.
   */
  lemma SeparatorInLongerNamespace(namespace1: string, name1: string, namespace2: string, name2: string)
    requires Prefix + namespace1 + "/" + name1 == Prefix + namespace2 + "/" + name2
    requires |namespace1| < |namespace2|
    ensures namespace2[|namespace1|] == '/'
  {
    var t := Prefix + namespace1 + "/" + name1;
    assert t[|Prefix| + |namespace1|] == '/';
    assert t[|Prefix| + |namespace1|] == namespace2[|namespace1|];
  }

  /** Maps every key of `actions` to its canonical type within `namespace`. */
  method CompileActionTypes<H>(namespace: string, actions: map<string, H>)
      returns (actionTypes: map<string, string>)
    ensures actionTypes.Keys == actions.Keys
    ensures forall key :: key in actionTypes ==> actionTypes[key] == CreateType(namespace, key)
    ensures forall key1, key2 :: key1 in actionTypes && key2 in actionTypes && key1 != key2 ==>
      actionTypes[key1] != actionTypes[key2]
  {
    actionTypes := map[];
    var remaining := actions.Keys;
    while remaining != {}
      invariant remaining <= actions.Keys
      invariant actionTypes.Keys == actions.Keys - remaining
      invariant forall key :: key in actionTypes ==> actionTypes[key] == CreateType(namespace, key)
      decreases remaining
    {
      var key :| key in remaining;
      actionTypes := actionTypes[key := CreateType(namespace, key)];
      remaining := remaining - {key};
    }
    forall key1, key2 | key1 in actionTypes && key2 in actionTypes && key1 != key2
      ensures actionTypes[key1] != actionTypes[key2]
    {
      CreateTypeInjective(namespace, key1, key2);
    }
  }

  /** The action creator for one type: it wraps any payload into an action of that type. */
  function ActionCreator<P>(actionType: string): (creator: P -> Action<P>)
  {
    (payload: P) => Action(actionType, payload)
  }

  /**
   * For every entry of `types`, a creator that wraps any payload, unchanged,
   * into an action carrying that entry's type.
   */
  method CompileActionCreators<P>(types: map<string, string>)
      returns (creators: map<string, P -> Action<P>>)
    ensures creators.Keys == types.Keys
    ensures forall key :: key in types ==> creators[key] == ActionCreator(types[key])
    ensures forall key, payload :: key in types ==> creators[key](payload) == Action(types[key], payload)
  {
    creators := map[];
    var remaining := types.Keys;
    while remaining != {}
      invariant remaining <= types.Keys
      invariant creators.Keys == types.Keys - remaining
      invariant forall key :: key in creators ==> creators[key] == ActionCreator(types[key])
      decreases remaining
    {
      var key :| key in remaining;
      creators := creators[key := ActionCreator(types[key])];
      remaining := remaining - {key};
    }
  }

  /**
   * The reducer that `compileReducer` returns, over its table from canonical
   * type to handler: a registered type runs its handler on the payload and
   * then on the state; any other type leaves the state as it is.
   */
  function Dispatch<S, P>(handlers: map<string, Handler<P, S>>, state: S, action: Action<P>): (next: S)
  {
    if action.actionType in handlers then handlers[action.actionType](action.payload)(state) else state
  }

  /**
   * Builds the table from canonical type to handler and returns the reducer
   * over it. An action whose type is the canonical type of a key runs that
   * key's handler; an action whose type is no key's canonical type leaves
   * the state unchanged.
   */
  method CompileReducer<S, P>(namespace: string, actions: map<string, Handler<P, S>>)
      returns (reducer: (S, Action<P>) -> S)
    ensures forall key, payload, state :: key in actions ==>
      reducer(state, Action(CreateType(namespace, key), payload)) == actions[key](payload)(state)
    ensures forall state, action: Action<P> ::
      (forall key :: key in actions ==> action.actionType != CreateType(namespace, key)) ==>
        reducer(state, action) == state
  {
    var handlers: map<string, Handler<P, S>> := map[];
    var remaining := actions.Keys;
    while remaining != {}
      invariant remaining <= actions.Keys
      invariant handlers.Keys == set key | key in actions && key !in remaining :: CreateType(namespace, key)
      invariant forall key :: key in actions && key !in remaining ==>
        CreateType(namespace, key) in handlers && handlers[CreateType(namespace, key)] == actions[key]
      decreases remaining
    {
      var key :| key in remaining;
      forall other | other in actions && other !in remaining
        ensures CreateType(namespace, other) != CreateType(namespace, key)
      {
        CreateTypeInjective(namespace, other, key);
      }
      handlers := handlers[CreateType(namespace, key) := actions[key]];
      remaining := remaining - {key};
    }
    reducer := (state: S, action: Action<P>) => Dispatch(handlers, state, action);
  }

  /**
   * `createReducer(namespace)(actions)`: the compiled types, the creators over
   * them and the reducer. Dispatching the action that a creator builds runs
   * exactly the handler registered under the same key, and an action whose
   * type is none of the compiled types leaves the state unchanged.
   */
  method CreateReducer<S, P>(namespace: string, actions: map<string, Handler<P, S>>)
      returns (bundle: Bundle<S, P>)
    ensures bundle.types.Keys == actions.Keys
    ensures forall key :: key in bundle.types ==> bundle.types[key] == CreateType(namespace, key)
    ensures bundle.actions.Keys == actions.Keys
    ensures forall key, payload :: key in actions ==>
      bundle.actions[key](payload) == Action(CreateType(namespace, key), payload)
    ensures forall key, payload, state :: key in actions ==>
      bundle.reducer(state, bundle.actions[key](payload)) == actions[key](payload)(state)
    ensures forall state, action: Action<P> :: action.actionType !in bundle.types.Values ==>
      bundle.reducer(state, action) == state
  {
    var types := CompileActionTypes(namespace, actions);
    var creators := CompileActionCreators<P>(types);
    var reducer := CompileReducer(namespace, actions);
    bundle := Bundle(types, creators, reducer);
  }

  /** The handler that does nothing: for any payload, the identity on states. */
  function NoopAction<P, S>(payload: P): (transform: S -> S)
  {
    state => state
  }

  /** Whatever the payload, the no-op handler returns the state it is given. */
  lemma NoopActionIdentity<P, S>(payload: P, state: S)
    ensures NoopAction(payload)(state) == state
  {
  }

  /**
   * `createReducer` over a handler map with the no-op handler registered under
   * `key`: that key's actions leave the state unchanged, and every other key
   * still runs its own handler.
   */
  method NoopActionRegistered<S, P>(namespace: string, actions: map<string, Handler<P, S>>, key: string)
      returns (bundle: Bundle<S, P>)
    ensures bundle.types.Keys == bundle.actions.Keys == actions.Keys + {key}
    ensures forall k :: k in bundle.types ==> bundle.types[k] == CreateType(namespace, k)
    ensures forall payload :: bundle.actions[key](payload) == Action(CreateType(namespace, key), payload)
    ensures forall payload, state :: bundle.reducer(state, bundle.actions[key](payload)) == state
    ensures forall k, payload, state :: k in actions && k != key ==>
      bundle.reducer(state, bundle.actions[k](payload)) == actions[k](payload)(state)
  {
    bundle := CreateReducer(namespace, actions[key := NoopAction]);
    forall payload: P, state: S
      ensures bundle.reducer(state, bundle.actions[key](payload)) == state
    {
      NoopActionIdentity<P, S>(payload, state);
    }
  }
}
