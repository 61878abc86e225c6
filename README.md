# Warped Reducers in Dafny

A model of Warped Reducers. This library compiles a short description of a
Redux reducer into three things. The input is a namespace string and a
string-keyed map from action names to action handlers. The outputs are:

- a canonical action type per handler, `Warped/<namespace>/<name>`;
- an action creator per handler, which wraps a payload as `{type, payload}`;
- one reducer. It looks up the type of an incoming action in a table keyed by
  canonical type. If it finds a handler, it runs `handler(payload)(state)`.
  Otherwise it returns the state unchanged.

`createReducer` chains the three. `noopAction` is the handler that leaves the
state as it is.

How the model is laid out:

- `wrappers.dfy` (module `Wrappers`): the `Option` datatype.
- `warped.dfy` (module `WarpedReducers`): the library, `index.mjs`.
  - State and payload are type parameters `S` and `P`.
  - A handler is a total curried function `P -> S -> S`.
  - An action is the datatype `Action(actionType, payload)`. The field
    `type` is a reserved word in Dafny, so it is named `actionType`.
  - The dictionaries the library builds are `map<string, …>`.
  - `compileActionTypes`, `compileActionCreators` and `compileReducer` each
    fill a fresh dictionary in a `forEach` loop. They are methods with a
    `while` loop over the key set, inserting one key per step.
  - The reducer closure that `compileReducer` returns is the function
    `Dispatch` over the table the loop built.
  - `ParseType` is the partial inverse of the type namer. It is not part of
    the library. It is the reference used to prove that the type namer is
    injective within one namespace.
- `scenarios.dfy` (module `WarpedScenarios`): the library's test cases
  (`test/index.js`), restated. The state is a string-keyed record and the
  handler under test stores its payload under `actionPayload`. The payload
  is a string, except in `NoopActionExample`: there it is an
  `Option<string>`, with `None` for the `null` payload of the test.

## Model

| member | source | states |
|---|---|---|
| `WarpedReducers.CreateType` | index.mjs:11-13 | Every canonical type starts with `Warped/`. Within the namespace, the action name can be read back from the type. |
| `WarpedReducers.ParseTypeInverse` | index.mjs:12 | A type string decodes to an action name in a namespace if and only if it is that name's canonical type (both directions). |
| `WarpedReducers.CreateTypeInjective` | index.mjs:12 | For a fixed namespace, two action names give the same canonical type if and only if they are equal. So no two handler keys share a reducer-table slot. |
| `WarpedReducers.SeparatorCollision` | index.mjs:12 | Across namespaces the separator is not escaped, so a `/` inside a namespace lets different (namespace, name) pairs give the same type: `("A/b", "c")` and `("A", "b/c")`. |
| `WarpedReducers.CreateTypeUniqueAcrossNamespaces` | index.mjs:12 | When neither namespace contains `/`, equal canonical types have equal namespaces and equal action names. A `/` inside an action name alone never causes a collision. |
| `WarpedReducers.CompileActionTypes` | index.mjs:16-22 | The result has exactly the keys of the handler map. It maps each key to its canonical type in the namespace. Distinct keys get distinct types. Empty input gives empty output, because the key sets are equal. |
| `WarpedReducers.CompileActionCreators` | index.mjs:26-34 | The result has exactly the keys of the type map. Each creator is `ActionCreator(types[key])`, the closure at index.mjs:29-31. It turns any payload into `Action(types[key], payload)`, with the payload passed through unchanged. |
| `WarpedReducers.CompileReducer` | index.mjs:37-47 | The returned reducer is `Dispatch`, the closure at index.mjs:42-46, over the table the loop builds. Take an action whose type is the canonical type of a key. The reducer returns that key's `handler(payload)(state)`. Take an action whose type is no key's canonical type. The reducer returns the state unchanged. |
| `WarpedReducers.CreateReducer` | index.mjs:71-80 | The bundle's types are the compiled action types. Its creators build `Action(CreateType(namespace, key), payload)`. Reducing the action a creator built runs exactly the handler registered under that key. Reducing an action whose type is none of the compiled types leaves the state unchanged. |
| `WarpedReducers.NoopActionIdentity` | index.mjs:94-98 | For every payload and every state, of any types, `NoopAction(payload)(state)` is `state`. |
| `WarpedReducers.NoopActionRegistered` | index.mjs:86-88 | For any state and payload types, the bundle `CreateReducer` builds with `NoopAction` registered under a key has that key's canonical type and creator, its reducer returns the state unchanged for every action that key's creator builds, and every other key still runs its own handler. |
| `WarpedScenarios.CreateTypeExamples` | test/index.js:53-56 | `CreateType("Test", "foo")` is `"Warped/Test/foo"`. |
| `WarpedScenarios.ForeignTypeNeverMatches` | index.mjs:12 | A string that does not start with `Warped/` is the canonical type of no action name. Together with the second ensures of `CompileReducer`, it follows that the reducer ignores such an action. |
| `WarpedScenarios.NotHandledIsNoType` | test/index.js:68 | `"NotHandled"` is not the type of any action of the namespace `Test`. |
| `WarpedScenarios.NoopActionExample` | test/index.js:90-92 | `noopAction(null)({foo: 'bar'})` is `{foo: 'bar'}`, with `null` as the payload `None`. |

The methods `CompileActionTypesScenario`, `CompileReducerScenario`,
`CompileActionCreatorsScenario` and `CreateReducerScenario` in
`WarpedScenarios` restate the test cases at test/index.js:58-88 as
assertions about the methods' results. `NoopActionScenario` restates the
usage note at index.mjs:86-88 for a concrete record state: no test registers
the no-op handler and dispatches it. These methods have no contract of their
own.

## Left out

- `combineReducers`, `compileSelectors` and `compileDispatchers` are imported by the tests, but `index.mjs` does not define them. Their implementation is not part of this model.
- The typings file declares a nested `{handlers, reducer}` bundle with `getActions`/`getTypes` accessors. `index.mjs` returns the flat `{types, actions, reducer}` record, and the model follows `index.mjs`. The accessors are not modelled.
- `createReducer` is curried: namespace first, then handlers. The model takes both at once, because a Dafny function cannot return a closure that runs a method.
- The reducer tests the looked-up handler for truthiness. Here every handler is a total function, so the test is plain key membership.
- Prototype-free dictionaries (`Object.create(null)`) are left out. Dafny maps have no inherited keys.
- Closure identity and the reducer's arity (`reducer.length`) are left out.
- Reference identity (`===`) of the returned state and payload is left out. Dafny compares values.
- Exceptions thrown by handlers are left out. Handlers here are total functions.
- Key insertion order of the dictionaries is left out. The loops visit the keys in an unspecified order, and Dafny maps are unordered.
- The test at test/index.js:68 sends an action with no payload. The scenario uses the empty string as the payload.
- The build configuration is not part of this model.
