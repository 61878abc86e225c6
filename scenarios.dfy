/**
 * The library's own usage examples, stated against the model: the state is a
 * string-keyed record and the payload a string (except in the no-op example,
 * whose payload is an `Option<string>` with `None` for a null payload), and
 * the handler under test stores its payload under `actionPayload`.
 */
module WarpedScenarios {
  import opened Wrappers
  import opened WarpedReducers

  type Record = map<string, string>

  /** Copies the state and sets `actionPayload` to the payload. */
  function SetActionPayload(payload: string): (handler: Record -> Record)
  {
    state => state["actionPayload" := payload]
  }

  /** The worked examples of the type namer. */
  lemma CreateTypeExamples()
    ensures CreateType("Test", "foo") == "Warped/Test/foo"
    ensures CreateType("Test", "bar") == "Warped/Test/bar"
    ensures CreateType("Test", "ping") == "Warped/Test/ping"
  {
  }

  /** A string outside the library's prefix is the canonical type of no action name. */
  lemma ForeignTypeNeverMatches(namespace: string, actionType: string, actionName: string)
    requires !(Prefix <= actionType)
    ensures CreateType(namespace, actionName) != actionType
  {
  }

  /** `NotHandled` is the type of no action of the namespace `Test`. */
  lemma NotHandledIsNoType(actionName: string)
    ensures CreateType("Test", actionName) != "NotHandled"
  {
  }

  method CompileActionTypesScenario()
  {
    var none := CompileActionTypes<Record -> Record>("Test", map[]);
    assert none == map[];
    var types := CompileActionTypes("Test", map["foo" := SetActionPayload, "bar" := SetActionPayload]);
    CreateTypeExamples();
    assert types == map["foo" := "Warped/Test/foo", "bar" := "Warped/Test/bar"];
  }

  method CompileReducerScenario()
  {
    var reducer := CompileReducer("Test", map["foo" := SetActionPayload]);
    NotHandledIsNoType("foo");
    CreateTypeExamples();
    assert reducer(map[], Action("NotHandled", "")) == map[];
    assert reducer(map[], Action("Warped/Test/foo", "test")) == map["actionPayload" := "test"];
  }

  method CompileActionCreatorsScenario()
  {
    var creators := CompileActionCreators<string>(map["foo" := "Warped/Foo"]);
    assert "foo" in creators;
    assert creators["foo"]("test") == Action("Warped/Foo", "test");
  }

  method CreateReducerScenario()
  {
    var result := CreateReducer("Test", map["foo" := SetActionPayload]);
    CreateTypeExamples();
    assert result.reducer(map[], Action("Warped/Test/foo", "test")) == map["actionPayload" := "test"];
    assert result.types == map["foo" := "Warped/Test/foo"];
  }

  /** The worked example of the no-op handler, with a null payload. */
  lemma NoopActionExample()
    ensures NoopAction<Option<string>, Record>(None)(map["foo" := "bar"]) == map["foo" := "bar"]
  {
  }

  /**
   * The use the library suggests for the no-op handler: an action type that
   * the reducer accepts without touching the state.
   */
  method NoopActionScenario()
  {
    var noop: Handler<string, Record> := NoopAction;
    var result := CreateReducer("Test", map["ping" := noop]);
    var ping := result.actions["ping"]("message");
    assert result.reducer(map["foo" := "bar"], ping) == noop("message")(map["foo" := "bar"]);
    assert noop("message") == NoopAction("message");
    assert result.reducer(map["foo" := "bar"], ping) == map["foo" := "bar"];
  }
}
