/**
 Concrete runs of the hook: the behaviours the repository's test suite
 exercises, stated as lemmas about the specification and as a caller of the
 hook class that reconfigures it at runtime.
 */
module Scenarios {
  import opened Logrus
  import opened FireSpec
  import opened ContextHook

  /** A context holding only ServerId = "DemoServer". */
  const ServerCtx: string -> Option<Value> :=
    k => if k == "ServerId" then Some(Other("DemoServer")) else None

  /** A context holding only RequestId = "R1". */
  const RequestCtx: string -> Option<Value> :=
    k => if k == "RequestId" then Some(Other("R1")) else None

  /** A context holding only UserId = "U1". */
  const UserCtx: string -> Option<Value> :=
    k => if k == "UserId" then Some(Other("U1")) else None

  const DemoKeys: seq<string> := ["ServerId", "RequestId", "HostId"]

  /**
   An entry whose only field `f` (not "*") holds a context: both the named
   mode on `f` and the wildcard consume it, leaving only what is extracted.
   */
  lemma SoleContextConsumed(f: string, ctx: string -> Option<Value>, field: string, keys: seq<string>, consumed: Option<string>)
    requires f != Wildcard && (field == f || field == Wildcard)
    requires Resolves(map[f := Ctx(ctx)], field, consumed)
    ensures consumed == Some(f)
    ensures Outcome(map[f := Ctx(ctx)], consumed, keys) == Extract(map[], ctx, keys)
  {
    var data := map[f := Ctx(ctx)];
    assert !NoContext(data) by {
      assert f in data && IsContext(data[f]);
    }
    assert data - {f} == map[];
  }

  /**
   Extracting into an empty map from a context that holds a value for `key`
   alone yields that one field if `key` is listed, and nothing otherwise.
   */
  lemma {:induction false} ExtractOnly(ctx: string -> Option<Value>, keys: seq<string>, key: string)
    requires ctx(key).Some?
    requires forall k :: ctx(k).Some? ==> k == key
    ensures Extract(map[], ctx, keys) == if key in keys then map[key := ctx(key).value] else map[]
  {
    var r := Extract(map[], ctx, keys);
    var expected: map<string, Value> := if key in keys then map[key := ctx(key).value] else map[];
    forall k
      ensures k in r <==> k in expected
      ensures k in r ==> r[k] == expected[k]
    {
      ExtractAt(map[], ctx, keys, k);
    }
    assert r == expected;
  }

  /**
   Wildcard mode, one context under "X" holding only ServerId: the call must
   consume "X", and afterwards the entry holds ServerId alone; no field is
   made for RequestId or HostId.
   */
  lemma WildcardScenario(consumed: Option<string>)
    requires Resolves(map["X" := Ctx(ServerCtx)], Wildcard, consumed)
    ensures consumed == Some("X")
    ensures Outcome(map["X" := Ctx(ServerCtx)], consumed, DemoKeys) == map["ServerId" := Other("DemoServer")]
  {
    SoleContextConsumed("X", ServerCtx, Wildcard, DemoKeys, consumed);
    ExtractOnly(ServerCtx, DemoKeys, "ServerId");
  }

  /**
   Named mode on "Context", with a context under "Other" instead: nothing is
   consumed, the context field stays as it was and no RequestId appears.
   */
  lemma NamedWrongFieldScenario(consumed: Option<string>)
    requires Resolves(map["Other" := Ctx(RequestCtx)], "Context", consumed)
    ensures consumed == None
    ensures Outcome(map["Other" := Ctx(RequestCtx)], consumed, ["RequestId"]) == map["Other" := Ctx(RequestCtx)]
  {
    NamedMissingUnchanged(map["Other" := Ctx(RequestCtx)], "Context", ["RequestId"], consumed);
  }

  /**
   Logs a fresh entry whose only field `f` holds a context with a value for
   `key` alone, through a hook configured for `f` or for the wildcard.
   */
  method LogWithSoleContext(hook: ContextHookImpl, f: string, ctx: string -> Option<Value>, key: string) returns (e: Entry)
    requires f != Wildcard && (hook.GetContextField() == f || hook.GetContextField() == Wildcard)
    requires ctx(key).Some? && forall k :: ctx(k).Some? ==> k == key
    ensures fresh(e)
    ensures e.data == if key in hook.GetContextKeys() then map[key := ctx(key).value] else map[]
  {
    e := new Entry(map[f := Ctx(ctx)]);
    var err;
    ghost var consumed;
    err, consumed := hook.Fire(e);
    SoleContextConsumed(f, ctx, hook.contextField, hook.contextKeys, consumed);
    ExtractOnly(ctx, hook.contextKeys, key);
  }

  /**
   A caller of the hook: named field first, then switched to the wildcard,
   then the key list extended by one key.  `logged` is the field maps of the
   five entries as they stand at the end, so entries fired before a
   reconfiguration are seen to keep what they had.
   */
  method HookModificationScenario() returns (logged: seq<map<string, Value>>)
    ensures logged == [
      map["ServerId" := Other("DemoServer")],
      map["NotContextField" := Ctx(RequestCtx)],
      map["RequestId" := Other("R1")],
      map[],
      map["UserId" := Other("U1")]
    ]
  {
    var hook := new ContextHookImpl("Context", DemoKeys);

    var e1 := LogWithSoleContext(hook, "Context", ServerCtx, "ServerId");

    var e2 := new Entry(map["NotContextField" := Ctx(RequestCtx)]);
    var err;
    ghost var consumed;
    err, consumed := hook.Fire(e2);

    hook.SetContextField("*");
    var e3 := LogWithSoleContext(hook, "NotContextField", RequestCtx, "RequestId");
    var e4 := LogWithSoleContext(hook, "NotContextField", UserCtx, "UserId");

    hook.SetContextKeys(hook.GetContextKeys() + ["UserId"]);
    var e5 := LogWithSoleContext(hook, "NotContextField", UserCtx, "UserId");

    logged := [e1.data, e2.data, e3.data, e4.data, e5.data];
  }
}
