/**
 The hook itself: two runtime-replaceable settings (the field to take the
 context from, or "*" for any context-valued field, and the keys to copy out
 of it), the logger's hook interface (`Fire`, `Levels`) and the accessors.
 */
module ContextHook {
  import opened Logrus
  import opened FireSpec

  /**
   Go's `range` over a map: visits the fields in an unspecified order and
   stops at the first one holding a context.  Returns that field's name, or
   "*" when no field holds one.  A field literally named "*" that holds a
   context also yields "*", which the caller cannot tell apart from "none".
   */
  method FirstContextField(data: map<string, Value>) returns (field: string)
    ensures field != Wildcard ==> field in data && IsContext(data[field])
    ensures field == Wildcard ==> (Wildcard in data && IsContext(data[Wildcard])) || NoContext(data)
  {
    field := Wildcard;
    var unvisited := data.Keys;
    while unvisited != {}
      invariant unvisited <= data.Keys
      invariant forall k :: k in data && k !in unvisited ==> !IsContext(data[k])
      decreases unvisited
    {
      var k :| k in unvisited;
      if IsContext(data[k]) {
        field := k;
        break;
      }
      unvisited := unvisited - {k};
    }
  }

  class ContextHookImpl {
    var contextField: string
    var contextKeys: seq<string>

    /** `NewContextHook`: stores both settings as given, with no validation. */
    constructor (contextField: string, contextKeys: seq<string>)
      ensures GetContextField() == contextField && GetContextKeys() == contextKeys
    {
      this.contextField := contextField;
      this.contextKeys := contextKeys;
    }

    function GetContextField(): (f: string)
      reads this
    {
      contextField
    }

    /** Replaces the field setting outright; the key list is untouched. */
    method SetContextField(ctxField: string)
      modifies this`contextField
      ensures GetContextField() == ctxField
      ensures GetContextKeys() == old(GetContextKeys())
    {
      contextField := ctxField;
    }

    function GetContextKeys(): (keys: seq<string>)
      reads this
    {
      contextKeys
    }

    /** Replaces the key list outright (no merge); the field setting is untouched. */
    method SetContextKeys(ctxKeys: seq<string>)
      modifies this`contextKeys
      ensures GetContextKeys() == ctxKeys
      ensures GetContextField() == old(GetContextField())
    {
      contextKeys := ctxKeys;
    }

    /**
     Rewrites the entry's fields: resolves the context field, and if it holds
     a context, deletes it and copies every configured key with a non-nil
     value into the field of that name.  Never reports an error (`None` is
     Go's `nil` error).  The ghost result `consumed` names the field the call
     consumed, if any; under the wildcard it depends on the scan order.
     */
    method Fire(entry: Entry) returns (err: Option<string>, ghost consumed: Option<string>)
      modifies entry
      ensures err == None
      ensures Resolves(old(entry.data), contextField, consumed)
      ensures entry.data == Outcome(old(entry.data), consumed, contextKeys)
    {
      consumed := None;
      var field := contextField;
      if field == Wildcard {
        field := FirstContextField(entry.data);
      }
      if field == Wildcard {
        return None, consumed;
      }
      if field !in entry.data {
        return None, consumed;
      }
      var candidate := entry.data[field];
      if !IsContext(candidate) {
        return None, consumed;
      }
      var ctx := candidate.lookup;
      consumed := Some(field);

      entry.data := entry.data - {field};
      for i := 0 to |contextKeys|
        invariant entry.data == Extract(old(entry.data) - {field}, ctx, contextKeys[..i])
      {
        var key := contextKeys[i];
        var value := ctx(key);
        if value.Some? {
          entry.data := entry.data[key := value.value];
        }
        assert contextKeys[..i + 1][..i] == contextKeys[..i];
      }
      assert contextKeys[..|contextKeys|] == contextKeys;
      return None, consumed;
    }

    /**
     The levels the hook applies to: each of the six from Debug up to Panic
     once, from least to most severe; Trace is not among them.
     */
    function Levels(): (r: seq<Level>)
      ensures |r| == 6
      ensures forall l :: l in r <==> l != TraceLevel
      ensures forall i :: 0 < i < |r| ==> Severity(r[i]) < Severity(r[i - 1])
    {
      var r := [DebugLevel, InfoLevel, WarnLevel, ErrorLevel, FatalLevel, PanicLevel];
      assert forall l: Level :: l.TraceLevel? || l in r;
      r
    }
  }
}
