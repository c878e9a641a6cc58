# logrus_context_hook in Dafny

A model of `contextHookImpl`, a hook for the logrus logger. On every log
entry the hook finds a field that holds a Go `context.Context`, deletes that
field, and copies a configured list of keys out of the context into the
entry's fields under the keys' own names. The field is either a configured
name or, under the wildcard `"*"`, the first context-valued field met while
ranging over the entry's field map. The hook holds two settings that callers
can replace at any time: the field name (`contextField`) and the key list
(`contextKeys`).

Layout:

- `logrus.dfy` (module `Logrus`): the host-side types. `Value` is a field
  value: `Ctx(lookup)` for a context, where `lookup` is `ctx.Value(key)` with
  `None` for `nil`, or `Other(text)` for any other dynamic value. `Level` is
  logrus's severity levels. `Entry` is a class whose `data` map the hook
  rewrites in place.
- `fire_spec.dfy` (module `FireSpec`): what one `Fire` call does, as
  functions on maps:
  - `Resolves` says which field a call may consume.
  - `Extract` copies the non-nil key values, in list order.
  - `Outcome` gives the resulting map.
  - The lemmas prove the no-op cases, the insertions, the deletion and the
    frame.
- `context_hook.dfy` (module `ContextHook`): the class `ContextHookImpl` with
  its two fields, the constructor (`NewContextHook`), the getters and setters,
  `Fire` and `Levels`, and `FirstContextField`, the scanning loop of `Fire`'s
  wildcard branch. `Fire` is an imperative method over an `Entry`. Its
  contract ties the new field map to `Outcome` of the old one. Its ghost
  result `consumed` names the field the call consumed, if any.
- `scenarios.dfy` (module `Scenarios`): the behaviours exercised by
  `ContextHook_test.go`, as lemmas. `HookModificationScenario` is a caller of
  the class that replays `TestHookModification`: first the named field, then
  the switch to `"*"`, then the key list extended by `"UserId"`. The getters
  have no contract of their own. The constructor's and setters' contracts are
  stated through them, and `HookModificationScenario` reads the key list back
  through `GetContextKeys`.

Go ranges over a map in a randomized order, so the wildcard scan is a
nondeterministic choice (`:|`) of the next unvisited field. The model fixes
no priority among context-valued fields.

The comment at `ContextHook.go:88` says the hook operates on all levels, but
`Levels` (lines 89-97) lists six: Debug, Info, Warn, Error, Fatal and Panic.
With a logrus release that defines `TraceLevel`, trace entries never reach
the hook. The model follows the code, and `Levels`' contract states that
`TraceLevel` is absent.

## Model

| member | source | states |
|---|---|---|
| `ContextHook.ContextHookImpl.constructor` | ContextHook.go:23-28 | both settings are stored as given, and the getters return them; no validation |
| `ContextHook.ContextHookImpl.SetContextField` | ContextHook.go:30-36 | after the call `GetContextField` returns exactly the new field; the key list is unchanged |
| `ContextHook.ContextHookImpl.SetContextKeys` | ContextHook.go:38-44 | after the call `GetContextKeys` returns exactly the new list (replaced whole, no merge); the field setting is unchanged |
| `ContextHook.FirstContextField` | ContextHook.go:50-57 | a result other than "*" is a field of the entry holding a context; "*" comes back only when no field holds a context or the field literally named "*" does |
| `ContextHook.ContextHookImpl.Fire` | ContextHook.go:46-86 | always returns a nil error; the consumed field is one `Resolves` allows; the new field map is `Outcome` of the old map, the consumed field and the configured keys |
| `ContextHook.ContextHookImpl.Levels` | ContextHook.go:88-98 | six distinct levels, every level except Trace, in strictly increasing severity (Debug, Info, Warn, Error, Fatal, Panic) |
| `FireSpec.ExtractAt` | ContextHook.go:78-83 | after the key loop a field exists exactly when it existed before or a listed key has a non-nil value for it; it holds the context's value when a listed key supplies it, and its old value otherwise |
| `FireSpec.Resolves` | ContextHook.go:48-73 | which field a call may consume: in named mode the configured field exactly when present and holding a context; under the wildcard any context-valued field other than "*", or none when no field holds a context or "*" does (the early return at line 59); a consumed field always holds a context |
| `FireSpec.Extract` | ContextHook.go:78-83 | the key loop: the fields afterwards are the fields before plus one per listed key with a non-nil value; nil-valued keys add no field |
| `FireSpec.Outcome` | ContextHook.go:75-83 | the map after a call: unchanged when nothing is consumed; otherwise its fields are the old ones minus the consumed field plus one per listed key with a non-nil value |
| `FireSpec.ExtractExtendedKeys` | ContextHook_test.go:97 | replacing the key list by a superset (as the append does) keeps every field and every supplied value the old list produced, copies each added key's non-nil value, and leaves fields no new key supplies as the old list left them |
| `FireSpec.ResolvedFieldByMode` | ContextHook.go:50-73 | a consumed field is the configured one in named mode, and never "*" under the wildcard |
| `FireSpec.NamedMissingUnchanged` | ContextHook.go:63-67 | named mode, field absent: nothing is consumed and the entry is unchanged |
| `FireSpec.NamedNonContextUnchanged` | ContextHook.go:69-73 | named mode, field present but not a context: nothing is consumed and the entry is unchanged, whatever other fields hold |
| `FireSpec.WildcardNoContextUnchanged` | ContextHook.go:50-61 | wildcard mode with no context-valued field, or only one literally named "*": nothing is consumed and the entry is unchanged |
| `FireSpec.WildcardConsumesWhenPossible` | ContextHook.go:50-56 | under the wildcard any context-valued field other than "*" may be the consumed one, and unless "*" holds a context, a call with such a field must consume one |
| `FireSpec.OutcomeInserts` | ContextHook.go:78-83 | after a consuming call every listed key with a non-nil context value is a field holding exactly that value |
| `FireSpec.OutcomeDeletes` | ContextHook.go:75-83 | after a consuming call the consumed field is absent unless a listed key of the same name has a non-nil value |
| `FireSpec.OutcomeFrame` | ContextHook.go:75-83 | after a consuming call every other field that no listed key supplies is present exactly when it was before, with its old value; nil-valued keys create no field |
| `Scenarios.SoleContextConsumed` | ContextHook.go:46-76 | an entry whose only field (not "*") holds a context has that field consumed in both its named mode and the wildcard mode, leaving only what the keys extract |
| `Scenarios.ExtractOnly` | ContextHook.go:78-83 | extracting from a context that holds one key gives that single field when the key is listed, and an empty map when it is not |
| `Scenarios.WildcardScenario` | ContextHook_test.go:26-38 | wildcard mode, context with only ServerId under "X": "X" is consumed and the entry becomes exactly {ServerId: "DemoServer"}, with no RequestId or HostId field |
| `Scenarios.NamedWrongFieldScenario` | ContextHook_test.go:47-59 | named mode "Context", context under another field: nothing is consumed and the entry is unchanged |
| `Scenarios.HookModificationScenario` | ContextHook_test.go:62-103 | replaying the test with the real class: named field, a context under another field, switch to "*", a key not yet listed, then the list extended by "UserId"; the five entries end exactly as {ServerId}, unchanged, {RequestId}, empty and {UserId}, so reconfiguration does not touch earlier entries |
| `Scenarios.LogWithSoleContext` | ContextHook_test.go:77-101 | firing a hook configured for the field, or for "*", on an entry whose only field holds a one-key context leaves exactly that key's field if it is listed, and an empty entry otherwise |

## Left out

- The logrus pipeline: `AddHook`, `WithField`, `Infof`, formatting and output. This is foreign library code and I/O; the hook only sees the entry's field map.
- The real `context.Context`: `WithValue` chains, cancellation and non-string keys. It is modelled as a total lookup from string keys to an optional value. A typed nil pointer that Go would report as non-nil is not distinguished from nil.
- Concurrent, unsynchronized reads and writes of `contextField` and `contextKeys`. The model is a single-threaded sequence of calls.
- Slice aliasing: `GetContextKeys` returns a Go slice that shares its backing array, so an `append` by a caller can write into it. The key list is a value (`seq`) here.
- ContextHook.ContextHookImpl.Fire: its contract proves that every possible run ends in an outcome `Resolves` allows. It does not prove the converse, that every context-valued field can be picked by some iteration order of Go's map.
