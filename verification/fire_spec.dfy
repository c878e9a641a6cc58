/**
 What one call of the hook's `Fire` does to an entry's field map, stated as
 functions on values: which field may be consumed (`Resolves`), and the map
 that results once it is consumed (`Outcome`, built from `Extract`).
 */
module FireSpec {
  import opened Logrus

  /** The configured field name meaning "any field holding a context". */
  const Wildcard: string := "*"

  predicate IsContext(v: Value) {
    v.Ctx?
  }

  /** No field of `data` holds a context. */
  ghost predicate NoContext(data: map<string, Value>) {
    forall k :: k in data ==> !IsContext(data[k])
  }

  /**
   `consumed` is a field a call may consume, given the configured `field`.
   A named field is consumed exactly when it is present and holds a context.
   Under the wildcard, the map is scanned in an order Go leaves unspecified
   and the first context-valued field is taken; when that field is itself
   named "*", nothing is consumed, so nothing is also a possible answer when
   "*" holds a context, besides the case where no field does.  In either
   mode, a consumed field is a field of the entry that holds a context.
   */
  ghost predicate Resolves(data: map<string, Value>, field: string, consumed: Option<string>)
    ensures Resolves(data, field, consumed) && consumed.Some? ==>
      consumed.value in data && IsContext(data[consumed.value])
  {
    if field != Wildcard then
      consumed == (if field in data && IsContext(data[field]) then Some(field) else None)
    else
      match consumed
      case Some(k) => k != Wildcard && k in data && IsContext(data[k])
      case None => (Wildcard in data && IsContext(data[Wildcard])) || NoContext(data)
  }

  /** `key` is one of `keys` and the context has a non-nil value for it. */
  predicate Supplies(ctx: string -> Option<Value>, keys: seq<string>, key: string) {
    key in keys && ctx(key).Some?
  }

  /** The listed keys for which the context has a non-nil value. */
  ghost function SuppliedKeys(ctx: string -> Option<Value>, keys: seq<string>): set<string> {
    set k | k in keys && ctx(k).Some?
  }

  /**
   The field map after copying, key by key in list order, every non-nil
   context value into the field named by its key.  Its fields are the old
   ones plus one per supplied key; nil-valued keys add none.
   */
  function Extract(data: map<string, Value>, ctx: string -> Option<Value>, keys: seq<string>): (r: map<string, Value>)
    ensures r.Keys == data.Keys + SuppliedKeys(ctx, keys)
    decreases |keys|
  {
    if keys == [] then data
    else
      var before := Extract(data, ctx, keys[..|keys| - 1]);
      var key := keys[|keys| - 1];
      match ctx(key)
      case None => before
      case Some(v) => before[key := v]
  }

  /**
   The field map after a call that consumed `consumed`: unchanged when nothing
   was consumed; otherwise the field is deleted and the keys are extracted
   from the context it held: the consumed field is gone unless a supplied
   key re-creates it.
   */
  ghost function Outcome(data: map<string, Value>, consumed: Option<string>, keys: seq<string>): (r: map<string, Value>)
    requires consumed.Some? ==> consumed.value in data && IsContext(data[consumed.value])
    ensures consumed.None? ==> r == data
    ensures consumed.Some? ==>
      r.Keys == (data.Keys - {consumed.value}) + SuppliedKeys(data[consumed.value].lookup, keys)
  {
    match consumed
    case None => data
    case Some(f) => Extract(data - {f}, data[f].lookup, keys)
  }

  /**
   Pointwise meaning of `Extract`: a key holds the context's value when some
   listed key supplies it, and otherwise the field it held before, if any.
   */
  lemma {:induction false} ExtractAt(data: map<string, Value>, ctx: string -> Option<Value>, keys: seq<string>, k: string)
    ensures k in Extract(data, ctx, keys) <==> k in data || Supplies(ctx, keys, k)
    ensures Supplies(ctx, keys, k) ==> Extract(data, ctx, keys)[k] == ctx(k).value
    ensures !Supplies(ctx, keys, k) && k in data ==> Extract(data, ctx, keys)[k] == data[k]
    decreases |keys|
  {
    if keys != [] {
      var init := keys[..|keys| - 1];
      ExtractAt(data, ctx, init, k);
      assert keys == init + [keys[|keys| - 1]];
      assert k in keys <==> k in init || k == keys[|keys| - 1];
    }
  }

  /**
   Replacing the key list by one that contains every old key (what a caller
   does with `SetContextKeys(append(GetContextKeys(), key))`) loses nothing on
   later calls: every field the old list produced is still produced, every
   value an old key supplied is still copied, and each added key with a
   non-nil value is copied too.  A field no new key supplies keeps the value
   the old list left in it.
   */
  lemma {:induction false} ExtractExtendedKeys(data: map<string, Value>, ctx: string -> Option<Value>, keys: seq<string>, keys': seq<string>, k: string)
    requires forall j :: j in keys ==> j in keys'
    ensures k in Extract(data, ctx, keys) ==> k in Extract(data, ctx, keys')
    ensures Supplies(ctx, keys', k) ==> k in Extract(data, ctx, keys') && Extract(data, ctx, keys')[k] == ctx(k).value
    ensures Supplies(ctx, keys, k) ==> Extract(data, ctx, keys')[k] == Extract(data, ctx, keys)[k]
    ensures k in Extract(data, ctx, keys') && !Supplies(ctx, keys', k) ==>
      k in Extract(data, ctx, keys) && Extract(data, ctx, keys')[k] == Extract(data, ctx, keys)[k]
  {
    ExtractAt(data, ctx, keys, k);
    ExtractAt(data, ctx, keys', k);
  }

  /** The resolved field is the configured one in named mode, and never "*" under the wildcard. */
  lemma ResolvedFieldByMode(data: map<string, Value>, field: string, consumed: Option<string>)
    requires Resolves(data, field, consumed)
    requires consumed.Some?
    ensures field != Wildcard ==> consumed.value == field
    ensures field == Wildcard ==> consumed.value != Wildcard
  {
  }

  /** Named mode, field absent: the entry is unchanged. */
  lemma NamedMissingUnchanged(data: map<string, Value>, field: string, keys: seq<string>, consumed: Option<string>)
    requires field != Wildcard && field !in data
    requires Resolves(data, field, consumed)
    ensures consumed == None && Outcome(data, consumed, keys) == data
  {
  }

  /**
   Named mode, field present but not a context: the entry is unchanged, even
   when a context sits under some other field.
   */
  lemma NamedNonContextUnchanged(data: map<string, Value>, field: string, keys: seq<string>, consumed: Option<string>)
    requires field != Wildcard && field in data && !IsContext(data[field])
    requires Resolves(data, field, consumed)
    ensures consumed == None && Outcome(data, consumed, keys) == data
  {
  }

  /**
   Wildcard mode with no context-valued field other than one literally named
   "*": the entry is unchanged.
   */
  lemma WildcardNoContextUnchanged(data: map<string, Value>, keys: seq<string>, consumed: Option<string>)
    requires forall k :: k in data && IsContext(data[k]) ==> k == Wildcard
    requires Resolves(data, Wildcard, consumed)
    ensures consumed == None && Outcome(data, consumed, keys) == data
  {
  }

  /**
   Wildcard mode: any context-valued field other than "*" may be the one
   consumed, and unless "*" itself holds a context, some field must be.
   */
  lemma WildcardConsumesWhenPossible(data: map<string, Value>, k: string)
    requires k != Wildcard && k in data && IsContext(data[k])
    ensures Resolves(data, Wildcard, Some(k))
    ensures !(Wildcard in data && IsContext(data[Wildcard])) ==> !Resolves(data, Wildcard, None)
  {
  }

  /** A successful call writes every supplied key's context value under the key's own name. */
  lemma {:induction false} OutcomeInserts(data: map<string, Value>, f: string, keys: seq<string>, key: string)
    requires f in data && IsContext(data[f])
    requires Supplies(data[f].lookup, keys, key)
    ensures key in Outcome(data, Some(f), keys)
    ensures Outcome(data, Some(f), keys)[key] == data[f].lookup(key).value
  {
    ExtractAt(data - {f}, data[f].lookup, keys, key);
  }

  /**
   A successful call deletes the consumed field, which reappears only when a
   listed key of the same name has a non-nil value.
   */
  lemma {:induction false} OutcomeDeletes(data: map<string, Value>, f: string, keys: seq<string>)
    requires f in data && IsContext(data[f])
    ensures f in Outcome(data, Some(f), keys) <==> Supplies(data[f].lookup, keys, f)
  {
    ExtractAt(data - {f}, data[f].lookup, keys, f);
  }

  /**
   A successful call leaves every other field that no listed key supplies as
   it was, and creates no field for a key whose value is nil.
   */
  lemma {:induction false} OutcomeFrame(data: map<string, Value>, f: string, keys: seq<string>, k: string)
    requires f in data && IsContext(data[f])
    requires k != f && !Supplies(data[f].lookup, keys, k)
    ensures k in Outcome(data, Some(f), keys) <==> k in data
    ensures k in data ==> Outcome(data, Some(f), keys)[k] == data[k]
  {
    ExtractAt(data - {f}, data[f].lookup, keys, k);
  }
}
