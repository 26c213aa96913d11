/**
 * `getOptionsString`: rewrites an `sw-toolbox` options object into the
 * options of a `workbox-sw` strategy and serialises them.
 *
 * The source builds the result object by successive in-place updates; the
 * method `GetOptionsString` does the same on a `PlainObject` and is proved
 * equal to `EffectiveOptions`, a declarative description of the finished
 * object, about which the properties are then stated.
 */
module RuntimeCachingOptions {
  import opened JsValues
  import opened Json

  /** A mutable plain JavaScript object. */
  class PlainObject {
    var fields: seq<Field>

    constructor (init: seq<Field>)
      ensures fields == init
    {
      fields := init;
    }

    /** `o[k]` */
    function Get(k: string): Value
      reads this
    {
      Lookup(fields, k)
    }

    /** `o[k] = v` */
    method Set(k: string, v: Value)
      modifies this
      ensures fields == Put(old(fields), k, v)
    {
      fields := Put(fields, k, v);
    }

    /** `Object.assign(o, source)` */
    method AssignFrom(source: seq<Field>)
      modifies this
      ensures fields == AssignAll(old(fields), source)
    {
      var i := 0;
      while i < |source|
        invariant 0 <= i <= |source|
        invariant AssignAll(fields, source[i..]) == AssignAll(old(fields), source)
      {
        assert source[i..][1..] == source[i + 1..];
        Set(source[i].key, source[i].val);
        i := i + 1;
      }
      assert source[i..] == [];
    }
  }

  /** `options.cache || {}` */
  function CacheOptionsOf(options: Value): Value {
    Or(Get(options, "cache"), Obj([]))
  }

  /** The legacy options ask for expiration: `maxEntries || maxAgeSeconds`. */
  predicate ExpirationRequested(options: Value) {
    var cacheOptions := CacheOptionsOf(options);
    Truthy(Get(cacheOptions, "maxEntries")) || Truthy(Get(cacheOptions, "maxAgeSeconds"))
  }

  /**
   * A value that `JSON.stringify` writes out as the object of its own
   * enumerable properties: a plain object, or a RegExp (which has none of
   * its own until something is assigned to it).
   */
  predicate ShowsProperties(v: Value) {
    v.Obj? || v.Pattern?
  }

  /**
   * `Object.assign(existing || {}, {maxEntries, maxAgeSeconds})`. Both
   * properties are written even when their value is `undefined`. A plain
   * object or a RegExp gains them as own properties, and is modelled by the
   * plain object of its properties; a truthy primitive is wrapped (a
   * throwaway wrapper that serialises as the primitive) and a function is
   * omitted from JSON whatever it holds, so those are returned as they were.
   */
  function AssignExpiration(existing: Value, maxEntries: Value, maxAgeSeconds: Value): (r: Value)
    ensures ShowsProperties(existing) || !Truthy(existing) ==>
              && r.Obj?
              && Lookup(r.fields, "maxEntries") == maxEntries
              && Lookup(r.fields, "maxAgeSeconds") == maxAgeSeconds
              && forall k :: k != "maxEntries" && k != "maxAgeSeconds" ==> Lookup(r.fields, k) == Get(existing, k)
    ensures ShowsProperties(existing) || !Truthy(existing) ==>
              var own := OwnFields(existing);
              Keys(r.fields) == Keys(own) + (if HasKey(own, "maxEntries") then [] else ["maxEntries"])
                                          + (if HasKey(own, "maxAgeSeconds") then [] else ["maxAgeSeconds"])
    ensures Truthy(existing) && !ShowsProperties(existing) ==> r == existing
  {
    var target := Or(existing, Obj([]));
    if ShowsProperties(target) then
      KeyNamesDiffer();
      PutTwo(OwnFields(target), "maxEntries", maxEntries, "maxAgeSeconds", maxAgeSeconds);
      Obj(Put(Put(OwnFields(target), "maxEntries", maxEntries), "maxAgeSeconds", maxAgeSeconds))
    else
      target
  }

  /** The `cacheExpiration` object that results when expiration is requested. */
  function MergedExpiration(options: Value): Value {
    var cacheOptions := CacheOptionsOf(options);
    AssignExpiration(Get(options, "cacheExpiration"),
                     Get(cacheOptions, "maxEntries"), Get(cacheOptions, "maxAgeSeconds"))
  }

  /** The value of `cacheName`: the options' own `cacheName` wins over `cache.name`. */
  function CacheNameValue(options: Value): Value {
    var own := OwnFields(options);
    if HasKey(own, "cacheName") then Lookup(own, "cacheName")
    else Get(CacheOptionsOf(options), "name")
  }

  /** The options' own properties after the rewrite, each in its own place. */
  function Carried(fs: seq<Field>, requested: bool, merged: Value): (r: seq<Field>)
    ensures Keys(r) == Keys(fs)
  {
    if fs == [] then []
    else
      var f := fs[0];
      var v := if f.key == "cache" then Undefined
               else if f.key == "cacheExpiration" && requested then merged
               else f.val;
      [Field(f.key, v)] + Carried(fs[1..], requested, merged)
  }

  /**
   * The finished `effectiveOptions` object: `cacheName` first, then every
   * other own property of the options in order (`cache` blanked out,
   * `cacheExpiration` merged when requested), then a new `cacheExpiration`
   * and a new, blank, `cache` when those were not already there.
   */
  function EffectiveOptions(options: Value): seq<Field> {
    Assemble(CacheNameValue(options), OwnFields(options), ExpirationRequested(options), MergedExpiration(options))
  }

  function Assemble(cacheName: Value, own: seq<Field>, requested: bool, merged: Value): seq<Field> {
    [Field("cacheName", cacheName)]
    + Carried(Without(own, "cacheName"), requested, merged)
    + (if requested && !HasKey(own, "cacheExpiration") then [Field("cacheExpiration", merged)] else [])
    + (if !HasKey(own, "cache") then [Field("cache", Undefined)] else [])
  }

  /**
   * The text `getOptionsString(options)` returns. Reading `options.cache`
   * throws on `undefined` and `null`, so those are not accepted.
   */
  function OptionsString(options: Value): (r: string)
    requires !options.Undefined? && !options.Null?
    ensures |r| >= 2 && r[0] == '{' && r[|r| - 1] == '}'
  {
    Stringify(EffectiveOptions(options))
  }

  /**
   * `getOptionsString(options)`. Besides the JSON text it returns the value
   * the caller's own `options.cacheExpiration` holds afterwards: the copy
   * of `options` is shallow, so the merge writes into that very object.
   */
  method GetOptionsString(options: Value) returns (json: string, callerExpiration: Value)
    requires !options.Undefined? && !options.Null?
    requires DistinctKeys(OwnFields(options))
    ensures json == OptionsString(options)
    ensures callerExpiration == if ExpirationRequested(options) && ShowsProperties(Get(options, "cacheExpiration"))
                                then MergedExpiration(options) else Get(options, "cacheExpiration")
  {
    var cacheOptions := Or(Get(options, "cache"), Obj([]));
    var effective := new PlainObject([Field("cacheName", Get(cacheOptions, "name"))]);
    effective.AssignFrom(OwnFields(options));
    ghost var copied := effective.fields;
    callerExpiration := Get(options, "cacheExpiration");
    ghost var requested, m := ExpirationRequested(options), MergedExpiration(options);
    AssembleSteps(Get(cacheOptions, "name"), OwnFields(options), requested, m);
    assert effective.Get("cacheExpiration") == callerExpiration;

    var maxEntries, maxAgeSeconds := Get(cacheOptions, "maxEntries"), Get(cacheOptions, "maxAgeSeconds");
    assert requested == (Truthy(maxEntries) || Truthy(maxAgeSeconds));
    if Truthy(maxEntries) || Truthy(maxAgeSeconds) {
      var merged := MergeExpiration(effective.Get("cacheExpiration"), maxEntries, maxAgeSeconds);
      if ShowsProperties(callerExpiration) {
        // the object written into is the caller's own
        callerExpiration := merged;
      }
      effective.Set("cacheExpiration", merged);
    }
    ghost var withExpiration := effective.fields;
    assert withExpiration == if requested then Put(copied, "cacheExpiration", m) else copied;
    effective.Set("cache", Undefined);
    assert effective.fields == Put(withExpiration, "cache", Undefined);
    json := Stringify(effective.fields);
  }

  // ---------------------------------------------------------------------
  // Correctness of the step-by-step construction

  lemma {:induction false} CarriedIsSetValue(fs: seq<Field>, requested: bool, merged: Value)
    ensures Carried(fs, requested, merged)
         == SetValue(if requested then SetValue(fs, "cacheExpiration", merged) else fs, "cache", Undefined)
  {
    if fs != [] {
      CarriedIsSetValue(fs[1..], requested, merged);
    }
  }

  /** The property names the rewrite touches are pairwise different. */
  lemma KeyNamesDiffer()
    ensures "cacheExpiration" != "cacheName" && "cache" != "cacheName" && "cache" != "cacheExpiration"
    ensures "maxEntries" != "maxAgeSeconds" && "name" != "maxEntries" && "name" != "maxAgeSeconds"
  {
    assert |"name"| != |"maxEntries"| && |"name"| != |"maxAgeSeconds"|;
    assert |"cacheExpiration"| != |"cacheName"|;
    assert |"cache"| != |"cacheName"|;
    assert |"cache"| != |"cacheExpiration"|;
    assert "maxEntries"[3] != "maxAgeSeconds"[3];
  }

  lemma WithoutKeepsOtherKeys(own: seq<Field>)
    ensures HasKey(Without(own, "cacheName"), "cacheExpiration") == HasKey(own, "cacheExpiration")
    ensures HasKey(Without(own, "cacheName"), "cache") == HasKey(own, "cache")
  {
    KeyNamesDiffer();
  }

  /**
   * `Object.assign(existing || {}, {maxEntries, maxAgeSeconds})`: both
   * limits are written, one after the other, into a plain target object.
   */
  method MergeExpiration(existing: Value, maxEntries: Value, maxAgeSeconds: Value) returns (merged: Value)
    ensures merged == AssignExpiration(existing, maxEntries, maxAgeSeconds)
  {
    var target := Or(existing, Obj([]));
    merged := target;
    if ShowsProperties(target) {
      var expiration := new PlainObject(OwnFields(target));
      expiration.AssignFrom([Field("maxEntries", maxEntries), Field("maxAgeSeconds", maxAgeSeconds)]);
      AssignTwo(OwnFields(target), Field("maxEntries", maxEntries), Field("maxAgeSeconds", maxAgeSeconds));
      merged := Obj(expiration.fields);
    }
  }

  /** `Object.assign(fs, {a, b})` writes `a`, then `b`. */
  lemma AssignTwo(fs: seq<Field>, a: Field, b: Field)
    ensures AssignAll(fs, [a, b]) == Put(Put(fs, a.key, a.val), b.key, b.val)
  {
    assert [a, b][0] == a && [a, b][1..] == [b];
    assert AssignAll(fs, [a, b]) == AssignAll(Put(fs, a.key, a.val), [b]);
    assert [b][0] == b && [b][1..] == [];
    assert AssignAll(Put(fs, a.key, a.val), [b]) == AssignAll(Put(Put(fs, a.key, a.val), b.key, b.val), []);
  }

  /** Step 1: `Object.assign({cacheName: name}, own)`. */
  lemma CopyStep(name: Value, own: seq<Field>)
    requires DistinctKeys(own)
    ensures var cn := Field("cacheName", if HasKey(own, "cacheName") then Lookup(own, "cacheName") else name);
            var copied := [cn] + Without(own, "cacheName");
            && AssignAll([Field("cacheName", name)], own) == copied
            && Lookup(copied, "cacheExpiration") == Lookup(own, "cacheExpiration")
            && DistinctKeys(copied)
  {
    var cn := [Field("cacheName", if HasKey(own, "cacheName") then Lookup(own, "cacheName") else name)];
    var w := Without(own, "cacheName");
    WithoutDistinct(own, "cacheName");
    AssignOverFirstKey("cacheName", name, [], own);
    assert [Field("cacheName", name)] + [] == [Field("cacheName", name)];
    assert cn + [] + w == cn + w;
    LookupAppend(cn, w, "cacheExpiration");
    LookupWithout(own, "cacheName", "cacheExpiration");
    DistinctAppend(cn, w);
  }

  /** The properties after `cacheName` once step 2 has run. */
  function AfterExpiration(w: seq<Field>, requested: bool, m: Value): seq<Field> {
    if requested then SetValue(w, "cacheExpiration", m) else w
  }

  /** The property step 2 appends, if any. */
  function AppendedExpiration(w: seq<Field>, requested: bool, m: Value): seq<Field> {
    if requested && !HasKey(w, "cacheExpiration") then [Field("cacheExpiration", m)] else []
  }

  /** Step 2: `effectiveOptions.cacheExpiration = …` when expiration is requested. */
  lemma ExpirationStep(cn: Field, w: seq<Field>, requested: bool, m: Value)
    requires cn.key == "cacheName" && DistinctKeys([cn] + w) && !HasKey(w, "cacheName")
    ensures (if requested then Put([cn] + w, "cacheExpiration", m) else [cn] + w)
         == [cn] + AfterExpiration(w, requested, m) + AppendedExpiration(w, requested, m)
  {
    if requested {
      HasKeyAppend([cn], w, "cacheExpiration");
      if HasKey(w, "cacheExpiration") {
        PutPresent([cn] + w, "cacheExpiration", m);
        SetValueAppend([cn], w, "cacheExpiration", m);
      } else {
        PutAbsent([cn] + w, "cacheExpiration", m);
        SetValueAbsent(w, "cacheExpiration", m);
      }
    } else {
      assert [cn] + w + [] == [cn] + w;
    }
  }

  /** Step 3: `effectiveOptions.cache = undefined`. */
  lemma CacheStep(cn: Field, w2: seq<Field>, x: seq<Field>)
    requires cn.key == "cacheName" && DistinctKeys([cn] + w2 + x)
    requires !HasKey(x, "cache")
    ensures Put([cn] + w2 + x, "cache", Undefined)
         == [cn] + SetValue(w2, "cache", Undefined) + x
            + (if !HasKey(w2, "cache") then [Field("cache", Undefined)] else [])
  {
    HasKeyAppend([cn], w2, "cache");
    HasKeyAppend([cn] + w2, x, "cache");
    if HasKey(w2, "cache") {
      PutPresent([cn] + w2 + x, "cache", Undefined);
      SetValueAppend([cn] + w2, x, "cache", Undefined);
      SetValueAppend([cn], w2, "cache", Undefined);
      SetValueAbsent(x, "cache", Undefined);
    } else {
      PutAbsent([cn] + w2 + x, "cache", Undefined);
      SetValueAbsent(w2, "cache", Undefined);
    }
  }

  /** Steps 2 and 3 keep the keys distinct, which step 3 relies on. */
  lemma ExpirationStepDistinct(cn: Field, w: seq<Field>, requested: bool, m: Value)
    requires cn.key == "cacheName" && DistinctKeys([cn] + w) && !HasKey(w, "cacheName")
    ensures DistinctKeys([cn] + AfterExpiration(w, requested, m) + AppendedExpiration(w, requested, m))
    ensures forall k :: HasKey(AfterExpiration(w, requested, m), k) <==> HasKey(w, k)
    ensures !HasKey(AppendedExpiration(w, requested, m), "cache")
  {
    var w2 := AfterExpiration(w, requested, m);
    var x := AppendedExpiration(w, requested, m);
    forall k ensures HasKey(w2, k) <==> HasKey(w, k) {
      SetValueHasKey(w, "cacheExpiration", m, k);
    }
    assert DistinctKeys(w) by { assert ([cn] + w)[1..] == w; }
    if requested { SetValueDistinct(w, "cacheExpiration", m); }
    DistinctAppend([cn], w2);
    forall k | HasKey([cn] + w2, k) ensures !HasKey(x, k) {
      HasKeyAppend([cn], w2, k);
    }
    DistinctAppend([cn] + w2, x);
    KeyNamesDiffer();
    OptionalField(requested && !HasKey(w, "cacheExpiration"), Field("cacheExpiration", m), "cache");
  }

  /** `Assemble` is what the source's sequence of updates produces. */
  lemma AssembleSteps(name: Value, own: seq<Field>, requested: bool, m: Value)
    requires DistinctKeys(own)
    ensures var copied := AssignAll([Field("cacheName", name)], own);
            var withExpiration := if requested then Put(copied, "cacheExpiration", m) else copied;
            var cacheName := if HasKey(own, "cacheName") then Lookup(own, "cacheName") else name;
            && Lookup(copied, "cacheExpiration") == Lookup(own, "cacheExpiration")
            && Assemble(cacheName, own, requested, m) == Put(withExpiration, "cache", Undefined)
  {
    var cn := Field("cacheName", if HasKey(own, "cacheName") then Lookup(own, "cacheName") else name);
    var w := Without(own, "cacheName");
    var copied := AssignAll([Field("cacheName", name)], own);
    CopyStep(name, own);
    var withExpiration := if requested then Put(copied, "cacheExpiration", m) else copied;
    var w2 := AfterExpiration(w, requested, m);
    var x := AppendedExpiration(w, requested, m);
    assert withExpiration == [cn] + w2 + x by {
      ExpirationStep(cn, w, requested, m);
    }
    var y := if !HasKey(w2, "cache") then [Field("cache", Undefined)] else [];
    assert Put(withExpiration, "cache", Undefined) == [cn] + SetValue(w2, "cache", Undefined) + x + y by {
      ExpirationStepDistinct(cn, w, requested, m);
      CacheStep(cn, w2, x);
    }
    AssembleAsSteps(cn, own, requested, m);
  }

  /** `Assemble` in terms of the lists the three steps leave behind. */
  lemma AssembleAsSteps(cn: Field, own: seq<Field>, requested: bool, m: Value)
    requires cn.key == "cacheName"
    ensures var w := Without(own, "cacheName");
            var w2 := AfterExpiration(w, requested, m);
            Assemble(cn.val, own, requested, m)
            == [cn] + SetValue(w2, "cache", Undefined) + AppendedExpiration(w, requested, m)
               + (if !HasKey(w2, "cache") then [Field("cache", Undefined)] else [])
  {
    var w := Without(own, "cacheName");
    CarriedIsSetValue(w, requested, m);
    SetValueHasKey(w, "cacheExpiration", m, "cache");
    WithoutKeepsOtherKeys(own);
  }

  // ---------------------------------------------------------------------
  // Properties of the rewritten options

  lemma {:induction false} LookupCarried(fs: seq<Field>, requested: bool, merged: Value, k: string)
    ensures Lookup(Carried(fs, requested, merged), k)
         == if k == "cache" && HasKey(fs, k) then Undefined
            else if k == "cacheExpiration" && requested && HasKey(fs, k) then merged
            else Lookup(fs, k)
  {
    if fs != [] {
      LookupCarried(fs[1..], requested, merged, k);
    }
  }

  lemma {:induction false} CarriedHidesCache(fs: seq<Field>, requested: bool, merged: Value)
    ensures "cache" !in EmittedKeys(Carried(fs, requested, merged))
  {
    if fs != [] {
      CarriedHidesCache(fs[1..], requested, merged);
      KeyNamesDiffer();
    }
  }

  /**
   * The JSON text never has a `cache` property: whatever `options.cache`
   * held, the property is `undefined` in the finished object.
   */
  lemma NoCacheInOutput(options: Value)
    ensures Lookup(EffectiveOptions(options), "cache") == Undefined
    ensures "cache" !in EmittedKeys(EffectiveOptions(options))
  {
    var cnv, own := CacheNameValue(options), OwnFields(options);
    var requested, m := ExpirationRequested(options), MergedExpiration(options);
    AssembleLooksUpCacheUndefined(cnv, own, requested, m);
    AssembleEmitsNoCache(cnv, own, requested, m);
  }

  lemma AssembleLooksUpCacheUndefined(cnv: Value, own: seq<Field>, requested: bool, m: Value)
    ensures Lookup(Assemble(cnv, own, requested, m), "cache") == Undefined
  {
    var w := Without(own, "cacheName");
    var bx, bc := requested && !HasKey(own, "cacheExpiration"), !HasKey(own, "cache");
    var fx, fc := Field("cacheExpiration", m), Field("cache", Undefined);
    var carried := Carried(w, requested, m);
    KeyNamesDiffer();
    LookupFour(Field("cacheName", cnv), carried, if bx then [fx] else [], if bc then [fc] else [], "cache");
    OptionalField(bx, fx, "cache");
    OptionalField(bc, fc, "cache");
    LookupCarried(w, requested, m, "cache");
  }

  lemma AssembleEmitsNoCache(cnv: Value, own: seq<Field>, requested: bool, m: Value)
    ensures "cache" !in EmittedKeys(Assemble(cnv, own, requested, m))
  {
    var w := Without(own, "cacheName");
    var bx, bc := requested && !HasKey(own, "cacheExpiration"), !HasKey(own, "cache");
    var fx, fc := Field("cacheExpiration", m), Field("cache", Undefined);
    var carried := Carried(w, requested, m);
    KeyNamesDiffer();
    EmittedKeysFour(Field("cacheName", cnv), carried, if bx then [fx] else [], if bc then [fc] else []);
    EmittedKeysSingle(Field("cacheName", cnv));
    EmittedKeysOptional(bx, fx);
    EmittedKeysOptional(bc, fc);
    CarriedHidesCache(w, requested, m);
  }

  /**
   * `cacheName` is always the first property. Its value is the options'
   * own `cacheName` when they have one, and `cache.name` otherwise; it is
   * the first key of the JSON text whenever that value is emitted.
   */
  lemma CacheNameFirst(options: Value)
    ensures EffectiveOptions(options)[0].key == "cacheName"
    ensures Lookup(EffectiveOptions(options), "cacheName")
         == if HasKey(OwnFields(options), "cacheName") then Lookup(OwnFields(options), "cacheName")
            else Get(CacheOptionsOf(options), "name")
    ensures Emitted(CacheNameValue(options)) ==> EmittedKeys(EffectiveOptions(options))[0] == "cacheName"
  {
    var eff := EffectiveOptions(options);
    assert eff == [eff[0]] + eff[1..];
    EmittedKeysAppend([eff[0]], eff[1..]);
  }

  /**
   * The keys of the finished object, in order: `cacheName`, the options'
   * own keys in their order, then `cacheExpiration` and `cache` if they
   * were not among them.
   */
  lemma KeyOrder(options: Value)
    ensures var own := OwnFields(options);
            Keys(EffectiveOptions(options))
            == ["cacheName"] + Keys(Without(own, "cacheName"))
               + (if ExpirationRequested(options) && !HasKey(own, "cacheExpiration") then ["cacheExpiration"] else [])
               + (if !HasKey(own, "cache") then ["cache"] else [])
  {
    var own := OwnFields(options);
    var requested, m := ExpirationRequested(options), MergedExpiration(options);
    var bx, bc := requested && !HasKey(own, "cacheExpiration"), !HasKey(own, "cache");
    var fx, fc := Field("cacheExpiration", m), Field("cache", Undefined);
    KeysFour(Field("cacheName", CacheNameValue(options)), Carried(Without(own, "cacheName"), requested, m),
             if bx then [fx] else [], if bc then [fc] else []);
    OptionalField(bx, fx, "cache");
    OptionalField(bc, fc, "cache");
  }

  /** Every option other than the three rewritten ones reaches the output unchanged. */
  lemma OtherOptionsKept(options: Value, k: string)
    requires k != "cacheName" && k != "cache" && k != "cacheExpiration"
    ensures Lookup(EffectiveOptions(options), k) == Get(options, k)
  {
    var own := OwnFields(options);
    var requested, m := ExpirationRequested(options), MergedExpiration(options);
    var w := Without(own, "cacheName");
    var bx, bc := requested && !HasKey(own, "cacheExpiration"), !HasKey(own, "cache");
    var fx, fc := Field("cacheExpiration", m), Field("cache", Undefined);
    var carried := Carried(w, requested, m);
    LookupFour(Field("cacheName", CacheNameValue(options)), carried, if bx then [fx] else [], if bc then [fc] else [], k);
    OptionalField(bx, fx, k);
    OptionalField(bc, fc, k);
    LookupCarried(w, requested, m, k);
    LookupWithout(own, "cacheName", k);
  }

  /**
   * `cacheExpiration` is replaced by the merged object exactly when
   * `cache.maxEntries` or `cache.maxAgeSeconds` is truthy, and is the
   * options' own `cacheExpiration` otherwise.
   */
  lemma ExpirationOutcome(options: Value)
    ensures Lookup(EffectiveOptions(options), "cacheExpiration")
         == if ExpirationRequested(options) then MergedExpiration(options) else Get(options, "cacheExpiration")
  {
    var own := OwnFields(options);
    var requested, m := ExpirationRequested(options), MergedExpiration(options);
    var w := Without(own, "cacheName");
    var bx, bc := requested && !HasKey(own, "cacheExpiration"), !HasKey(own, "cache");
    var fx, fc := Field("cacheExpiration", m), Field("cache", Undefined);
    var carried := Carried(w, requested, m);
    KeyNamesDiffer();
    LookupFour(Field("cacheName", CacheNameValue(options)), carried, if bx then [fx] else [], if bc then [fc] else [],
               "cacheExpiration");
    OptionalField(bx, fx, "cacheExpiration");
    OptionalField(bc, fc, "cacheExpiration");
    LookupCarried(w, requested, m, "cacheExpiration");
    LookupWithout(own, "cacheName", "cacheExpiration");
    WithoutKeepsOtherKeys(own);
    HasKeyInKeys(carried, "cacheExpiration");
    HasKeyInKeys(w, "cacheExpiration");
  }

  /**
   * When expiration is requested and `cacheExpiration` is a plain object,
   * a RegExp, or falsy (absent), both limits are written into it from `cache`, even one
   * that is `undefined` there, overwriting what the object held; its other
   * properties stay.
   */
  lemma ExpirationOverwritesBoth(options: Value)
    requires ExpirationRequested(options)
    requires ShowsProperties(Get(options, "cacheExpiration")) || !Truthy(Get(options, "cacheExpiration"))
    ensures var e := Lookup(EffectiveOptions(options), "cacheExpiration");
            && e.Obj?
            && Lookup(e.fields, "maxEntries") == Get(CacheOptionsOf(options), "maxEntries")
            && Lookup(e.fields, "maxAgeSeconds") == Get(CacheOptionsOf(options), "maxAgeSeconds")
            && forall k :: k != "maxEntries" && k != "maxAgeSeconds" ==>
                 Lookup(e.fields, k) == Get(Get(options, "cacheExpiration"), k)
  {
    ExpirationOutcome(options);
  }

  // ---------------------------------------------------------------------
  // Examples

  /** Empty options serialise as `{}`, and so do missing ones once `|| {}` has replaced them. */
  lemma EmptyOptionsExample()
    ensures OptionsString(Obj([])) == "{}"
    ensures OptionsString(Or(Undefined, Obj([]))) == "{}"
  {
    EmptyOptionsText(Obj([]));
  }

  lemma EmptyOptionsText(options: Value)
    requires !options.Undefined? && !options.Null?
    requires OwnFields(options) == []
    ensures OptionsString(options) == "{}"
  {
    var eff := EffectiveOptions(options);
    assert CacheOptionsOf(options) == Obj([]);
    assert !ExpirationRequested(options);
    assert eff == [Field("cacheName", Undefined), Field("cache", Undefined)];
    assert eff[1..] == [Field("cache", Undefined)];
    EmittedKeysSingle(eff[1]);
    ObjectEmptyIff(eff, "");
  }

  /** The finished object for options whose only own property is `cache`. */
  lemma AssembleCacheOnly(cnv: Value, v: Value, requested: bool, m: Value)
    ensures Assemble(cnv, [Field("cache", v)], requested, m)
         == [Field("cacheName", cnv), Field("cache", Undefined)]
            + (if requested then [Field("cacheExpiration", m)] else [])
  {
    var own := [Field("cache", v)];
    KeyNamesDiffer();
    SingleField(own[0], "cacheName");
    SingleField(own[0], "cacheExpiration");
    SingleField(own[0], "cache");
    assert own[1..] == [];
    assert Without(own, "cacheName") == own;
    assert Carried(own, requested, m) == [Field("cache", Undefined)];
  }

  /**
   * `{cache: {name: "X", maxEntries: 5}}` gives `cacheName` "X", first, and
   * a new `cacheExpiration` whose `maxEntries` is 5 and whose
   * `maxAgeSeconds` is `undefined`, so left out of the text.
   */
  lemma CacheNameAndLimitExample()
    ensures var eff := EffectiveOptions(Obj([Field("cache", Obj([Field("name", Str("X")), Field("maxEntries", Num(5))]))]));
            && eff[0] == Field("cacheName", Str("X"))
            && Lookup(eff, "cacheExpiration").Obj?
            && Lookup(Lookup(eff, "cacheExpiration").fields, "maxEntries") == Num(5)
            && Lookup(Lookup(eff, "cacheExpiration").fields, "maxAgeSeconds") == Undefined
            && "cache" !in EmittedKeys(eff)
  {
    KeyNamesDiffer();
    var fn, fm := Field("name", Str("X")), Field("maxEntries", Num(5));
    var cache := Obj([fn, fm]);
    var fc := Field("cache", cache);
    var options := Obj([fc]);
    SingleField(fc, "cache");
    SingleField(fc, "cacheName");
    SingleField(fc, "cacheExpiration");
    TwoFields(fn, fm, "name");
    TwoFields(fn, fm, "maxEntries");
    TwoFields(fn, fm, "maxAgeSeconds");
    assert CacheOptionsOf(options) == cache;
    CacheNameFirst(options);
    ExpirationOverwritesBoth(options);
    NoCacheInOutput(options);
  }

  /**
   * `{cacheExpiration: {maxEntries: 10}, cache: {maxAgeSeconds: 60}}`: the
   * existing limit of 10 entries is lost, overwritten by `undefined`.
   */
  lemma ExpirationClobberExample()
    ensures var eff := EffectiveOptions(Obj([Field("cacheExpiration", Obj([Field("maxEntries", Num(10))])),
                                             Field("cache", Obj([Field("maxAgeSeconds", Num(60))]))]));
            && Lookup(eff, "cacheExpiration").Obj?
            && Lookup(Lookup(eff, "cacheExpiration").fields, "maxEntries") == Undefined
            && Lookup(Lookup(eff, "cacheExpiration").fields, "maxAgeSeconds") == Num(60)
  {
    KeyNamesDiffer();
    var fa := Field("maxAgeSeconds", Num(60));
    var cache := Obj([fa]);
    var fe, fc := Field("cacheExpiration", Obj([Field("maxEntries", Num(10))])), Field("cache", cache);
    var options := Obj([fe, fc]);
    TwoFields(fe, fc, "cache");
    TwoFields(fe, fc, "cacheExpiration");
    SingleField(fa, "maxEntries");
    SingleField(fa, "maxAgeSeconds");
    assert CacheOptionsOf(options) == cache;
    ExpirationOverwritesBoth(options);
  }

  /** A limit of 0 is falsy, so `{cache: {maxEntries: 0}}` asks for no expiration. */
  lemma ZeroLimitExample()
    ensures !ExpirationRequested(Obj([Field("cache", Obj([Field("maxEntries", Num(0))]))]))
    ensures OptionsString(Obj([Field("cache", Obj([Field("maxEntries", Num(0))]))])) == "{}"
  {
    KeyNamesDiffer();
    var fm := Field("maxEntries", Num(0));
    var cache := Obj([fm]);
    var fc := Field("cache", cache);
    var options := Obj([fc]);
    SingleField(fc, "cache");
    SingleField(fc, "cacheName");
    SingleField(fm, "maxEntries");
    SingleField(fm, "maxAgeSeconds");
    SingleField(fm, "name");
    assert CacheOptionsOf(options) == cache;
    assert !ExpirationRequested(options);
    assert CacheNameValue(options) == Undefined;
    AssembleCacheOnly(Undefined, cache, false, MergedExpiration(options));
    var a, b := Field("cacheName", Undefined), Field("cache", Undefined);
    assert EffectiveOptions(options) == [a, b] + [];
    assert [a, b] + [] == [a] + [b];
    EmittedKeysAppend([a], [b]);
    EmittedKeysSingle(a);
    EmittedKeysSingle(b);
    ObjectEmptyIff([a] + [b], "");
  }

  /** An own `cacheName` beats `cache.name`: `{cacheName: "b", cache: {name: "a"}}`. */
  lemma OwnCacheNameExample()
    ensures var eff := EffectiveOptions(Obj([Field("cacheName", Str("b")), Field("cache", Obj([Field("name", Str("a"))]))]));
            && eff[0] == Field("cacheName", Str("b"))
            && Lookup(eff, "cacheName") == Str("b")
  {
    KeyNamesDiffer();
    var fn, fc := Field("cacheName", Str("b")), Field("cache", Obj([Field("name", Str("a"))]));
    TwoFields(fn, fc, "cacheName");
    CacheNameFirst(Obj([fn, fc]));
  }
}
