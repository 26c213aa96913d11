/**
 * The JavaScript values that flow through the runtime-caching converter:
 * route descriptor fields, the legacy `options` object and everything
 * nested in it. A plain object is an ordered list of own enumerable
 * properties, in the order JavaScript enumerates them.
 */
module JsValues {

  datatype Value =
    | Undefined
    | Null
    | Bool(b: bool)
    | Num(n: int)
    | Str(s: string)
    /** a plain object: its own enumerable properties in enumeration order */
    | Obj(fields: seq<Field>)
    /** a function, carrying the source text that `${f}` produces */
    | Fn(source: string)
    /** a RegExp, carrying the literal text that `${re}` produces */
    | Pattern(source: string)

  datatype Field = Field(key: string, val: Value)

  /** JavaScript's ToBoolean. */
  predicate Truthy(v: Value) {
    match v
    case Undefined => false
    case Null => false
    case Bool(b) => b
    case Num(n) => n != 0
    case Str(s) => s != ""
    case _ => true
  }

  /** `a || b` */
  function Or(a: Value, b: Value): (r: Value)
    ensures Truthy(a) ==> r == a
    ensures !Truthy(a) ==> r == b
  {
    if Truthy(a) then a else b
  }

  // ---------------------------------------------------------------------
  // Decimal text of integers (Number's ToString on integral values)

  function DigitChar(d: nat): (c: char)
    requires d < 10
    ensures '0' <= c <= '9'
  {
    "0123456789"[d]
  }

  function NatToString(n: nat): (s: string)
    ensures |s| > 0
    ensures forall i :: 0 <= i < |s| ==> '0' <= s[i] <= '9'
    decreases n
  {
    if n < 10 then [DigitChar(n)] else NatToString(n / 10) + [DigitChar(n % 10)]
  }

  function IntToString(n: int): string {
    if n < 0 then "-" + NatToString(-n) else NatToString(n)
  }

  /**
   * The text a template literal `${v}` inserts for `v`. Functions and
   * RegExps contribute their own source text; a plain object its default
   * `toString`.
   */
  function TemplateText(v: Value): string {
    match v
    case Undefined => "undefined"
    case Null => "null"
    case Bool(b) => if b then "true" else "false"
    case Num(n) => IntToString(n)
    case Str(s) => s
    case Obj(_) => "[object Object]"
    case Fn(src) => src
    case Pattern(src) => src
  }

  // ---------------------------------------------------------------------
  // Ordered property lists

  function Keys(fs: seq<Field>): (ks: seq<string>)
    ensures |ks| == |fs|
  {
    if fs == [] then [] else [fs[0].key] + Keys(fs[1..])
  }

  predicate HasKey(fs: seq<Field>, k: string) {
    fs != [] && (fs[0].key == k || HasKey(fs[1..], k))
  }

  /** No key occurs twice: what every real JavaScript object satisfies. */
  predicate DistinctKeys(fs: seq<Field>) {
    fs == [] || (!HasKey(fs[1..], fs[0].key) && DistinctKeys(fs[1..]))
  }

  /** Property read `o[k]` on a property list: `undefined` when absent. */
  function Lookup(fs: seq<Field>, k: string): (v: Value)
    ensures !HasKey(fs, k) ==> v == Undefined
  {
    if fs == [] then Undefined
    else if fs[0].key == k then fs[0].val
    else Lookup(fs[1..], k)
  }

  /** The own enumerable properties `Object.assign` copies out of a source value. */
  function OwnFields(v: Value): seq<Field> {
    if v.Obj? then v.fields else []
  }

  /** Property read `v.k` on an arbitrary value. */
  function Get(v: Value, k: string): Value {
    Lookup(OwnFields(v), k)
  }

  /**
   * Property write `o[k] = v`: an existing key keeps its position and gets
   * the new value; a new key is appended.
   */
  function Put(fs: seq<Field>, k: string, v: Value): (r: seq<Field>)
    ensures Lookup(r, k) == v
    ensures forall k' :: k' != k ==> Lookup(r, k') == Lookup(fs, k')
    ensures HasKey(fs, k) ==> Keys(r) == Keys(fs)
    ensures !HasKey(fs, k) ==> Keys(r) == Keys(fs) + [k]
  {
    if fs == [] then [Field(k, v)]
    else if fs[0].key == k then [Field(k, v)] + fs[1..]
    else [fs[0]] + Put(fs[1..], k, v)
  }

  /** `Object.assign(target, source)`: each source property written in turn. */
  function AssignAll(target: seq<Field>, source: seq<Field>): seq<Field>
    decreases |source|
  {
    if source == [] then target
    else AssignAll(Put(target, source[0].key, source[0].val), source[1..])
  }

  /** `fs` with every property named `k` removed. */
  function Without(fs: seq<Field>, k: string): (r: seq<Field>)
    ensures !HasKey(r, k)
    ensures forall k' :: k' != k ==> (HasKey(r, k') <==> HasKey(fs, k'))
  {
    if fs == [] then []
    else if fs[0].key == k then Without(fs[1..], k)
    else [fs[0]] + Without(fs[1..], k)
  }

  /** Every property named `k` gets value `v`; nothing moves. */
  function SetValue(fs: seq<Field>, k: string, v: Value): (r: seq<Field>)
    ensures Keys(r) == Keys(fs)
  {
    if fs == [] then []
    else [if fs[0].key == k then Field(k, v) else fs[0]] + SetValue(fs[1..], k, v)
  }

  // ---------------------------------------------------------------------
  // Lemmas about property lists

  lemma {:induction false} HasKeyInKeys(fs: seq<Field>, k: string)
    ensures HasKey(fs, k) <==> k in Keys(fs)
  {
    if fs != [] {
      HasKeyInKeys(fs[1..], k);
    }
  }

  lemma SingleField(f: Field, k: string)
    ensures HasKey([f], k) <==> f.key == k
    ensures Lookup([f], k) == if f.key == k then f.val else Undefined
  {
    assert [f][1..] == [];
  }

  lemma TwoFields(a: Field, b: Field, k: string)
    ensures HasKey([a, b], k) <==> a.key == k || b.key == k
    ensures Lookup([a, b], k) == if a.key == k then a.val else if b.key == k then b.val else Undefined
  {
    assert [a, b][1..] == [b];
    SingleField(b, k);
  }

  /** A property list holding `f` when `b` holds, and nothing otherwise. */
  lemma OptionalField(b: bool, f: Field, k: string)
    ensures HasKey(if b then [f] else [], k) <==> b && f.key == k
    ensures Lookup(if b then [f] else [], k) == if b && f.key == k then f.val else Undefined
    ensures Keys(if b then [f] else []) == if b then [f.key] else []
  {
    if b {
      SingleField(f, k);
      assert [f][1..] == [];
    }
  }

  /** Looking up a key in a list made of one property and three lists. */
  lemma LookupFour(a: Field, c: seq<Field>, x: seq<Field>, y: seq<Field>, k: string)
    ensures HasKey([a] + c + x + y, k) <==> a.key == k || HasKey(c, k) || HasKey(x, k) || HasKey(y, k)
    ensures Lookup([a] + c + x + y, k)
         == if a.key == k then a.val else if HasKey(c, k) then Lookup(c, k)
            else if HasKey(x, k) then Lookup(x, k) else Lookup(y, k)
  {
    SingleField(a, k);
    HasKeyAppend([a], c, k);
    HasKeyAppend([a] + c, x, k);
    HasKeyAppend([a] + c + x, y, k);
    LookupAppend([a], c, k);
    LookupAppend([a] + c, x, k);
    LookupAppend([a] + c + x, y, k);
  }

  lemma KeysFour(a: Field, c: seq<Field>, x: seq<Field>, y: seq<Field>)
    ensures Keys([a] + c + x + y) == [a.key] + Keys(c) + Keys(x) + Keys(y)
  {
    assert [a][1..] == [];
    KeysAppend([a], c);
    KeysAppend([a] + c, x);
    KeysAppend([a] + c + x, y);
  }

  /** Two writes to different keys: each reads its value, and new keys are appended in order. */
  lemma PutTwo(fs: seq<Field>, a: string, va: Value, b: string, vb: Value)
    requires a != b
    ensures var r := Put(Put(fs, a, va), b, vb);
            && Lookup(r, a) == va && Lookup(r, b) == vb
            && (forall k :: k != a && k != b ==> Lookup(r, k) == Lookup(fs, k))
            && Keys(r) == Keys(fs) + (if HasKey(fs, a) then [] else [a]) + (if HasKey(fs, b) then [] else [b])
  {
    var once := Put(fs, a, va);
    HasKeyInKeys(fs, b);
    HasKeyInKeys(once, b);
  }

  lemma {:induction false} HasKeyAppend(a: seq<Field>, b: seq<Field>, k: string)
    ensures HasKey(a + b, k) <==> HasKey(a, k) || HasKey(b, k)
  {
    if a == [] {
      assert a + b == b;
    } else {
      assert (a + b)[1..] == a[1..] + b;
      HasKeyAppend(a[1..], b, k);
    }
  }

  lemma {:induction false} KeysAppend(a: seq<Field>, b: seq<Field>)
    ensures Keys(a + b) == Keys(a) + Keys(b)
  {
    if a == [] {
      assert a + b == b;
    } else {
      assert (a + b)[1..] == a[1..] + b;
      KeysAppend(a[1..], b);
    }
  }

  lemma {:induction false} LookupAppend(a: seq<Field>, b: seq<Field>, k: string)
    ensures Lookup(a + b, k) == if HasKey(a, k) then Lookup(a, k) else Lookup(b, k)
  {
    if a == [] {
      assert a + b == b;
    } else {
      assert (a + b)[1..] == a[1..] + b;
      LookupAppend(a[1..], b, k);
    }
  }

  lemma {:induction false} DistinctAppend(a: seq<Field>, b: seq<Field>)
    requires DistinctKeys(a) && DistinctKeys(b)
    requires forall k :: HasKey(a, k) ==> !HasKey(b, k)
    ensures DistinctKeys(a + b)
  {
    if a == [] {
      assert a + b == b;
    } else {
      assert (a + b)[1..] == a[1..] + b;
      DistinctAppend(a[1..], b);
      HasKeyAppend(a[1..], b, a[0].key);
    }
  }

  /** Writing a key that is not there appends it at the end. */
  lemma {:induction false} PutAbsent(fs: seq<Field>, k: string, v: Value)
    requires !HasKey(fs, k)
    ensures Put(fs, k, v) == fs + [Field(k, v)]
  {
    if fs != [] {
      PutAbsent(fs[1..], k, v);
    }
  }

  lemma {:induction false} SetValueAbsent(fs: seq<Field>, k: string, v: Value)
    requires !HasKey(fs, k)
    ensures SetValue(fs, k, v) == fs
  {
    if fs != [] {
      SetValueAbsent(fs[1..], k, v);
    }
  }

  /** Writing a key that is there, in an object with distinct keys, only changes its value. */
  lemma {:induction false} PutPresent(fs: seq<Field>, k: string, v: Value)
    requires DistinctKeys(fs) && HasKey(fs, k)
    ensures Put(fs, k, v) == SetValue(fs, k, v)
  {
    if fs[0].key == k {
      SetValueAbsent(fs[1..], k, v);
    } else {
      PutPresent(fs[1..], k, v);
    }
  }

  lemma {:induction false} SetValueHasKey(fs: seq<Field>, k: string, v: Value, k': string)
    ensures HasKey(SetValue(fs, k, v), k') <==> HasKey(fs, k')
  {
    if fs != [] {
      SetValueHasKey(fs[1..], k, v, k');
    }
  }

  lemma {:induction false} SetValueAppend(a: seq<Field>, b: seq<Field>, k: string, v: Value)
    ensures SetValue(a + b, k, v) == SetValue(a, k, v) + SetValue(b, k, v)
  {
    if a == [] {
      assert a + b == b;
    } else {
      assert (a + b)[1..] == a[1..] + b;
      SetValueAppend(a[1..], b, k, v);
    }
  }

  lemma {:induction false} SetValueDistinct(fs: seq<Field>, k: string, v: Value)
    requires DistinctKeys(fs)
    ensures DistinctKeys(SetValue(fs, k, v))
  {
    if fs != [] {
      SetValueDistinct(fs[1..], k, v);
      SetValueHasKey(fs[1..], k, v, fs[0].key);
    }
  }

  lemma {:induction false} LookupWithout(fs: seq<Field>, k: string, k': string)
    requires k' != k
    ensures Lookup(Without(fs, k), k') == Lookup(fs, k')
  {
    if fs != [] {
      LookupWithout(fs[1..], k, k');
    }
  }

  lemma {:induction false} WithoutDistinct(fs: seq<Field>, k: string)
    requires DistinctKeys(fs)
    ensures DistinctKeys(Without(fs, k))
  {
    if fs != [] {
      WithoutDistinct(fs[1..], k);
    }
  }

  /**
   * `Object.assign` with a source of distinct keys: each of the source's
   * keys ends up holding the source's value, every other key what the
   * target held.
   */
  lemma {:induction false} AssignAllLookup(target: seq<Field>, source: seq<Field>, k: string)
    requires DistinctKeys(source)
    ensures Lookup(AssignAll(target, source), k) == if HasKey(source, k) then Lookup(source, k) else Lookup(target, k)
    decreases |source|
  {
    if source != [] {
      AssignAllLookup(Put(target, source[0].key, source[0].val), source[1..], k);
    }
  }

  /**
   * `Object.assign([k: x] + w, source)` on a source with distinct keys, none
   * of them in `w`: the `k` slot stays first and takes the source's own `k`
   * value if it has one; every other source property follows `w` in source
   * order. Stated for a general middle part `w` so that it can be proved by
   * induction over the source.
   */
  lemma {:induction false} AssignOverFirstKey(k: string, x: Value, w: seq<Field>, source: seq<Field>)
    requires DistinctKeys(source) && DistinctKeys(w) && !HasKey(w, k)
    requires forall k' :: HasKey(w, k') ==> !HasKey(source, k')
    ensures AssignAll([Field(k, x)] + w, source)
         == [Field(k, if HasKey(source, k) then Lookup(source, k) else x)] + w + Without(source, k)
    decreases |source|, 1
  {
    if source == [] {
      assert w + Without(source, k) == w;
    } else if source[0].key == k {
      AssignReplacesFirst(k, x, w, source);
    } else {
      AssignAppendsOther(k, x, w, source);
    }
  }

  /** The source's first property is `k`: it overwrites the first slot. */
  lemma {:induction false} AssignReplacesFirst(k: string, x: Value, w: seq<Field>, source: seq<Field>)
    requires source != [] && source[0].key == k
    requires DistinctKeys(source) && DistinctKeys(w) && !HasKey(w, k)
    requires forall k' :: HasKey(w, k') ==> !HasKey(source, k')
    ensures AssignAll([Field(k, x)] + w, source)
         == [Field(k, if HasKey(source, k) then Lookup(source, k) else x)] + w + Without(source, k)
    decreases |source|, 0
  {
    var v, rest := source[0].val, source[1..];
    var head := [Field(k, x)] + w;
    assert head[1..] == w;
    assert Put(head, k, v) == [Field(k, v)] + w;
    assert AssignAll(head, source) == AssignAll([Field(k, v)] + w, rest);
    assert !HasKey(rest, k);
    AssignOverFirstKey(k, v, w, rest);
    assert Without(source, k) == Without(rest, k);
  }

  /** The source's first property is new: it is appended after `w`. */
  lemma {:induction false} AssignAppendsOther(k: string, x: Value, w: seq<Field>, source: seq<Field>)
    requires source != [] && source[0].key != k
    requires DistinctKeys(source) && DistinctKeys(w) && !HasKey(w, k)
    requires forall k' :: HasKey(w, k') ==> !HasKey(source, k')
    ensures AssignAll([Field(k, x)] + w, source)
         == [Field(k, if HasKey(source, k) then Lookup(source, k) else x)] + w + Without(source, k)
    decreases |source|, 0
  {
    var s, rest := source[0], source[1..];
    var head := [Field(k, x)] + w;
    var w' := w + [s];
    assert !HasKey(w, s.key);
    HasKeyAppend([Field(k, x)], w, s.key);
    PutAbsent(head, s.key, s.val);
    assert head + [s] == [Field(k, x)] + w';
    assert AssignAll(head, source) == AssignAll([Field(k, x)] + w', rest);
    forall k' | HasKey(w', k')
      ensures !HasKey(rest, k')
    {
      HasKeyAppend(w, [s], k');
    }
    HasKeyAppend(w, [s], k);
    DistinctAppend(w, [s]);
    AssignOverFirstKey(k, x, w', rest);
    var f := Field(k, if HasKey(rest, k) then Lookup(rest, k) else x);
    assert Without(source, k) == [s] + Without(rest, k);
    Regroup([f], w, [s], Without(rest, k));
  }

  /** Regrouping a concatenation of four property lists. */
  lemma Regroup(a: seq<Field>, b: seq<Field>, c: seq<Field>, d: seq<Field>)
    ensures a + (b + c) + d == a + b + (c + d)
  {
  }
}
