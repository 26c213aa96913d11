/**
 * The exported converter: turns a list of `sw-toolbox` route descriptors
 * into `workbox-sw` `registerRoute(...)` statements. It maps every entry to
 * a statement or to nothing, aborting on the first invalid entry, and then
 * drops the entries that produced nothing.
 */
module RuntimeCachingConverter {
  import opened JsValues
  import opened Json
  import opened RuntimeCachingOptions

  /** One route descriptor; a property it does not have is `Undefined`. */
  datatype RouteEntry = RouteEntry(urlPattern: Value, handler: Value, requestMethod: Value, options: Value)

  /** The two errors the converter raises. */
  datatype ConversionError = UrlPatternIsRequired | HandlerIsRequired

  datatype Result<T, E> = Ok(value: T) | Err(error: E)

  // ---------------------------------------------------------------------
  // One entry

  /** An entry passes validation: both `urlPattern` and `handler` are truthy. */
  predicate Valid(e: RouteEntry) {
    Truthy(e.urlPattern) && Truthy(e.handler)
  }

  /** An entry yields a statement: its handler is a string or a function. */
  predicate Emits(e: RouteEntry) {
    e.handler.Str? || e.handler.Fn?
  }

  /** The error an invalid entry raises; `urlPattern` is checked first. */
  function EntryError(e: RouteEntry): (err: ConversionError)
    requires !Valid(e)
    ensures err == HandlerIsRequired <==> Truthy(e.urlPattern)
  {
    if !Truthy(e.urlPattern) then UrlPatternIsRequired else HandlerIsRequired
  }

  /** The method text: `entry.method || 'GET'` inside a template literal. */
  function MethodText(m: Value): (t: string)
    ensures !Truthy(m) ==> t == "GET"
    ensures m.Str? && m.s != "" ==> t == m.s
  {
    TemplateText(Or(m, Str("GET")))
  }

  /** The matcher: a string pattern in single quotes, any other value as its own text. */
  function Matcher(p: Value): (t: string)
    ensures p.Str? ==> t == "'" + p.s + "'"
    ensures p.Pattern? ==> t == p.source
  {
    if p.Str? then "'" + p.s + "'" else TemplateText(p)
  }

  /** The strategy a handler name selects: `fastest` is an alias of `staleWhileRevalidate`. */
  function StrategyName(handler: string): (name: string)
    ensures name != "fastest"
    ensures name == "staleWhileRevalidate" <==> handler == "fastest" || handler == "staleWhileRevalidate"
    ensures handler != "fastest" ==> name == handler
  {
    if handler == "fastest" then "staleWhileRevalidate" else handler
  }

  /** The middle argument of the statement: a strategy call, or the handler's source text. */
  function HandlerText(e: RouteEntry): string
    requires Emits(e)
  {
    if e.handler.Str? then
      "workboxSW.strategies." + StrategyName(e.handler.s) + "(" + OptionsString(Or(e.options, Obj([]))) + ")"
    else
      e.handler.source
  }

  /** The statement an entry with a string or function handler yields. */
  function Statement(e: RouteEntry): string
    requires Emits(e)
  {
    RoutePrefix(e.urlPattern) + HandlerText(e) + RouteSuffix(e.requestMethod)
  }

  /** `workboxSW.router.registerRoute(${matcher}, ` */
  function RoutePrefix(urlPattern: Value): string {
    "workboxSW.router.registerRoute(" + Matcher(urlPattern) + ", "
  }

  /** `, '${method}');` */
  function RouteSuffix(requestMethod: Value): string {
    ", '" + MethodText(requestMethod) + "');"
  }

  /** The callback given to `map`: an error, a statement, or nothing. */
  function ConvertEntry(e: RouteEntry): (r: Result<Option<string>, ConversionError>)
    ensures r.Err? <==> !Valid(e)
    ensures r.Err? ==> r.error == EntryError(e)
    ensures r.Ok? ==> (r.value.Some? <==> Emits(e))
    ensures r.Ok? && r.value.Some? ==> r.value.value == Statement(e)
  {
    if !Truthy(e.urlPattern) then Err(UrlPatternIsRequired)
    else if !Truthy(e.handler) then Err(HandlerIsRequired)
    else if e.handler.Str? || e.handler.Fn? then Ok(Some(Statement(e)))
    else Ok(None)
  }

  // ---------------------------------------------------------------------
  // The list

  /**
   * `es.map(...)`: the first entry that throws ends the conversion; otherwise
   * there is one result per entry, the callback's result for it.
   */
  function MapEntries(es: seq<RouteEntry>): (r: Result<seq<Option<string>>, ConversionError>)
    ensures r.Ok? ==> |r.value| == |es| && forall i :: 0 <= i < |es| ==> ConvertEntry(es[i]) == Ok(r.value[i])
  {
    if es == [] then Ok([])
    else
      match ConvertEntry(es[0])
      case Err(err) => Err(err)
      case Ok(x) =>
        match MapEntries(es[1..])
        case Err(err) => Err(err)
        case Ok(xs) => Ok([x] + xs)
  }

  /** `.filter((entry) => Boolean(entry))`: the non-empty statements, each one taken from `xs`. */
  function KeepTruthy(xs: seq<Option<string>>): (r: seq<string>)
    ensures |r| <= |xs|
    ensures forall i :: 0 <= i < |r| ==> r[i] != "" && Some(r[i]) in xs
  {
    if xs == [] then []
    else if xs[0].Some? && xs[0].value != "" then [xs[0].value] + KeepTruthy(xs[1..])
    else KeepTruthy(xs[1..])
  }

  /** The filter on one item: a non-empty statement is kept, anything else dropped. */
  lemma KeepTruthySingle(x: Option<string>)
    ensures KeepTruthy([x]) == if x.Some? && x.value != "" then [x.value] else []
  {
  }

  /** The filter works item by item: it keeps every truthy item, in input order. */
  lemma {:induction false} KeepTruthyAppend(a: seq<Option<string>>, b: seq<Option<string>>)
    ensures KeepTruthy(a + b) == KeepTruthy(a) + KeepTruthy(b)
    decreases |a|
  {
    if a != [] {
      assert (a + b)[0] == a[0];
      assert (a + b)[1..] == a[1..] + b;
      KeepTruthyAppend(a[1..], b);
    } else {
      assert a + b == b;
    }
  }

  /** The converter; `None` stands for a falsy `runtimeCaching` argument. */
  function Convert(runtimeCaching: Option<seq<RouteEntry>>): (r: Result<seq<string>, ConversionError>)
    ensures runtimeCaching.None? ==> r == Ok([])
    ensures r.Ok? && runtimeCaching.Some? ==> |r.value| <= |runtimeCaching.value|
    ensures r.Ok? ==> forall i :: 0 <= i < |r.value| ==> r.value[i] != ""
  {
    var es := if runtimeCaching.Some? then runtimeCaching.value else [];
    match MapEntries(es)
    case Err(err) => Err(err)
    case Ok(xs) => Ok(KeepTruthy(xs))
  }

  /**
   * The statements of the entries with a string or function handler, in
   * input order: a filter followed by a map, where the source maps first.
   */
  function Statements(es: seq<RouteEntry>): (r: seq<string>)
    ensures |r| <= |es|
    ensures (forall i :: 0 <= i < |es| ==> Emits(es[i])) ==> |r| == |es|
  {
    if es == [] then []
    else (if Emits(es[0]) then [Statement(es[0])] else []) + Statements(es[1..])
  }

  // ---------------------------------------------------------------------
  // Properties

  /** No list, or an empty one, converts to no statements. */
  lemma NoEntriesNoRoutes()
    ensures Convert(None) == Ok([])
    ensures Convert(Some([])) == Ok([])
  {
  }

  /** The conversion fails exactly when some entry is invalid. */
  lemma {:induction false} FailsIffSomeInvalid(es: seq<RouteEntry>)
    ensures Convert(Some(es)).Err? <==> exists i :: 0 <= i < |es| && !Valid(es[i])
  {
    MapFailsIffSomeInvalid(es);
  }

  lemma {:induction false} MapFailsIffSomeInvalid(es: seq<RouteEntry>)
    ensures MapEntries(es).Err? <==> exists i :: 0 <= i < |es| && !Valid(es[i])
  {
    if es != [] {
      MapFailsIffSomeInvalid(es[1..]);
      if exists i :: 0 <= i < |es[1..]| && !Valid(es[1..][i]) {
        var i :| 0 <= i < |es[1..]| && !Valid(es[1..][i]);
        assert !Valid(es[i + 1]);
      }
      if exists i :: 0 <= i < |es| && !Valid(es[i]) {
        var i :| 0 <= i < |es| && !Valid(es[i]);
        if i > 0 {
          assert !Valid(es[1..][i - 1]);
        }
      }
    }
  }

  /**
   * The error reported is the one of the first invalid entry, whatever
   * follows it; no statement is returned.
   */
  lemma {:induction false} FirstInvalidEntryDecides(es: seq<RouteEntry>, i: nat)
    requires i < |es| && !Valid(es[i])
    requires forall j :: 0 <= j < i ==> Valid(es[j])
    ensures Convert(Some(es)) == Err(EntryError(es[i]))
  {
    MapFirstInvalid(es, i);
  }

  lemma {:induction false} MapFirstInvalid(es: seq<RouteEntry>, i: nat)
    requires i < |es| && !Valid(es[i])
    requires forall j :: 0 <= j < i ==> Valid(es[j])
    ensures MapEntries(es) == Err(EntryError(es[i]))
  {
    if i > 0 {
      assert Valid(es[0]);
      assert es[1..][i - 1] == es[i];
      MapFirstInvalid(es[1..], i - 1);
    }
  }

  /**
   * When every entry is valid, the conversion succeeds with one statement
   * per entry that has a string or function handler, in input order.
   */
  lemma RoutesFollowEntries(es: seq<RouteEntry>)
    requires forall i :: 0 <= i < |es| ==> Valid(es[i])
    ensures Convert(Some(es)) == Ok(Statements(es))
  {
    MapThenFilter(es);
  }

  lemma {:induction false} MapThenFilter(es: seq<RouteEntry>)
    requires forall i :: 0 <= i < |es| ==> Valid(es[i])
    ensures MapEntries(es).Ok?
    ensures KeepTruthy(MapEntries(es).value) == Statements(es)
  {
    if es != [] {
      var tail := es[1..];
      forall i | 0 <= i < |tail|
        ensures Valid(tail[i])
      {
        assert tail[i] == es[i + 1];
      }
      MapThenFilter(tail);
      var x, xs := ConvertEntry(es[0]).value, MapEntries(tail).value;
      assert MapEntries(es) == Ok([x] + xs);
      assert ([x] + xs)[1..] == xs;
      if Emits(es[0]) {
        StatementNotEmpty(es[0]);
      }
    }
  }

  /** Every statement has a text, so the filter drops nothing `map` produced. */
  lemma StatementNotEmpty(e: RouteEntry)
    requires Emits(e)
    ensures Statement(e) != ""
  {
    assert Statement(e)[0] == 'w';
  }

  /**
   * Every statement is a `registerRoute` call whose first argument is the
   * matcher and whose last is the method in single quotes.
   */
  lemma StatementShape(e: RouteEntry)
    requires Emits(e)
    ensures var s, p, q := Statement(e), "workboxSW.router.registerRoute(" + Matcher(e.urlPattern) + ", ", ", '" + MethodText(e.requestMethod) + "');";
            |p| + |q| <= |s| && s[..|p|] == p && s[|s| - |q|..] == q
  {
    Enclosed(RoutePrefix(e.urlPattern), HandlerText(e), RouteSuffix(e.requestMethod));
  }

  lemma Enclosed(p: string, m: string, q: string)
    ensures var s := p + m + q;
            |p| + |q| <= |s| && s[..|p|] == p && s[|s| - |q|..] == q
  {
    var s := p + m + q;
    assert s[..|p|] == p;
    assert s[|s| - |q|..] == q;
  }

  /**
   * A function handler is embedded as its own source text, and the entry's
   * options play no part.
   */
  lemma CallbackStatement(e: RouteEntry, otherOptions: Value)
    requires e.handler.Fn?
    ensures Statement(e)
         == "workboxSW.router.registerRoute(" + Matcher(e.urlPattern) + ", " + e.handler.source + ", '"
            + MethodText(e.requestMethod) + "');"
    ensures Statement(e) == Statement(e.(options := otherOptions))
  {
  }

  /**
   * A string handler becomes a call of the strategy it names, with the
   * entry's options (or `{}`) rewritten and serialised as its argument; the
   * entry's options enter the statement only through that text.
   */
  lemma StrategyStatement(e: RouteEntry, otherOptions: Value)
    requires e.handler.Str?
    ensures Statement(e)
         == "workboxSW.router.registerRoute(" + Matcher(e.urlPattern) + ", "
            + "workboxSW.strategies." + StrategyName(e.handler.s) + "(" + OptionsString(Or(e.options, Obj([]))) + ")"
            + ", '" + MethodText(e.requestMethod) + "');"
    ensures OptionsString(Or(otherOptions, Obj([]))) == OptionsString(Or(e.options, Obj([])))
            ==> Statement(e.(options := otherOptions)) == Statement(e)
  {
    var a, b, c := "workboxSW.router.registerRoute(", Matcher(e.urlPattern), ", ";
    var d, n, f, o, g := "workboxSW.strategies.", StrategyName(e.handler.s), "(", OptionsString(Or(e.options, Obj([]))), ")";
    var i, m, k := ", '", MethodText(e.requestMethod), "');";
    assert Statement(e) == (a + b + c) + (d + n + f + o + g) + (i + m + k);
    Flatten(a, b, c, d, n, f, o, g, i, m, k);
  }

  /** Regrouping a concatenation of eleven pieces. */
  lemma Flatten(a: string, b: string, c: string, d: string, n: string, f: string, o: string, g: string,
                i: string, m: string, k: string)
    ensures (a + b + c) + (d + n + f + o + g) + (i + m + k) == a + b + c + d + n + f + o + g + i + m + k
  {
  }

  /**
   * A valid entry whose handler is neither a string nor a function (an
   * object, a number, `true`) raises nothing and contributes nothing: the
   * result is the same without it.
   */
  lemma OtherHandlerSkipped(es: seq<RouteEntry>, i: nat)
    requires i < |es| && Valid(es[i]) && !Emits(es[i])
    ensures Convert(Some(es)) == Convert(Some(es[..i] + es[i + 1..]))
  {
    var before, after := es[..i], es[i + 1..];
    assert es == before + [es[i]] + after;
    MapSkips(before, es[i], after);
  }

  lemma {:induction false} MapSkips(before: seq<RouteEntry>, e: RouteEntry, after: seq<RouteEntry>)
    requires Valid(e) && !Emits(e)
    ensures var with, without := MapEntries(before + [e] + after), MapEntries(before + after);
            with.Err? == without.Err?
            && (with.Err? ==> with.error == without.error)
            && (with.Ok? ==> KeepTruthy(with.value) == KeepTruthy(without.value))
  {
    if before == [] {
      assert before + [e] + after == [e] + after;
      assert ([e] + after)[1..] == after;
      assert before + after == after;
    } else {
      assert (before + [e] + after)[1..] == before[1..] + [e] + after;
      assert (before + after)[1..] == before[1..] + after;
      MapSkips(before[1..], e, after);
      var wt, wot := MapEntries(before[1..] + [e] + after), MapEntries(before[1..] + after);
      if wt.Ok? && ConvertEntry(before[0]).Ok? {
        var x := ConvertEntry(before[0]).value;
        assert ([x] + wt.value)[1..] == wt.value;
        assert ([x] + wot.value)[1..] == wot.value;
      }
    }
  }

  // ---------------------------------------------------------------------
  // Examples

  /**
   * `[{urlPattern: "/api/", handler: "fastest", method: "POST"}]` converts to
   * the one statement `workboxSW.router.registerRoute('/api/',
   * workboxSW.strategies.staleWhileRevalidate({}), 'POST');`, given here
   * argument by argument.
   */
  lemma FastestExample()
    ensures var e := RouteEntry(Str("/api/"), Str("fastest"), Str("POST"), Undefined);
            && Convert(Some([e])) == Ok([Statement(e)])
            && Matcher(e.urlPattern) == "'/api/'"
            && HandlerText(e) == "workboxSW.strategies.staleWhileRevalidate({})"
            && MethodText(e.requestMethod) == "POST"
  {
    var e := RouteEntry(Str("/api/"), Str("fastest"), Str("POST"), Undefined);
    SingleEntry(e);
    FastestStrategy();
    QuotedPatternText();
  }

  /** The matcher text of the example pattern. */
  lemma QuotedPatternText()
    ensures "'" + "/api/" + "'" == "'/api/'"
  {
  }

  lemma SingleEntry(e: RouteEntry)
    requires Valid(e) && Emits(e)
    ensures Convert(Some([e])) == Ok([Statement(e)])
  {
    assert [e][1..] == [];
    assert Statements([e]) == [Statement(e)] + [];
    assert [Statement(e)] + [] == [Statement(e)];
    RoutesFollowEntries([e]);
  }

  lemma FastestStrategy()
    ensures HandlerText(RouteEntry(Str("/api/"), Str("fastest"), Str("POST"), Undefined))
         == "workboxSW.strategies.staleWhileRevalidate({})"
  {
    var e := RouteEntry(Str("/api/"), Str("fastest"), Str("POST"), Undefined);
    EmptyOptionsExample();
    assert OptionsString(Or(e.options, Obj([]))) == "{}";
    assert HandlerText(e) == "workboxSW.strategies." + "staleWhileRevalidate" + "(" + "{}" + ")";
    StrategyCallText();
  }

  /** The strategy call text of the example, assembled from its pieces. */
  lemma StrategyCallText()
    ensures "workboxSW.strategies." + "staleWhileRevalidate" + "(" + "{}" + ")"
         == "workboxSW.strategies.staleWhileRevalidate({})"
  {
    assert "workboxSW.strategies." + "staleWhileRevalidate" == "workboxSW.strategies.staleWhileRevalidate";
    assert "(" + "{}" + ")" == "({})";
  }

  /** An entry without `urlPattern` fails even when it also lacks a handler. */
  lemma MissingPatternExample(later: seq<RouteEntry>)
    ensures Convert(Some([RouteEntry(Undefined, Undefined, Undefined, Undefined)] + later)) == Err(UrlPatternIsRequired)
  {
    var es := [RouteEntry(Undefined, Undefined, Undefined, Undefined)] + later;
    FirstInvalidEntryDecides(es, 0);
  }

  /** An empty handler name is falsy: `handler-is-required`. */
  lemma EmptyHandlerExample()
    ensures Convert(Some([RouteEntry(Pattern("/x/"), Str(""), Undefined, Undefined)])) == Err(HandlerIsRequired)
  {
  }
}
