/**
 * The kinds of web application a Spring Boot application can run as, how the
 * kind is deduced from the classes present on the class path, and the
 * registrar that records reflection hints for the class names it probes.
 *
 * A class path (or the view of it through one class loader) is the set of
 * fully qualified class names that can be loaded from it; "present" means
 * "in that set".
 */
module Boot {
  import opened AotHint

  /** The three kinds of web application. */
  datatype WebApplicationType =
    | None      // not a web application: no embedded web server is started
    | Servlet   // a servlet-based web application with an embedded servlet web server
    | Reactive  // a reactive web application with an embedded reactive web server

  // ---------------------------------------------------------------------------
  // Indicator classes
  // ---------------------------------------------------------------------------

  const ServletClass := "jakarta.servlet.Servlet"
  const WebContextClass := "org.springframework.web.context.ConfigurableWebApplicationContext"

  /** The servlet indicators, in the order in which they are probed. */
  const ServletIndicatorClasses: seq<string> := [ServletClass, WebContextClass]

  const WebMvcIndicatorClass := "org.springframework.web.servlet.DispatcherServlet"
  const WebFluxIndicatorClass := "org.springframework.web.reactive.DispatcherHandler"
  const JerseyIndicatorClass := "org.glassfish.jersey.servlet.ServletContainer"

  /** All five indicator class names. */
  const IndicatorClasses: set<string> :=
    {ServletClass, WebContextClass, WebMvcIndicatorClass, WebFluxIndicatorClass, JerseyIndicatorClass}

  /** The five indicator names in the order in which the registrar probes them. */
  const HintedIndicatorClasses: seq<string> :=
    ServletIndicatorClasses + [JerseyIndicatorClass, WebFluxIndicatorClass, WebMvcIndicatorClass]

  // ---------------------------------------------------------------------------
  // Deduction from the class path
  // ---------------------------------------------------------------------------

  /** WebFlux is present and neither WebMvc nor Jersey is. */
  predicate ReactiveIndicated(classPath: set<string>) {
    WebFluxIndicatorClass in classPath
    && WebMvcIndicatorClass !in classPath
    && JerseyIndicatorClass !in classPath
  }

  /** Every one of `names` is present. */
  function AllPresent(names: seq<string>, classPath: set<string>): (r: bool)
    ensures r <==> forall k :: 0 <= k < |names| ==> names[k] in classPath
  {
    names == [] || (names[0] in classPath && AllPresent(names[1..], classPath))
  }

  /**
   * The names a loop over `names` probes when it stops at the first absent
   * one: every name up to and including the first absent one, or all of them.
   */
  function ProbesUntilAbsent(names: seq<string>, classPath: set<string>): (q: seq<string>)
    ensures q <= names
    ensures forall k :: 0 <= k < |q| - 1 ==> q[k] in classPath
    ensures AllPresent(names, classPath) ==> q == names
    ensures !AllPresent(names, classPath) ==> q != [] && q[|q| - 1] !in classPath
  {
    if names == [] then []
    else if names[0] !in classPath then [names[0]]
    else [names[0]] + ProbesUntilAbsent(names[1..], classPath)
  }

  /**
   * The kind of web application the class path indicates. The reactive check
   * comes first and wins; otherwise both servlet indicators decide between
   * a servlet application and no web application.
   */
  function Deduce(classPath: set<string>): (t: WebApplicationType)
    ensures t == Reactive <==> ReactiveIndicated(classPath)
    ensures t == Servlet <==>
      !ReactiveIndicated(classPath) && ServletClass in classPath && WebContextClass in classPath
    ensures t == None <==>
      !ReactiveIndicated(classPath) && (ServletClass !in classPath || WebContextClass !in classPath)
  {
    assert ServletIndicatorClasses[0] == ServletClass && ServletIndicatorClasses[1] == WebContextClass;
    if ReactiveIndicated(classPath) then Reactive
    else if AllPresent(ServletIndicatorClasses, classPath) then Servlet
    else None
  }

  /** The names the short-circuiting reactive condition probes, in order. */
  function ReactiveProbes(classPath: set<string>): seq<string> {
    [WebFluxIndicatorClass]
    + if WebFluxIndicatorClass !in classPath then []
      else [WebMvcIndicatorClass] + if WebMvcIndicatorClass in classPath then [] else [JerseyIndicatorClass]
  }

  /** The names whose presence the deduction queries, in order. */
  function DeduceQueries(classPath: set<string>): (q: seq<string>)
    ensures |q| > 0 && q[0] == WebFluxIndicatorClass
    ensures forall n :: n in q ==> n in IndicatorClasses
    ensures WebMvcIndicatorClass in q <==> WebFluxIndicatorClass in classPath
    ensures JerseyIndicatorClass in q <==>
      WebFluxIndicatorClass in classPath && WebMvcIndicatorClass !in classPath
    ensures ServletClass in q <==> !ReactiveIndicated(classPath)
    ensures WebContextClass in q <==> !ReactiveIndicated(classPath) && ServletClass in classPath
  {
    ReactiveProbes(classPath)
    + if ReactiveIndicated(classPath) then [] else ProbesUntilAbsent(ServletIndicatorClasses, classPath)
  }

  /**
   * Deduces the web application type from the class path, also returning
   * the names it queried, in order.
   */
  method DeduceFromClasspath(classPath: set<string>) returns (t: WebApplicationType, queried: seq<string>)
    ensures t == Deduce(classPath)
    ensures queried == DeduceQueries(classPath)
  {
    queried := [WebFluxIndicatorClass];
    var reactive := false;
    if WebFluxIndicatorClass in classPath {
      queried := queried + [WebMvcIndicatorClass];
      if WebMvcIndicatorClass !in classPath {
        queried := queried + [JerseyIndicatorClass];
        reactive := JerseyIndicatorClass !in classPath;
      }
    }
    if reactive {
      return Reactive, queried;
    }
    ghost var reactiveProbes := queried;
    for i := 0 to |ServletIndicatorClasses|
      invariant queried == reactiveProbes + ServletIndicatorClasses[..i]
      invariant forall k :: 0 <= k < i ==> ServletIndicatorClasses[k] in classPath
    {
      var className := ServletIndicatorClasses[i];
      queried := queried + [className];
      if className !in classPath {
        ghost var q := ProbesUntilAbsent(ServletIndicatorClasses, classPath);
        assert q == ServletIndicatorClasses[..i + 1];
        return None, queried;
      }
    }
    assert ServletIndicatorClasses[..|ServletIndicatorClasses|] == ServletIndicatorClasses;
    return Servlet, queried;
  }

  // ---------------------------------------------------------------------------
  // What the deduction depends on
  // ---------------------------------------------------------------------------

  /**
   * The probing loop's outcome is decided by the answers for the names it
   * probes: a class path that agrees on them is probed the same way.
   */
  lemma {:induction false} ProbesDecide(names: seq<string>, cp1: set<string>, cp2: set<string>)
    requires forall n :: n in ProbesUntilAbsent(names, cp1) ==> (n in cp1 <==> n in cp2)
    ensures ProbesUntilAbsent(names, cp2) == ProbesUntilAbsent(names, cp1)
    ensures AllPresent(names, cp2) == AllPresent(names, cp1)
  {
    if names != [] {
      assert names[0] in ProbesUntilAbsent(names, cp1);
      if names[0] in cp1 {
        ProbesDecide(names[1..], cp1, cp2);
      }
    }
  }

  /**
   * Only the queried names matter: two class paths that agree on the names
   * the deduction queries for the first give the same queries and the same
   * web application type.
   */
  lemma QueriesDecide(cp1: set<string>, cp2: set<string>)
    requires forall n :: n in DeduceQueries(cp1) ==> (n in cp1 <==> n in cp2)
    ensures DeduceQueries(cp2) == DeduceQueries(cp1)
    ensures Deduce(cp2) == Deduce(cp1)
  {
    assert ReactiveProbes(cp2) == ReactiveProbes(cp1);
    assert ReactiveIndicated(cp2) == ReactiveIndicated(cp1);
    if !ReactiveIndicated(cp1) {
      forall n | n in ProbesUntilAbsent(ServletIndicatorClasses, cp1)
        ensures n in cp1 <==> n in cp2
      {
        assert n in DeduceQueries(cp1);
      }
      ProbesDecide(ServletIndicatorClasses, cp1, cp2);
    }
  }

  /**
   * The deduction is a function of the five presence flags alone: class
   * paths that agree on the indicator classes give the same result and
   * the same queries.
   */
  lemma DependsOnlyOnIndicators(cp1: set<string>, cp2: set<string>)
    requires forall n :: n in IndicatorClasses ==> (n in cp1 <==> n in cp2)
    ensures Deduce(cp2) == Deduce(cp1)
    ensures DeduceQueries(cp2) == DeduceQueries(cp1)
  {
    QueriesDecide(cp1, cp2);
  }

  // ---------------------------------------------------------------------------
  // The decision table
  // ---------------------------------------------------------------------------

  /** What a table row demands of one presence flag. */
  datatype Cell = Any | Present | Absent

  predicate CellMatches(c: Cell, present: bool) {
    match c
    case Any => true
    case Present => present
    case Absent => !present
  }

  /** One row of the decision table over the five presence flags. */
  datatype Row = Row(webFlux: Cell, webMvc: Cell, jersey: Cell, servlet: Cell, webContext: Cell,
                     outcome: WebApplicationType)

  predicate Matches(row: Row, classPath: set<string>) {
    && CellMatches(row.webFlux, WebFluxIndicatorClass in classPath)
    && CellMatches(row.webMvc, WebMvcIndicatorClass in classPath)
    && CellMatches(row.jersey, JerseyIndicatorClass in classPath)
    && CellMatches(row.servlet, ServletClass in classPath)
    && CellMatches(row.webContext, WebContextClass in classPath)
  }

  /** The decision table, written out row by row. */
  const DecisionTable: seq<Row> := [
    Row(Present, Absent,  Absent,  Any,     Any,     Reactive),
    Row(Present, Present, Any,     Present, Present, Servlet),
    Row(Present, Absent,  Present, Present, Present, Servlet),
    Row(Absent,  Any,     Any,     Present, Present, Servlet),
    Row(Present, Present, Any,     Absent,  Any,     None),
    Row(Present, Absent,  Present, Absent,  Any,     None),
    Row(Absent,  Any,     Any,     Absent,  Any,     None),
    Row(Present, Present, Any,     Present, Absent,  None),
    Row(Present, Absent,  Present, Present, Absent,  None),
    Row(Absent,  Any,     Any,     Present, Absent,  None)
  ]

  /** Every class path matches some row of the table. */
  lemma DecisionTableIsExhaustive(classPath: set<string>)
    ensures exists i :: 0 <= i < |DecisionTable| && Matches(DecisionTable[i], classPath)
  {
    var flux, mvc, jersey := WebFluxIndicatorClass in classPath,
      WebMvcIndicatorClass in classPath, JerseyIndicatorClass in classPath;
    var servlet, context := ServletClass in classPath, WebContextClass in classPath;
    var group := if !flux then 2 else if !mvc && jersey then 1 else 0;
    var i :=
      if flux && !mvc && !jersey then 0
      else if servlet && context then 1 + group
      else if !servlet then 4 + group
      else 7 + group;
    assert Matches(DecisionTable[i], classPath);
  }

  /** No class path matches two rows. */
  lemma DecisionTableRowsAreDisjoint(classPath: set<string>, i: nat, j: nat)
    requires i < |DecisionTable| && j < |DecisionTable|
    requires Matches(DecisionTable[i], classPath) && Matches(DecisionTable[j], classPath)
    ensures i == j
  {
  }

  /** The row a class path matches gives the deduced type. */
  lemma DecisionTableAgreesWithDeduce(classPath: set<string>, i: nat)
    requires i < |DecisionTable| && Matches(DecisionTable[i], classPath)
    ensures Deduce(classPath) == DecisionTable[i].outcome
  {
  }

  // ---------------------------------------------------------------------------
  // Reflection hints
  // ---------------------------------------------------------------------------

  /** The names among `names` that are present, in their order in `names`. */
  function PresentIn(names: seq<string>, classLoader: set<string>): (r: seq<string>)
    ensures |r| <= |names|
    ensures forall n :: n in r <==> n in names && n in classLoader
  {
    if names == [] then []
    else (if names[0] in classLoader then [names[0]] else []) + PresentIn(names[1..], classLoader)
  }

  /** Filtering a concatenation filters each part, keeping their order. */
  lemma {:induction false} PresentInAppend(a: seq<string>, b: seq<string>, classLoader: set<string>)
    ensures PresentIn(a + b, classLoader) == PresentIn(a, classLoader) + PresentIn(b, classLoader)
  {
    if a == [] {
      assert a + b == b;
    } else {
      assert (a + b)[1..] == a[1..] + b;
      PresentInAppend(a[1..], b, classLoader);
    }
  }

  /** `[name]` when `name` is present, otherwise nothing. */
  function IfPresent(name: string, classLoader: set<string>): seq<string> {
    if name in classLoader then [name] else []
  }

  lemma Associative(x: seq<string>, y: seq<string>, z: seq<string>)
    ensures x + (y + z) == x + y + z
  {
  }

  /** Filtering two names. */
  lemma PresentInPair(a: string, b: string, classLoader: set<string>)
    ensures PresentIn([a, b], classLoader) == IfPresent(a, classLoader) + IfPresent(b, classLoader)
  {
    assert [a, b][1..] == [b];
    assert [b][1..] == [];
  }

  /** Filtering five names. */
  lemma PresentInFive(a: string, b: string, c: string, d: string, e: string, classLoader: set<string>)
    ensures PresentIn([a, b, c, d, e], classLoader) ==
      IfPresent(a, classLoader) + IfPresent(b, classLoader) + IfPresent(c, classLoader)
      + IfPresent(d, classLoader) + IfPresent(e, classLoader)
  {
    assert [a, b, c, d, e][1..] == [b, c, d, e];
    assert [b, c, d, e][1..] == [c, d, e];
    assert [c, d, e][1..] == [d, e];
    PresentInPair(d, e, classLoader);
    var r := PresentIn([a, b, c, d, e], classLoader);
    assert r == IfPresent(a, classLoader) + PresentIn([b, c, d, e], classLoader);
    assert PresentIn([b, c, d, e], classLoader) == IfPresent(b, classLoader) + PresentIn([c, d, e], classLoader);
    assert PresentIn([c, d, e], classLoader) == IfPresent(c, classLoader) + PresentIn([d, e], classLoader);
    var pa, pb, pc, pd, pe := IfPresent(a, classLoader), IfPresent(b, classLoader), IfPresent(c, classLoader),
      IfPresent(d, classLoader), IfPresent(e, classLoader);
    assert r == pa + (pb + (pc + (pd + pe)));
    Associative(pa, pb, pc + (pd + pe));
    Associative(pa + pb, pc, pd + pe);
    Associative(pa + pb + pc, pd, pe);
  }

  /**
   * The hints the registrar adds, name by name: each present indicator, in
   * the order servlet, web context, Jersey, WebFlux, WebMvc.
   */
  lemma RegisteredInProbeOrder(classLoader: set<string>)
    ensures PresentIn(HintedIndicatorClasses, classLoader) ==
      IfPresent(ServletClass, classLoader)
      + IfPresent(WebContextClass, classLoader)
      + IfPresent(JerseyIndicatorClass, classLoader)
      + IfPresent(WebFluxIndicatorClass, classLoader)
      + IfPresent(WebMvcIndicatorClass, classLoader)
  {
    assert HintedIndicatorClasses ==
      [ServletClass, WebContextClass, JerseyIndicatorClass, WebFluxIndicatorClass, WebMvcIndicatorClass];
    PresentInFive(ServletClass, WebContextClass, JerseyIndicatorClass, WebFluxIndicatorClass, WebMvcIndicatorClass,
                  classLoader);
  }

  /** The reflection hints registrar for the indicator classes. */
  class WebApplicationTypeRuntimeHints {

    constructor () {}

    /**
     * Registers a reflection hint for every indicator class present under
     * `classLoader`, in probe order, and nothing else.
     */
    method RegisterHints(hints: RuntimeHints, classLoader: set<string>)
      modifies hints
      ensures hints.reflectionTypes ==
        old(hints.reflectionTypes) + PresentIn(HintedIndicatorClasses, classLoader)
      ensures hints.RegisteredTypes() == old(hints.RegisteredTypes()) + IndicatorClasses * classLoader
    {
      for i := 0 to |ServletIndicatorClasses|
        invariant hints.reflectionTypes ==
          old(hints.reflectionTypes) + PresentIn(ServletIndicatorClasses[..i], classLoader)
      {
        RegisterTypeIfPresent(ServletIndicatorClasses[i], classLoader, hints);
        PresentInAppend(ServletIndicatorClasses[..i], [ServletIndicatorClasses[i]], classLoader);
        assert ServletIndicatorClasses[..i + 1] == ServletIndicatorClasses[..i] + [ServletIndicatorClasses[i]];
      }
      assert ServletIndicatorClasses[..|ServletIndicatorClasses|] == ServletIndicatorClasses;
      RegisterTypeIfPresent(JerseyIndicatorClass, classLoader, hints);
      RegisterTypeIfPresent(WebFluxIndicatorClass, classLoader, hints);
      RegisterTypeIfPresent(WebMvcIndicatorClass, classLoader, hints);
      PresentInPair(ServletClass, WebContextClass, classLoader);
      RegisteredInProbeOrder(classLoader);
      ghost var added := PresentIn(HintedIndicatorClasses, classLoader);
      ghost var o, p, j, f, m := old(hints.reflectionTypes), PresentIn(ServletIndicatorClasses, classLoader),
        IfPresent(JerseyIndicatorClass, classLoader), IfPresent(WebFluxIndicatorClass, classLoader),
        IfPresent(WebMvcIndicatorClass, classLoader);
      assert hints.reflectionTypes == o + p + j + f + m;
      assert added == p + j + f + m;
      Associative(o, p, j);
      Associative(o, p + j, f);
      Associative(o, p + j + f, m);
      assert hints.reflectionTypes == old(hints.reflectionTypes) + added;
      assert forall n :: n in HintedIndicatorClasses <==> n in IndicatorClasses;
      assert forall n :: n in hints.reflectionTypes <==> n in old(hints.reflectionTypes) || n in added;
    }

    /** Registers a reflection hint for `typeName` when it is present. */
    method RegisterTypeIfPresent(typeName: string, classLoader: set<string>, hints: RuntimeHints)
      modifies hints
      ensures hints.reflectionTypes ==
        old(hints.reflectionTypes) + IfPresent(typeName, classLoader)
    {
      if typeName in classLoader {
        hints.RegisterType(typeName);
      }
    }
  }
}
