# Web application type detection

A model of Spring Boot's `WebApplicationType`: the three kinds of web application
(`NONE`, `SERVLET`, `REACTIVE`), the deduction of the kind from the classes present
on the class path, and the registrar that records reflection hints for the
indicator classes ahead of time.

- `aot_hint.dfy`, module `AotHint`: the hints registry the registrar is handed. It is
  a class whose field `reflectionTypes` is the sequence of type names registered so
  far. `RegisteredTypes()` is the set view of that sequence.
- `web_application_type.dfy`, module `Boot`: the enum as the datatype
  `WebApplicationType` (`None`, `Servlet`, `Reactive`) and the five indicator class
  names as constants. It also holds:
  - `Deduce`, the deduction as a function;
  - `DeduceFromClasspath`, the same deduction as a method with the source's `for` loop
    and early return, proved equal to `Deduce`;
  - `DeduceQueries`, the sequence of names the deduction asks about, which expresses
    the short-circuit behaviour;
  - `DecisionTable`, a ten-row decision table, proved exhaustive, with disjoint rows,
    and agreeing with `Deduce`;
  - the class `WebApplicationTypeRuntimeHints` with `RegisterHints` and
    `RegisterTypeIfPresent`.

A class path, or the view of one through a class loader, is a `set<string>` of
loadable fully qualified class names. "Present" means "in the set". `deduceFromClasspath`
takes no arguments in the source and asks the default loader. Here that class path is
the parameter `classPath`. `registerHints` asks the class loader it is given. Here that
loader's view is the parameter `classLoader`.

The decision table has ten rows. Two groups of combinations are easy to miss when
writing such a table by hand. The first is WebFlux and Jersey present with WebMvc
absent: the reactive check fails, so the servlet indicators decide. The second is
WebFlux and WebMvc present with only `jakarta.servlet.Servlet` present: the result
is `None`. `DecisionTableIsExhaustive` and `DecisionTableRowsAreDisjoint` show that the
ten rows cover every combination of the five flags exactly once.

## Model

| member | source | states |
|---|---|---|
| `AotHint.RuntimeHints.RegisterType` | spring-boot-project/spring-boot/src/main/java/org/springframework/boot/WebApplicationType.java:95 | registering a type appends exactly that name to the reflection hints; the set of hinted types gains exactly that name |
| `Boot.AllPresent` | spring-boot-project/spring-boot/src/main/java/org/springframework/boot/WebApplicationType.java:69-76 | the servlet loop gets through the names without returning exactly when every name in the list is present |
| `Boot.ProbesUntilAbsent` | spring-boot-project/spring-boot/src/main/java/org/springframework/boot/WebApplicationType.java:69-76 | the loop probes a prefix of the names in list order; every probe but the last succeeded; it stops at the first absent name, and probes all names when all are present |
| `Boot.Deduce` | spring-boot-project/spring-boot/src/main/java/org/springframework/boot/WebApplicationType.java:60-78 | `Reactive` exactly when WebFlux is present and WebMvc and Jersey are absent, whatever the servlet indicators say; otherwise `Servlet` exactly when both servlet indicators are present, and `None` exactly when either is absent |
| `Boot.DeduceQueries` | spring-boot-project/spring-boot/src/main/java/org/springframework/boot/WebApplicationType.java:61-70 | WebFlux is always asked first and only indicator names are asked; WebMvc is asked only when WebFlux is present; Jersey is asked only when WebFlux is present and WebMvc absent; the first servlet indicator is asked exactly when the reactive check failed; the second is asked exactly when the reactive check failed and the first is present |
| `Boot.DeduceFromClasspath` | spring-boot-project/spring-boot/src/main/java/org/springframework/boot/WebApplicationType.java:60-79 | the method with the short-circuiting condition and the early-returning loop returns `Deduce(classPath)` and asks exactly the names `DeduceQueries(classPath)`, in that order |
| `Boot.ProbesDecide` | spring-boot-project/spring-boot/src/main/java/org/springframework/boot/WebApplicationType.java:69-76 | two class paths that agree on the names the loop probes for the first are probed identically and give the same loop outcome |
| `Boot.QueriesDecide` | spring-boot-project/spring-boot/src/main/java/org/springframework/boot/WebApplicationType.java:60-78 | the deduced type and the queries depend only on the answers to the names actually queried: a class path that agrees on those gives the same queries and the same type |
| `Boot.DependsOnlyOnIndicators` | spring-boot-project/spring-boot/src/main/java/org/springframework/boot/WebApplicationType.java:51-78 | the deduction is a function of the five presence flags alone: class paths that agree on the five indicator names give the same type and the same queries |
| `Boot.DecisionTableIsExhaustive` | spring-boot-project/spring-boot/src/main/java/org/springframework/boot/WebApplicationType.java:37-49 | every combination of the five presence flags matches some row of the decision table |
| `Boot.DecisionTableRowsAreDisjoint` | spring-boot-project/spring-boot/src/main/java/org/springframework/boot/WebApplicationType.java:60-78 | no combination of the five presence flags matches two rows |
| `Boot.DecisionTableAgreesWithDeduce` | spring-boot-project/spring-boot/src/main/java/org/springframework/boot/WebApplicationType.java:60-78 | the outcome in the row a class path matches is the deduced type |
| `Boot.PresentIn` | spring-boot-project/spring-boot/src/main/java/org/springframework/boot/WebApplicationType.java:93-97 | the names kept from a list are exactly those that are in the list and present, and there are no more of them than in the list |
| `Boot.PresentInAppend` | spring-boot-project/spring-boot/src/main/java/org/springframework/boot/WebApplicationType.java:85-90 | registering one list of names after another registers what each list registers, in that order |
| `Boot.RegisteredInProbeOrder` | spring-boot-project/spring-boot/src/main/java/org/springframework/boot/WebApplicationType.java:85-90 | the names the registrar keeps are the present ones among the servlet indicator, the web context indicator, Jersey, WebFlux and WebMvc, in that order, each at most once |
| `Boot.WebApplicationTypeRuntimeHints.RegisterTypeIfPresent` | spring-boot-project/spring-boot/src/main/java/org/springframework/boot/WebApplicationType.java:93-97 | a present name is appended to the reflection hints; an absent name leaves them unchanged |
| `Boot.WebApplicationTypeRuntimeHints.RegisterHints` | spring-boot-project/spring-boot/src/main/java/org/springframework/boot/WebApplicationType.java:84-91 | the reflection hints become the old hints followed by the present indicator names in probe order, and nothing else; the set of hinted types grows by exactly the indicator names present under the given loader |

## Left out

- `ClassUtils.isPresent` is modelled as membership in a set of loadable names. Class loading, linkage errors and the exceptions a lookup may raise are not modelled.
- The difference between the `null` loader that `deduceFromClasspath` passes and an explicit class loader is not modelled. Each call is given the class path it asks.
- `RuntimeHints`, `reflection()` and `TypeReference.of` belong to the ahead-of-time hints library. Only what `registerType` does to the set of hinted types is modelled: it records the name. The registry is kept as the sequence of registrations. Its set view stands for the real registry, which merges repeated registrations of one type.
- `DeduceFromClasspath` returns the sequence of names it queried as a second result. The source has no such result. It is there so the short-circuit behaviour can be stated.
- The bootstrap code that consumes the deduced type, such as starting an embedded web server, is not part of this model.
- Concurrency and class-loader caching are not modelled. The source has neither.
