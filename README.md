# OData `$apply` option and untyped query context, modelled in Dafny

This project models two small stateful objects of the ASP.NET OData query layer:

- `UntypedODataQueryContext`. It holds the request's `ODataPath` and the `TargetName` derived from that path once, at construction. It also holds a request container (`IServiceProvider`) that the host may attach at any time, and a compute-once cache behind `DefaultQuerySettings`. With no container, the first access builds a fresh default. With a container, it takes the container's required registration. Whatever the first successful access produced stays cached, even if a container is attached later.
- `ApplyDynamicQueryOption`. It holds the raw `$apply` text, its context and the `ODataQueryOptionParser`. The constructor checks its arguments in the order context, raw value, parser. The `ApplyClause` getter calls the parser only while nothing is cached. A failure or a null result is not cached, so the next access parses again. `ApplyTo` does four things in order. It checks `query` and then `querySettings`. It forces the parse. It picks an assemblies resolver: the container's registration when there is one, otherwise `WebApiAssembliesResolver.Default`. Then it returns the query it was given, untouched.

Files:

- `Common.dfy`: `Option` (a nullable reference), `Result` (a returned value or a thrown exception) and the exceptions.
- `Services.dfy`: the request container, reduced to the two registrations the core asks for. Also the resolver values and the `DefaultQuerySettings` object.
- `UntypedODataQueryContext.dfy`: the context class. Also the cache as a value (`SettingsState`, `ReadDefaultQuerySettings`), the host events replayed over it, and lemmas about the order in which those events happen.
- `ApplyDynamicQueryOption.dfy`: the parser as an oracle class and the option class. Also the getter and `ApplyTo` as functions on values (`AccessApplyClause`, `ApplyToOutcome`), and lemmas about repeated accesses.
- `Scenarios.dfy`: client methods that use only the class contracts. One builds the default before attaching a container. One adds and then removes an injected resolver between two `ApplyTo` calls. One passes an empty or malformed `$apply` text.

Each class method has a contract that ties the new state to a function of the old state (`Clause()`, `Settings()`). The lemmas about those functions state the memoization and fixation-order properties.

Three behaviours of the code worth noting:

- `ApplyTo` compiles no transformation and returns its `query` argument unchanged. The resolver it selects is never used. The model reports that resolver as a ghost result, so its choice can be stated.
- The parser is called on every access until it yields a clause, and never after that.
- The XML comment on the constructor says `rawValue` "can be null or empty", but the constructor throws in that case. The model throws.

## Model

| member | source | states |
|---|---|---|
| `ApplyQuery.ConstructorArgumentError` | src/Microsoft.AspNet.OData.Shared/Query/ApplyDynamicQueryOption.cs:34-47 | construction succeeds exactly when context is non-null, rawValue is neither null nor empty, and the parser is non-null; otherwise the first failing check in the order context, rawValue, parser decides the exception and its parameter name |
| `ApplyQuery.ApplyDynamicQueryOption.Create` | src/Microsoft.AspNet.OData.Shared/Query/ApplyDynamicQueryOption.cs:32-52 | throws exactly the exception `ConstructorArgumentError` names; on success a new option whose Context, RawValue and parser are the arguments, whose cache is empty, and whose parser was not called |
| `ApplyQuery.ApplyDynamicQueryOption.constructor` | src/Microsoft.AspNet.OData.Shared/Query/ApplyDynamicQueryOption.cs:49-51 | stores Context, RawValue and the parser and leaves the clause cache empty |
| `ApplyQuery.ODataQueryOptionParser.ParseApply` | src/Microsoft.AspNet.OData.Shared/Query/ApplyDynamicQueryOption.cs:69 | each call counts once and yields the oracle's outcome for that call number |
| `ApplyQuery.AccessApplyClause` | src/Microsoft.AspNet.OData.Shared/Query/ApplyDynamicQueryOption.cs:63-74 | a cached clause is returned with no parser call; an empty cache costs exactly one call; a parsed clause is cached and returned; a null result or a syntax error leaves the cache empty, and the error propagates unchanged |
| `ApplyQuery.ApplyDynamicQueryOption.GetApplyClause` | src/Microsoft.AspNet.OData.Shared/Query/ApplyDynamicQueryOption.cs:63-74 | the getter's new cache, parser call count and result are those of `AccessApplyClause` on the old ones |
| `ApplyQuery.CachedClauseIsStable` | src/Microsoft.AspNet.OData.Shared/Query/ApplyDynamicQueryOption.cs:67-72 | once a clause is cached, any number of further accesses neither call the parser nor change the clause |
| `ApplyQuery.FailuresAreRetried` | src/Microsoft.AspNet.OData.Shared/Query/ApplyDynamicQueryOption.cs:67-70 | while the parser yields no clause, the cache stays empty and each of k accesses calls the parser once more |
| `ApplyQuery.FirstClauseIsKept` | src/Microsoft.AspNet.OData.Shared/Query/ApplyDynamicQueryOption.cs:63-74 | if the (j+1)-th parser call is the first to yield a clause, then after any k > j accesses the cache holds that clause and the parser was called exactly j+1 times |
| `ApplyQuery.CachedClauseIsLastParse` | src/Microsoft.AspNet.OData.Shared/Query/ApplyDynamicQueryOption.cs:67-70 | k accesses make at most k parser calls; a clause in the cache is the one yielded by the last call made |
| `ApplyQuery.SelectAssembliesResolver` | src/Microsoft.AspNet.OData.Shared/Query/ApplyDynamicQueryOption.cs:109-117 | the chosen resolver is the container's registration when a container is attached and returns one; otherwise it is `WebApiAssembliesResolver.Default` |
| `ApplyQuery.ApplyToOutcome` | src/Microsoft.AspNet.OData.Shared/Query/ApplyDynamicQueryOption.cs:91-120 | a null query, then null settings, fail before the clause is touched; otherwise the clause is accessed once and a parse failure propagates; success happens exactly when both arguments are present and the clause is available, and then returns the very query given, with the resolver chosen from this call's container |
| `ApplyQuery.ApplyDynamicQueryOption.ApplyTo` | src/Microsoft.AspNet.OData.Shared/Query/ApplyDynamicQueryOption.cs:91-120 | the method's new clause state, result and chosen resolver are those of `ApplyToOutcome` for the context's current container |
| `ApplyQuery.ApplyToReparsesNothing` | src/Microsoft.AspNet.OData.Shared/Query/ApplyDynamicQueryOption.cs:103-117 | after an `ApplyTo` that cached a clause, a second `ApplyTo` changes no state and returns the same query; its resolver is chosen again from the container at the second call, so nothing is cached across calls |
| `Services.ServiceContainer.GetAssembliesResolver` | src/Microsoft.AspNet.OData.Shared/Query/ApplyDynamicQueryOption.cs:112 | returns the container's IWebApiAssembliesResolver registration, or null (None) when there is none |
| `Services.ServiceContainer.GetRequiredDefaultQuerySettings` | src/Microsoft.AspNet.OData.Shared/UntypedODataQueryContext.cs:50 | succeeds exactly when the container has a DefaultQuerySettings registration and returns it; otherwise fails with a missing-service error |
| `QueryContext.UntypedODataQueryContext.constructor` | src/Microsoft.AspNet.OData.Shared/UntypedODataQueryContext.cs:33-37 | Path is stored as given, even when null; TargetName is null for a null path, otherwise it is the helper's name for the path's segments; no container, empty cache |
| `QueryContext.UntypedODataQueryContext.GetPathContext` | src/Microsoft.AspNet.OData.Shared/UntypedODataQueryContext.cs:73-88 | with a path, TargetName becomes the helper's name for Path.Segments; without one, TargetName is left as it was |
| `QueryContext.ReadDefaultQuerySettings` | src/Microsoft.AspNet.OData.Shared/UntypedODataQueryContext.cs:42-55 | a filled cache answers and stays unchanged; with an empty cache and no container the answer is the newly built default; with a container it is the container's required registration, or its failure; what is returned is what is cached, a failure caches nothing, and the container slot is not written |
| `QueryContext.UntypedODataQueryContext.GetDefaultQuerySettings` | src/Microsoft.AspNet.OData.Shared/UntypedODataQueryContext.cs:42-55 | with no cache and no container the result is a freshly allocated object; the new state and result are those of `ReadDefaultQuerySettings`, and a failure leaves the cache empty |
| `QueryContext.UntypedODataQueryContext.SetRequestContainer` | src/Microsoft.AspNet.OData.Shared/UntypedODataQueryContext.cs:69 | sets the container slot and leaves TargetName and the settings cache unchanged (Path is immutable) |
| `QueryContext.ReplayKeepsFilledCache` | src/Microsoft.AspNet.OData.Shared/UntypedODataQueryContext.cs:46-53 | once the settings cache is filled, no sequence of container changes and accesses replaces it |
| `QueryContext.LaterReadsReturnCache` | src/Microsoft.AspNet.OData.Shared/UntypedODataQueryContext.cs:46-53 | once the settings cache is filled, every later access returns the cached value, whatever containers are attached in between |
| `QueryContext.LateContainerKeepsFallback` | src/Microsoft.AspNet.OData.Shared/UntypedODataQueryContext.cs:46-53 | on a new context, an access before any container is attached fixes the built default; a container attached afterwards, with any registration, never replaces it |
| `QueryContext.EarlyContainerDecides` | src/Microsoft.AspNet.OData.Shared/UntypedODataQueryContext.cs:48-50 | on a new context, a container attached before the first access fixes the cache to that container's registration for every later event |

## Left out

- The `$apply` grammar and `ODataQueryOptionParser` internals are not modelled. The parser is an oracle: its n-th `ParseApply` call yields a clause, null, or a syntax error. `ApplyClause` is an opaque value.
- `EdmLibHelpers.GetPropertyAndStructuredTypeFromPath` and the EDM model are not modelled. The helper is a function parameter from segments to an optional name. The property and structured type it also reports are unused by the core, so they are dropped.
- The dependency-injection framework is not modelled. A container is a record of the two registrations the core asks for: an optional resolver and optional default settings. `GetAssembliesResolver` (for `GetService`) and `GetRequiredDefaultQuerySettings` (for `GetRequiredService`) are plain lookups of those registrations. `WebApiAssembliesResolver.Default` is a constant.
- `DefaultQuerySettings` switches are not read by the core. The object is modelled only by its identity.
- `IQueryable` and expression trees are not modelled. `ApplyTo` is generic in the query type and never looks into the query, because the code never transforms it.
- `ODataQuerySettings` is reduced to its null-propagation option. `ApplyTo` only checks it for null.
- The `Contract.Assert(applyClause != null)` is a debug-build check, so the model follows a release build, where it does nothing. If the parser returned null, `ApplyTo` still returns the query. `ApplyToOutcome` states this.
- Thread safety of the two lazy caches is not modelled. The code takes no locks.
