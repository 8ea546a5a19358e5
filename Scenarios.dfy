/** Client code: what a caller can conclude from the contracts of the two
    objects alone, for the orders of events the hosting pipeline can produce. */
module Scenarios {
  import opened Common
  import opened Services
  import opened QueryContext
  import opened ApplyQuery

  /** A container attached after the first DefaultQuerySettings access does
      not replace the default built at that access. */
  method LateContainer(registered: DefaultQuerySettings)
  {
    var context := new UntypedODataQueryContext(None, (segments: seq<PathSegment>) => None);
    assert context.targetName.None?;
    var first := context.GetDefaultQuerySettings();
    context.SetRequestContainer(Some(ServiceContainer(None, Some(registered))));
    var second := context.GetDefaultQuerySettings();
    assert first.Ok? && second == first && second.value != registered;
  }

  /** The $apply text is parsed once across two ApplyTo calls, and an injected
      resolver removed between them is not remembered. */
  method ResolverPerCall(query: string)
  {
    var context := new UntypedODataQueryContext(None, (segments: seq<PathSegment>) => None);
    var parser := new ODataQueryOptionParser((n: nat) => Parsed(ApplyClause(7)));
    var created := ApplyDynamicQueryOption.Create(Some("groupby((Category))"), context, parser);
    assert created.Ok?;
    var option := created.value;
    var custom := AssembliesResolver("custom");
    context.SetRequestContainer(Some(ServiceContainer(Some(custom), None)));
    var r1, resolver1 := option.ApplyTo(Some(query), Some(ODataQuerySettings(DefaultPropagation)));
    assert r1 == Ok(query) && resolver1 == Some(custom) && parser.calls == 1;
    context.SetRequestContainer(Some(ServiceContainer(None, None)));
    var r2, resolver2 := option.ApplyTo(Some(query), Some(ODataQuerySettings(DefaultPropagation)));
    assert r2 == Ok(query) && resolver2 == Some(DefaultAssembliesResolver) && parser.calls == 1;
  }

  /** An empty $apply text is refused before the parser is called; a malformed
      one fails on every access, calling the parser each time. */
  method BadText()
  {
    var context := new UntypedODataQueryContext(None, (segments: seq<PathSegment>) => None);
    var parser := new ODataQueryOptionParser((n: nat) => SyntaxError("unexpected end"));
    var empty := ApplyDynamicQueryOption.Create(Some(""), context, parser);
    assert empty == Failure(ArgumentNullOrEmpty("rawValue")) && parser.calls == 0;
    var created := ApplyDynamicQueryOption.Create(Some("groupby(("), context, parser);
    var option := created.value;
    var first := option.GetApplyClause();
    var second := option.GetApplyClause();
    assert first.Failure? && second.Failure? && parser.calls == 2 && option.applyClause.None?;
  }
}
