/** The dependency-injection services the core looks up: the request container,
    the assemblies resolver it may override, and the default query settings it
    may register. Only the lookups the core performs are modelled. */
module Services {
  import opened Common

  /** An IWebApiAssembliesResolver implementation, told apart by name. */
  datatype AssembliesResolver = AssembliesResolver(name: string)

  /** WebApiAssembliesResolver.Default, the process-wide resolver. */
  const DefaultAssembliesResolver := AssembliesResolver("WebApiAssembliesResolver.Default")

  /** A DefaultQuerySettings object. Its switches (expand, select, top, ...)
      are not read by the core; only its identity matters here. */
  class DefaultQuerySettings {
    constructor ()
    {
    }
  }

  /** A request container (IServiceProvider), reduced to the two registrations
      the core asks it for; None is "not registered". */
  datatype ServiceContainer = ServiceContainer(
    assembliesResolver: Option<AssembliesResolver>,
    defaultQuerySettings: Option<DefaultQuerySettings>)
  {
    /** GetService<IWebApiAssembliesResolver>(): null when nothing is registered. */
    function GetAssembliesResolver(): (r: Option<AssembliesResolver>)
      ensures r.Some? <==> assembliesResolver.Some?
      ensures r.Some? ==> r.value == assembliesResolver.value
    {
      assembliesResolver
    }

    /** GetRequiredService<DefaultQuerySettings>(): throws when nothing is registered. */
    function GetRequiredDefaultQuerySettings(): (r: Result<DefaultQuerySettings>)
      ensures r.Ok? <==> defaultQuerySettings.Some?
      ensures r.Ok? ==> r.value == defaultQuerySettings.value
      ensures r.Failure? ==> r.error == MissingService("DefaultQuerySettings")
    {
      match defaultQuerySettings
      case Some(s) => Ok(s)
      case None => Failure(MissingService("DefaultQuerySettings"))
    }
  }
}
