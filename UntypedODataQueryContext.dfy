/** UntypedODataQueryContext: the path of the request, the target name derived
    from it once, a request container the host may attach after construction,
    and a compute-once cache of the default query settings. */
module QueryContext {
  import opened Common
  import opened Services

  /** One ODataPathSegment; what it means in the EDM model belongs to the path helper. */
  datatype PathSegment = PathSegment(identifier: string)

  /** An ODataPath: its ordered segments. */
  datatype ODataPath = ODataPath(segments: seq<PathSegment>)

  /** EdmLibHelpers.GetPropertyAndStructuredTypeFromPath, reduced to the name it
      reports through its last out-parameter (None for null). */
  type PathHelper = seq<PathSegment> -> Option<string>

  // ---------------------------------------------------------------------------
  // The DefaultQuerySettings cache as a value
  // ---------------------------------------------------------------------------

  /** The two fields the DefaultQuerySettings getter reads: RequestContainer and
      the _defaultQuerySettings cache. */
  datatype SettingsState = SettingsState(
    requestContainer: Option<ServiceContainer>,
    cache: Option<DefaultQuerySettings>)

  /** The state of a newly constructed context: no container, empty cache. */
  const NewContextSettings := SettingsState(None, None)

  /** One access to DefaultQuerySettings. `built` is the object that
      `new DefaultQuerySettings()` yields if the getter builds one. */
  function ReadDefaultQuerySettings(s: SettingsState, built: DefaultQuerySettings)
    : (r: (SettingsState, Result<DefaultQuerySettings>))
    // the container slot is never written by the getter
    ensures r.0.requestContainer == s.requestContainer
    // a filled cache answers and stays as it is
    ensures s.cache.Some? ==> r.0 == s && r.1 == Ok(s.cache.value)
    // empty cache, no container: the freshly built default
    ensures s.cache.None? && s.requestContainer.None? ==> r.1 == Ok(built)
    // empty cache, container present: its required registration, or the failure
    ensures s.cache.None? && s.requestContainer.Some? ==>
              (r.1.Ok? <==> s.requestContainer.value.defaultQuerySettings.Some?) &&
              (r.1.Ok? ==> r.1.value == s.requestContainer.value.defaultQuerySettings.value) &&
              (r.1.Failure? ==> r.1.error == MissingService("DefaultQuerySettings"))
    // whatever is returned is what the cache holds afterwards; a failure is not cached
    ensures r.1.Ok? ==> r.0.cache == Some(r.1.value)
    ensures r.1.Failure? ==> r.0.cache.None?
  {
    if s.cache.Some? then
      (s, Ok(s.cache.value))
    else
      var v := if s.requestContainer.None? then Ok(built)
               else s.requestContainer.value.GetRequiredDefaultQuerySettings();
      (s.(cache := if v.Ok? then Some(v.value) else None), v)
  }

  /** What a host can do to a context after construction, in the order it does it. */
  datatype ContextEvent =
    | SetRequestContainer(container: Option<ServiceContainer>)
    | GetDefaultQuerySettings(built: DefaultQuerySettings)

  /** The settings state after one event. */
  function Step(s: SettingsState, e: ContextEvent): SettingsState
  {
    match e
    case SetRequestContainer(c) => s.(requestContainer := c)
    case GetDefaultQuerySettings(b) => ReadDefaultQuerySettings(s, b).0
  }

  /** The settings state after a sequence of events. */
  function Replay(s: SettingsState, events: seq<ContextEvent>): SettingsState
    decreases |events|
  {
    if events == [] then s else Replay(Step(s, events[0]), events[1..])
  }

  /** Once the cache holds a value, no sequence of events, whatever containers
      it attaches or removes, replaces it. */
  lemma {:induction false} ReplayKeepsFilledCache(s: SettingsState, events: seq<ContextEvent>)
    requires s.cache.Some?
    ensures Replay(s, events).cache == s.cache
    decreases |events|
  {
    if events != [] {
      ReplayKeepsFilledCache(Step(s, events[0]), events[1..]);
    }
  }

  /** Once the cache holds a value, every later DefaultQuerySettings access
      returns exactly that value. */
  lemma {:induction false} LaterReadsReturnCache(s: SettingsState, events: seq<ContextEvent>)
    requires s.cache.Some?
    ensures forall i :: 0 <= i < |events| && events[i].GetDefaultQuerySettings? ==>
              ReadDefaultQuerySettings(Replay(s, events[..i]), events[i].built).1 == Ok(s.cache.value)
  {
    forall i | 0 <= i < |events| && events[i].GetDefaultQuerySettings?
      ensures ReadDefaultQuerySettings(Replay(s, events[..i]), events[i].built).1 == Ok(s.cache.value)
    {
      ReplayKeepsFilledCache(s, events[..i]);
    }
  }

  /** A context read before any container is attached keeps its freshly built
      default, even after a container that registers other settings is attached. */
  lemma {:induction false} LateContainerKeepsFallback(
    built: DefaultQuerySettings, container: ServiceContainer, later: seq<ContextEvent>)
    ensures Replay(NewContextSettings,
                   [GetDefaultQuerySettings(built), SetRequestContainer(Some(container))] + later).cache
            == Some(built)
  {
    var events := [GetDefaultQuerySettings(built), SetRequestContainer(Some(container))] + later;
    var afterRead := Step(NewContextSettings, events[0]);
    assert afterRead.cache == Some(built);
    assert Replay(NewContextSettings, events) == Replay(afterRead, events[1..]);
    ReplayKeepsFilledCache(afterRead, events[1..]);
  }

  /** A container with a DefaultQuerySettings registration attached before the
      first access decides the settings: the cache then holds that registration
      for every later event. */
  lemma {:induction false} EarlyContainerDecides(
    built: DefaultQuerySettings, container: ServiceContainer, later: seq<ContextEvent>)
    requires container.defaultQuerySettings.Some?
    ensures Replay(NewContextSettings,
                   [SetRequestContainer(Some(container)), GetDefaultQuerySettings(built)] + later).cache
            == container.defaultQuerySettings
  {
    var events := [SetRequestContainer(Some(container)), GetDefaultQuerySettings(built)] + later;
    var afterRead := Step(Step(NewContextSettings, events[0]), events[1]);
    assert afterRead.cache == container.defaultQuerySettings;
    assert Replay(NewContextSettings, events) == Replay(afterRead, events[2..]);
    ReplayKeepsFilledCache(afterRead, events[2..]);
  }

  // ---------------------------------------------------------------------------
  // The object
  // ---------------------------------------------------------------------------

  class UntypedODataQueryContext {
    /** Path: set by the constructor only. */
    const path: Option<ODataPath>
    /** TargetName: written by GetPathContext only. */
    var targetName: Option<string>
    /** RequestContainer: the host may set it at any time. */
    var requestContainer: Option<ServiceContainer>
    /** _defaultQuerySettings: the cache behind DefaultQuerySettings. */
    var defaultQuerySettings: Option<DefaultQuerySettings>

    /** The part of this object the DefaultQuerySettings getter works on. */
    function Settings(): SettingsState
      reads this
    {
      SettingsState(requestContainer, defaultQuerySettings)
    }

    /** The stand-alone constructor: stores the path, which may be null, and
        derives TargetName from it. */
    constructor (path: Option<ODataPath>, pathHelper: PathHelper)
      ensures this.path == path
      ensures path.None? ==> targetName.None?
      ensures path.Some? ==> targetName == pathHelper(path.value.segments)
      ensures Settings() == NewContextSettings
    {
      this.path := path;
      targetName := None;
      requestContainer := None;
      defaultQuerySettings := None;
      new;
      GetPathContext(pathHelper);
    }

    /** Sets TargetName to the name the path helper reports for Path's segments;
        leaves it alone when Path is null. */
    method GetPathContext(pathHelper: PathHelper)
      modifies this`targetName
      ensures path.Some? ==> targetName == pathHelper(path.value.segments)
      ensures path.None? ==> targetName == old(targetName)
    {
      if path.Some? {
        var name := pathHelper(path.value.segments);
        targetName := name;
      }
    }

    /** The DefaultQuerySettings getter. */
    method GetDefaultQuerySettings() returns (r: Result<DefaultQuerySettings>)
      modifies this`defaultQuerySettings
      ensures old(defaultQuerySettings).None? && requestContainer.None? ==> r.Ok? && fresh(r.value)
      ensures r.Ok? ==> (Settings(), r) == ReadDefaultQuerySettings(old(Settings()), r.value)
      ensures r.Failure? ==>
                old(defaultQuerySettings).None? && requestContainer.Some? &&
                r == requestContainer.value.GetRequiredDefaultQuerySettings() &&
                defaultQuerySettings.None?
    {
      if defaultQuerySettings.None? {
        if requestContainer.None? {
          var built := new DefaultQuerySettings();
          defaultQuerySettings := Some(built);
        } else {
          var registered := requestContainer.value.GetRequiredDefaultQuerySettings();
          if registered.Failure? {
            return Failure(registered.error);
          }
          defaultQuerySettings := Some(registered.value);
        }
      }
      r := Ok(defaultQuerySettings.value);
    }

    /** The RequestContainer setter: changes that slot and nothing else. */
    method SetRequestContainer(container: Option<ServiceContainer>)
      modifies this`requestContainer
      ensures requestContainer == container
      ensures Settings() == Step(old(Settings()), ContextEvent.SetRequestContainer(container))
      ensures targetName == old(targetName) && defaultQuerySettings == old(defaultQuerySettings)
    {
      requestContainer := container;
    }
  }
}
