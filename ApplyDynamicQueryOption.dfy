/** ApplyDynamicQueryOption: the raw $apply text, its context, a parser it
    drives lazily, the cached parse, and ApplyTo. */
module ApplyQuery {
  import opened Common
  import opened Services
  import opened QueryContext

  /** A parsed $apply clause; its transformations belong to the grammar library. */
  datatype ApplyClause = ApplyClause(id: nat)

  /** What one call of ODataQueryOptionParser.ParseApply does: returns a
      clause, returns null, or throws a syntax error. */
  datatype ParseOutcome = Parsed(clause: ApplyClause) | ParsedNull | SyntaxError(message: string)

  /** HandleNullPropagationOption. */
  datatype HandleNullPropagationOption = DefaultPropagation | TruePropagation | FalsePropagation

  /** ODataQuerySettings; ApplyTo only checks it for null. */
  datatype ODataQuerySettings = ODataQuerySettings(handleNullPropagation: HandleNullPropagationOption)

  /** The $apply parser as an oracle: its n-th call to ParseApply yields outcomes(n). */
  class ODataQueryOptionParser {
    const outcomes: nat -> ParseOutcome
    /** How many times ParseApply has been called. */
    var calls: nat

    constructor (outcomes: nat -> ParseOutcome)
      ensures this.outcomes == outcomes && calls == 0
    {
      this.outcomes := outcomes;
      calls := 0;
    }

    method ParseApply() returns (r: ParseOutcome)
      modifies this`calls
      ensures calls == old(calls) + 1
      ensures r == outcomes(old(calls))
    {
      r := outcomes(calls);
      calls := calls + 1;
    }
  }

  // ---------------------------------------------------------------------------
  // Specification of the operations, on values
  // ---------------------------------------------------------------------------

  /** The exception the constructor throws, if any: the first failing check in
      the order context, rawValue, queryOptionParser. */
  function ConstructorArgumentError(
    rawValue: Option<string>, context: UntypedODataQueryContext?, queryOptionParser: ODataQueryOptionParser?)
    : (e: Option<Error>)
    ensures e.None? <==> context != null && !IsNullOrEmpty(rawValue) && queryOptionParser != null
    ensures context == null ==> e == Some(ArgumentNull("context"))
    ensures context != null && IsNullOrEmpty(rawValue) ==> e == Some(ArgumentNullOrEmpty("rawValue"))
    ensures context != null && !IsNullOrEmpty(rawValue) && queryOptionParser == null ==>
              e == Some(ArgumentNull("queryOptionParser"))
  {
    if context == null then Some(ArgumentNull("context"))
    else if IsNullOrEmpty(rawValue) then Some(ArgumentNullOrEmpty("rawValue"))
    else if queryOptionParser == null then Some(ArgumentNull("queryOptionParser"))
    else None
  }

  /** The parse cache of an option together with its parser's call counter. */
  datatype ClauseState = ClauseState(cache: Option<ApplyClause>, calls: nat)

  /** One access to the ApplyClause getter. */
  function AccessApplyClause(s: ClauseState, outcomes: nat -> ParseOutcome)
    : (r: (ClauseState, Result<Option<ApplyClause>>))
    // a cached clause is returned without calling the parser
    ensures s.cache.Some? ==> r.0 == s && r.1 == Ok(s.cache)
    // an empty cache costs exactly one parser call
    ensures s.cache.None? ==> r.0.calls == s.calls + 1
    // a parsed clause is cached and returned
    ensures s.cache.None? && outcomes(s.calls).Parsed? ==>
              r.0.cache == Some(outcomes(s.calls).clause) && r.1 == Ok(r.0.cache)
    // a null result is returned and leaves the cache empty
    ensures s.cache.None? && outcomes(s.calls).ParsedNull? ==> r.0.cache.None? && r.1 == Ok(None)
    // a syntax error propagates unchanged and leaves the cache empty
    ensures s.cache.None? && outcomes(s.calls).SyntaxError? ==>
              r.0.cache.None? && r.1 == Failure(ODataError(outcomes(s.calls).message))
  {
    if s.cache.Some? then (s, Ok(s.cache))
    else
      var calls := s.calls + 1;
      match outcomes(s.calls)
      case Parsed(c) => (ClauseState(Some(c), calls), Ok(Some(c)))
      case ParsedNull => (ClauseState(None, calls), Ok(None))
      case SyntaxError(m) => (ClauseState(None, calls), Failure(ODataError(m)))
  }

  /** The clause state after k accesses to the ApplyClause getter. */
  function AccessRepeatedly(s: ClauseState, outcomes: nat -> ParseOutcome, k: nat): ClauseState
    decreases k
  {
    if k == 0 then s else AccessRepeatedly(AccessApplyClause(s, outcomes).0, outcomes, k - 1)
  }

  /** The resolver ApplyTo settles on: the container's IWebApiAssembliesResolver
      when a container is attached and returns one, otherwise the default. */
  function SelectAssembliesResolver(container: Option<ServiceContainer>): (r: AssembliesResolver)
    ensures container.Some? && container.value.assembliesResolver.Some? ==>
              r == container.value.assembliesResolver.value
    ensures container.None? || container.value.assembliesResolver.None? ==>
              r == DefaultAssembliesResolver
  {
    var resolver := DefaultAssembliesResolver;
    if container.None? then resolver
    else
      var injected := container.value.GetAssembliesResolver();
      if injected.None? then resolver else injected.value
  }

  /** ApplyTo on values: the new clause state, the result, and the resolver
      chosen (None when ApplyTo stops before choosing one). */
  function ApplyToOutcome<Q>(
    query: Option<Q>, querySettings: Option<ODataQuerySettings>,
    s: ClauseState, outcomes: nat -> ParseOutcome, container: Option<ServiceContainer>)
    : (r: (ClauseState, Result<Q>, Option<AssembliesResolver>))
    // argument checks come first, query before querySettings, and touch nothing
    ensures query.None? ==> r == (s, Failure(ArgumentNull("query")), None)
    ensures query.Some? && querySettings.None? ==> r == (s, Failure(ArgumentNull("querySettings")), None)
    // with both arguments present the clause is accessed exactly once
    ensures query.Some? && querySettings.Some? ==> r.0 == AccessApplyClause(s, outcomes).0
    // a parse failure propagates and no resolver is chosen
    ensures query.Some? && querySettings.Some? && AccessApplyClause(s, outcomes).1.Failure? ==>
              r.1 == Failure(AccessApplyClause(s, outcomes).1.error) && r.2.None?
    // success exactly when both arguments are present and the clause is available
    ensures r.1.Ok? <==> query.Some? && querySettings.Some? && AccessApplyClause(s, outcomes).1.Ok?
    // on success: the very query given, and the resolver chosen for this call's container
    ensures r.1.Ok? ==> r.1.value == query.value && r.2 == Some(SelectAssembliesResolver(container))
  {
    if query.None? then (s, Failure(ArgumentNull("query")), None)
    else if querySettings.None? then (s, Failure(ArgumentNull("querySettings")), None)
    else
      var (s', clause) := AccessApplyClause(s, outcomes);
      if clause.Failure? then (s', Failure(clause.error), None)
      else (s', Ok(query.value), Some(SelectAssembliesResolver(container)))
  }

  // ---------------------------------------------------------------------------
  // Properties of the parse cache
  // ---------------------------------------------------------------------------

  /** Once a clause is cached, any number of further accesses neither call the
      parser nor change the clause. */
  lemma {:induction false} CachedClauseIsStable(s: ClauseState, outcomes: nat -> ParseOutcome, k: nat)
    requires s.cache.Some?
    ensures AccessRepeatedly(s, outcomes, k) == s
    decreases k
  {
    if k > 0 {
      CachedClauseIsStable(AccessApplyClause(s, outcomes).0, outcomes, k - 1);
    }
  }

  /** Failures and null results are not cached: while the parser yields no
      clause, every access calls it again. */
  lemma {:induction false} FailuresAreRetried(s: ClauseState, outcomes: nat -> ParseOutcome, k: nat)
    requires s.cache.None?
    requires forall n :: s.calls <= n < s.calls + k ==> !outcomes(n).Parsed?
    ensures AccessRepeatedly(s, outcomes, k) == ClauseState(None, s.calls + k)
    decreases k
  {
    if k > 0 {
      var s' := AccessApplyClause(s, outcomes).0;
      assert s' == ClauseState(None, s.calls + 1);
      FailuresAreRetried(s', outcomes, k - 1);
    }
  }

  /** The parser is called until it first yields a clause, and never again:
      after k accesses whose (j+1)-th call is the first to parse, the cache holds
      that clause and the parser has been called j+1 times. */
  lemma {:induction false} FirstClauseIsKept(
    s: ClauseState, outcomes: nat -> ParseOutcome, j: nat, k: nat)
    requires s.cache.None?
    requires j < k
    requires outcomes(s.calls + j).Parsed?
    requires forall n :: s.calls <= n < s.calls + j ==> !outcomes(n).Parsed?
    ensures AccessRepeatedly(s, outcomes, k)
            == ClauseState(Some(outcomes(s.calls + j).clause), s.calls + j + 1)
  {
    AccessesCompose(s, outcomes, j, k - j);
    FailuresAreRetried(s, outcomes, j);
    var failed := ClauseState(None, s.calls + j);
    var parsed := AccessApplyClause(failed, outcomes).0;
    assert parsed == ClauseState(Some(outcomes(s.calls + j).clause), s.calls + j + 1);
    assert AccessRepeatedly(failed, outcomes, k - j) == AccessRepeatedly(parsed, outcomes, k - j - 1);
    CachedClauseIsStable(parsed, outcomes, k - j - 1);
  }

  /** a accesses followed by b accesses are a + b accesses. */
  lemma {:induction false} AccessesCompose(s: ClauseState, outcomes: nat -> ParseOutcome, a: nat, b: nat)
    ensures AccessRepeatedly(AccessRepeatedly(s, outcomes, a), outcomes, b)
            == AccessRepeatedly(s, outcomes, a + b)
    decreases a
  {
    if a > 0 {
      AccessesCompose(AccessApplyClause(s, outcomes).0, outcomes, a - 1, b);
    }
  }

  /** k accesses make at most k parser calls, and a clause in the cache is the
      one the last parser call yielded. */
  lemma {:induction false} CachedClauseIsLastParse(
    s: ClauseState, outcomes: nat -> ParseOutcome, k: nat)
    requires s.cache.None?
    ensures var t := AccessRepeatedly(s, outcomes, k);
            t.calls <= s.calls + k &&
            (t.cache.Some? ==> t.calls > s.calls && outcomes(t.calls - 1).Parsed? && t.cache == Some(outcomes(t.calls - 1).clause))
    decreases k
  {
    if k > 0 {
      var s' := AccessApplyClause(s, outcomes).0;
      if s'.cache.Some? {
        CachedClauseIsStable(s', outcomes, k - 1);
      } else {
        CachedClauseIsLastParse(s', outcomes, k - 1);
      }
    }
  }

  /** Calling ApplyTo again after a successful ApplyTo that cached a clause
      parses nothing and returns the same query, while the resolver is chosen
      afresh from the container as it is at the second call. */
  lemma {:induction false} ApplyToReparsesNothing<Q>(
    query: Q, querySettings: ODataQuerySettings, s: ClauseState, outcomes: nat -> ParseOutcome,
    first: Option<ServiceContainer>, second: Option<ServiceContainer>)
    requires ApplyToOutcome(Some(query), Some(querySettings), s, outcomes, first).1.Ok?
    requires ApplyToOutcome(Some(query), Some(querySettings), s, outcomes, first).0.cache.Some?
    ensures var s1 := ApplyToOutcome(Some(query), Some(querySettings), s, outcomes, first).0;
            ApplyToOutcome(Some(query), Some(querySettings), s1, outcomes, second)
            == (s1, Ok(query), Some(SelectAssembliesResolver(second)))
  {
  }

  // ---------------------------------------------------------------------------
  // The objects
  // ---------------------------------------------------------------------------

  class ApplyDynamicQueryOption {
    /** _applyClause: the cached parse. */
    var applyClause: Option<ApplyClause>
    /** _queryOptionParser. */
    const queryOptionParser: ODataQueryOptionParser
    /** Context. */
    const context: UntypedODataQueryContext
    /** RawValue. */
    const rawValue: string

    /** The parse cache and the parser's call counter. */
    function Clause(): ClauseState
      reads this, queryOptionParser
    {
      ClauseState(applyClause, queryOptionParser.calls)
    }

    /** Stores the arguments once Create has checked them. */
    constructor (rawValue: string, context: UntypedODataQueryContext, queryOptionParser: ODataQueryOptionParser)
      requires rawValue != ""
      ensures this.rawValue == rawValue && this.context == context
      ensures this.queryOptionParser == queryOptionParser
      ensures applyClause.None?
    {
      this.context := context;
      this.rawValue := rawValue;
      this.queryOptionParser := queryOptionParser;
      applyClause := None;
    }

    /** The C# constructor: checks context, then rawValue, then the parser, and
        stores them without parsing anything. */
    static method Create(
      rawValue: Option<string>, context: UntypedODataQueryContext?, queryOptionParser: ODataQueryOptionParser?)
      returns (r: Result<ApplyDynamicQueryOption>)
      ensures r.Failure? <==> ConstructorArgumentError(rawValue, context, queryOptionParser).Some?
      ensures r.Failure? ==> r.error == ConstructorArgumentError(rawValue, context, queryOptionParser).value
      ensures r.Ok? ==> fresh(r.value) && r.value.context == context &&
                        Some(r.value.rawValue) == rawValue &&
                        r.value.queryOptionParser == queryOptionParser &&
                        r.value.applyClause.None?
      ensures queryOptionParser != null ==> queryOptionParser.calls == old(queryOptionParser.calls)
    {
      if context == null {
        return Failure(ArgumentNull("context"));
      }
      if IsNullOrEmpty(rawValue) {
        return Failure(ArgumentNullOrEmpty("rawValue"));
      }
      if queryOptionParser == null {
        return Failure(ArgumentNull("queryOptionParser"));
      }
      var option := new ApplyDynamicQueryOption(rawValue.value, context, queryOptionParser);
      r := Ok(option);
    }

    /** The ApplyClause getter: parses only while nothing is cached. */
    method GetApplyClause() returns (r: Result<Option<ApplyClause>>)
      modifies this`applyClause, queryOptionParser`calls
      ensures (Clause(), r) == AccessApplyClause(old(Clause()), queryOptionParser.outcomes)
    {
      if applyClause.None? {
        var parsed := queryOptionParser.ParseApply();
        match parsed
        case Parsed(c) =>
          applyClause := Some(c);
        case ParsedNull =>
          applyClause := None;
        case SyntaxError(m) =>
          return Failure(ODataError(m));
      }
      r := Ok(applyClause);
    }

    /** ApplyTo: checks its arguments, forces the parse, picks the assemblies
        resolver and returns the query it was given. The chosen resolver is
        reported as a ghost result because the method itself discards it. */
    method ApplyTo<Q>(query: Option<Q>, querySettings: Option<ODataQuerySettings>)
      returns (r: Result<Q>, ghost assembliesResolver: Option<AssembliesResolver>)
      modifies this`applyClause, queryOptionParser`calls
      ensures (Clause(), r, assembliesResolver)
              == ApplyToOutcome(query, querySettings, old(Clause()), queryOptionParser.outcomes,
                                context.requestContainer)
    {
      if query.None? {
        return Failure(ArgumentNull("query")), None;
      }
      if querySettings.None? {
        return Failure(ArgumentNull("querySettings")), None;
      }
      var clause := GetApplyClause();
      if clause.Failure? {
        return Failure(clause.error), None;
      }
      // Contract.Assert(applyClause != null) is a debug-build check only.
      ghost var resolver := DefaultAssembliesResolver;
      if context.requestContainer.Some? {
        ghost var injected := context.requestContainer.value.GetAssembliesResolver();
        if injected.Some? {
          resolver := injected.value;
        }
      }
      assembliesResolver := Some(resolver);
      r := Ok(query.value);
    }
  }
}
