/**
 The switch of the vector log agent (internal/controller/vector.go). Both object builders read it
 through a pointer that the resource may leave out.
 */
module Vector {
  import opened Wrappers
  import opened SpecValues

  /** Logging is configured without saying whether the agent runs. */
  predicate FlagMissing(logging: Option<Logging>)
  {
    logging.Some? && logging.value.enableVectorAgent.None?
  }

  predicate VectorOn(logging: Option<Logging>)
  {
    logging.Some? && logging.value.enableVectorAgent == Some(true)
  }

  /** `IsVectorEnable`: dereferences the flag of any logging section. */
  method IsVectorEnable(logging: Option<Logging>) returns (outcome: Outcome, enabled: bool)
    ensures outcome.Panicked? <==> FlagMissing(logging)
    ensures enabled <==> VectorOn(logging)
  {
    enabled := false;
    if logging.Some? {
      if logging.value.enableVectorAgent.None? {
        return Panicked, false;
      }
      enabled := logging.value.enableVectorAgent.value;
    }
    outcome := Returned;
  }

  /** `buildVectorConfig`, given what the library renders for the cluster. */
  method BuildVectorConfig(logging: Option<Logging>, aggregator: string, rendered: Result<string>)
    returns (r: Result<string>)
    ensures r.Err? <==>
              && logging.Some? && logging.value.enableVectorAgent.Some?
              && (aggregator == "" || (VectorOn(logging) && rendered.Err?))
    ensures r.Ok? ==> r.value == if VectorOn(logging) then rendered.value else ""
  {
    if logging.Some? && logging.value.enableVectorAgent.Some? {
      if aggregator == "" {
        return Err("vector is enabled but vectorAggregatorConfigMapName is not set");
      }
      if logging.value.enableVectorAgent.value {
        return rendered;
      }
    }
    return Ok("");
  }
}
