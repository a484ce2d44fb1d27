/** The pass as the source writes it: nested loops over the tagged services
    and their tag instances that update a local copy of the parameter, abort
    on the first tag instance without a field type, and then a loop over the
    copy that tags the mapper. */
module InputTypesMappingLoops {
  import opened Wrappers
  import opened PhpArrays
  import opened InputTypesMappingPass
  import opened InputTypesMappingProofs

  /** The tag instances of the first `n` services come first. */
  lemma {:induction false} ServicesPrefix(services: TaggedServices, n: nat)
    requires n <= |services|
    ensures Occurrences(services[..n]) <= Occurrences(services)
    decreases |services| - n
  {
    if n < |services| {
      ServicesPrefix(services, n + 1);
      assert services[..n + 1][..n] == services[..n];
    } else {
      assert services[..n] == services;
    }
  }

  /** One more tag instance of the current service has been visited. */
  lemma OccurrencesOnGrows(done: seq<Occurrence>, id: string, tags: seq<Attributes>, j: nat)
    requires j < |tags|
    ensures done + OccurrencesOn(id, tags[..j + 1]) == done + OccurrencesOn(id, tags[..j]) + [Occurrence(id, tags[j])]
    ensures done + OccurrencesOn(id, tags[..j + 1]) <= done + OccurrencesOn(id, tags)
  {
  }

  /** Continuing a successful run by one tag instance is one step. */
  lemma RunOneMore(st: State, a: seq<Occurrence>, o: Occurrence)
    requires Run(st, a).Success?
    ensures Run(st, a + [o]) == Step(Run(st, a).value, o)
  {
  }

  /** Once a run has failed, running over more tag instances keeps the failure. */
  lemma FailureIsFinal(st: State, a: seq<Occurrence>, b: seq<Occurrence>)
    requires a <= b && Run(st, a).Failure?
    ensures Run(st, b) == Run(st, a)
  {
    assert b == a + b[|a|..];
    RunAppend(st, a, b[|a|..]);
  }

  /** The pass with its loops: one over the services, one over each service's
      tag instances, one over the written-back parameter. */
  method ProcessLoops(services: TaggedServices, mapping: Mapping) returns (r: Result<Output, PassError>)
    ensures r == Process(services, mapping)
  {
    ghost var start := State(mapping, []);
    var st := State(mapping, []);
    var i := 0;
    while i < |services|
      invariant i <= |services|
      invariant Run(start, Occurrences(services[..i])) == Success(st)
    {
      assert services[..i + 1][..i] == services[..i];
      var next := MigrateService(start, Occurrences(services[..i]), services[i].0, services[i].1, st);
      if next.Failure? {
        ServicesPrefix(services, i + 1);
        FailureIsFinal(start, Occurrences(services[..i + 1]), Occurrences(services));
        return Failure(next.error);
      }
      st := next.value;
      i := i + 1;
    }
    assert services[..i] == services;
    var mapperTags := TagMapper(st.mapping);
    return Success(Output(st.mapping, mapperTags, st.notices));
  }

  /** The inner loop over the tag instances of service `id`, continuing a run
      that has visited `done`; it stops at the first tag without a field type. */
  method MigrateService(ghost start: State, ghost done: seq<Occurrence>, id: string, tags: seq<Attributes>, st: State)
    returns (r: Result<State, PassError>)
    requires Run(start, done) == Success(st)
    ensures r == Run(start, done + OccurrencesOn(id, tags))
  {
    var configuration := st.mapping;
    var notices := st.notices;
    var j := 0;
    assert done + OccurrencesOn(id, tags[..0]) == done;
    while j < |tags|
      invariant j <= |tags|
      invariant Run(start, done + OccurrencesOn(id, tags[..j])) == Success(State(configuration, notices))
    {
      var tag := tags[j];
      ghost var visited := done + OccurrencesOn(id, tags[..j]);
      OccurrencesOnGrows(done, id, tags, j);
      RunOneMore(start, visited, Occurrence(id, tag));
      if Find(tag, FIELD_TYPE_ATTRIBUTE).None? {
        FailureIsFinal(start, visited + [Occurrence(id, tag)], done + OccurrencesOn(id, tags));
        return Failure(MissingFieldType(FIELD_TYPE_ATTRIBUTE, notices));
      }
      if Find(tag, INPUT_TYPE_ATTRIBUTE).Some? {
        var fieldType := Find(tag, FIELD_TYPE_ATTRIBUTE).value;
        var inputType := Find(tag, INPUT_TYPE_ATTRIBUTE).value;
        notices := notices + [Deprecation(INPUT_HANDLER_TAG, id, PARAM)];
        configuration := SetInputType(configuration, fieldType, inputType);
      }
      j := j + 1;
    }
    assert tags[..j] == tags;
    return Success(State(configuration, notices));
  }

  /** The loop that adds one input mapper tag per field type whose
      configuration has an `input_type`, in the parameter's order. */
  method TagMapper(configuration: Mapping) returns (mapperTags: seq<Tag>)
    ensures mapperTags == MapperTags(configuration)
  {
    mapperTags := [];
    var k := 0;
    while k < |configuration|
      invariant k <= |configuration|
      invariant mapperTags == MapperTags(configuration[..k])
    {
      assert configuration[..k + 1][..k] == configuration[..k];
      if Find(configuration[k].1, INPUT_TYPE_KEY).Some? {
        mapperTags := mapperTags + [MapperTag(configuration[k].0)];
      }
      k := k + 1;
    }
    assert configuration[..k] == configuration;
  }
}
