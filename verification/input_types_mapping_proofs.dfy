/** Reference definitions of what the pass promises, and the proofs that the
    pass keeps those promises. */
module InputTypesMappingProofs {
  import opened Wrappers
  import opened PhpArrays
  import opened InputTypesMappingPass

  /** One deprecation notice per tag instance carrying `inputType`, in
      processing order; the mapping plays no part. */
  function Deprecations(occs: seq<Occurrence>): seq<Notice> {
    if occs == [] then []
    else
      (if HasInputType(occs[0].tag) then [Deprecation(INPUT_HANDLER_TAG, occs[0].serviceId, PARAM)] else [])
      + Deprecations(occs[1..])
  }

  /** The input type of the last tag instance that sets one for `f`. */
  function LastInputType(occs: seq<Occurrence>, f: string): Option<string> {
    if occs == [] then None
    else if SetsInputType(occs[|occs| - 1], f) then Some(InputTypeOf(occs[|occs| - 1].tag))
    else LastInputType(occs[..|occs| - 1], f)
  }

  /** The notices of two runs of tag instances, one after the other. */
  lemma {:induction false} DeprecationsAppend(a: seq<Occurrence>, b: seq<Occurrence>)
    ensures Deprecations(a + b) == Deprecations(a) + Deprecations(b)
  {
    if a != [] {
      assert (a + b)[1..] == a[1..] + b;
      DeprecationsAppend(a[1..], b);
    } else {
      assert a + b == b;
    }
  }

  /** Every notice names the input handler tag, the replacement parameter and
      a service carrying the deprecated attribute. */
  lemma {:induction false} DeprecationsName(occs: seq<Occurrence>)
    ensures forall n :: n in Deprecations(occs) ==>
      n.tagName == INPUT_HANDLER_TAG && n.parameter == PARAM &&
      exists o :: o in occs && HasInputType(o.tag) && o.serviceId == n.serviceId
    ensures forall o :: o in occs && HasInputType(o.tag) ==>
      Deprecation(INPUT_HANDLER_TAG, o.serviceId, PARAM) in Deprecations(occs)
  {
    if occs != [] {
      DeprecationsName(occs[1..]);
      assert forall o :: o in occs <==> o == occs[0] || o in occs[1..];
    }
  }

  /** `LastInputType` is the value written by the last tag instance that
      targets `f`: it exists exactly when some tag instance targets `f`. */
  lemma {:induction false} LastInputTypeExists(occs: seq<Occurrence>, f: string)
    ensures LastInputType(occs, f).Some? <==> exists o :: o in occs && SetsInputType(o, f)
  {
    if occs != [] {
      var init := occs[..|occs| - 1];
      LastInputTypeExists(init, f);
      assert forall o :: o in occs <==> o == occs[|occs| - 1] || o in init;
    }
  }

  /** The value of `LastInputType` comes from the last tag instance targeting `f`. */
  lemma {:induction false} LastInputTypeIsLastWrite(occs: seq<Occurrence>, f: string, i: nat)
    requires i < |occs| && SetsInputType(occs[i], f)
    requires forall j :: i < j < |occs| ==> !SetsInputType(occs[j], f)
    ensures LastInputType(occs, f) == Some(InputTypeOf(occs[i].tag))
  {
    if i < |occs| - 1 {
      var init := occs[..|occs| - 1];
      assert forall j :: i < j < |init| ==> init[j] == occs[j];
      LastInputTypeIsLastWrite(init, f, i);
    }
  }

  /** Running over `a + b` is running over `a`, then over `b` from where `a`
      left off. */
  lemma {:induction false} RunAppend(st: State, a: seq<Occurrence>, b: seq<Occurrence>)
    ensures Run(st, a + b) ==
      match Run(st, a)
      case Failure(e) => Failure(e)
      case Success(s) => Run(s, b)
    decreases |b|
  {
    if b == [] {
      assert a + b == a;
    } else {
      var init := b[..|b| - 1];
      assert (a + b)[..|a + b| - 1] == a + init;
      assert (a + b)[|a + b| - 1] == b[|b| - 1];
      RunAppend(st, a, init);
    }
  }

  /** A successful run raises exactly the deprecation notices of its tags. */
  lemma {:induction false} RunNotices(st: State, occs: seq<Occurrence>)
    requires Run(st, occs).Success?
    ensures Run(st, occs).value.notices == st.notices + Deprecations(occs)
  {
    if occs != [] {
      var init := occs[..|occs| - 1];
      var o := occs[|occs| - 1];
      RunNotices(st, init);
      assert occs == init + [o];
      DeprecationsAppend(init, [o]);
    }
  }

  /** A run fails exactly when some tag instance lacks a field type. */
  lemma {:induction false} RunFailsIff(st: State, occs: seq<Occurrence>)
    ensures Run(st, occs).Failure? <==> exists i :: 0 <= i < |occs| && !HasFieldType(occs[i].tag)
  {
    if occs != [] {
      var init := occs[..|occs| - 1];
      var o := occs[|occs| - 1];
      RunFailsIff(st, init);
      match Run(st, init)
      case Failure(e) =>
        var i :| 0 <= i < |init| && !HasFieldType(init[i].tag);
        assert occs[i] == init[i];
      case Success(s) =>
        assert Run(st, occs) == Step(s, o);
        if Run(st, occs).Success? {
          forall i | 0 <= i < |occs|
            ensures HasFieldType(occs[i].tag)
          {
            if i < |init| {
              assert occs[i] == init[i];
            }
          }
        }
    }
  }

  /** A run stops at the first tag instance without a field type: the error
      names the attribute and carries the notices of the tags before it. */
  lemma {:induction false} RunStopsAtFirstMissing(st: State, occs: seq<Occurrence>, i: nat)
    requires i < |occs| && !HasFieldType(occs[i].tag)
    requires forall j :: 0 <= j < i ==> HasFieldType(occs[j].tag)
    ensures Run(st, occs) ==
      Failure(MissingFieldType(FIELD_TYPE_ATTRIBUTE, st.notices + Deprecations(occs[..i])))
  {
    var before := occs[..i];
    RunFailsIff(st, before);
    RunNotices(st, before);
    assert occs[..i + 1] == before + [occs[i]];
    assert occs[..i + 1][..i] == before;
    assert occs == occs[..i + 1] + occs[i + 1..];
    RunAppend(st, occs[..i + 1], occs[i + 1..]);
  }

  /** A tag instance with a field type but no `inputType` changes nothing and
      raises nothing, wherever it stands. */
  lemma {:induction false} PlainTagChangesNothing(st: State, a: seq<Occurrence>, o: Occurrence, b: seq<Occurrence>)
    requires HasFieldType(o.tag) && !HasInputType(o.tag)
    ensures Run(st, a + [o] + b) == Run(st, a + b)
  {
    RunAppend(st, a + [o], b);
    RunAppend(st, a, b);
    assert (a + [o])[..|a + [o]| - 1] == a;
  }

  /** Migrating one tag instance keeps a well-formed mapping well formed. */
  lemma SetInputTypeWellFormed(m: Mapping, f: string, t: string)
    requires WellFormedMapping(m)
    ensures WellFormedMapping(SetInputType(m, f, t))
  {
    var config := ConfigOf(m, f);
    ConfigDistinct(m, f);
    var config' := Assign(config, INPUT_TYPE_KEY, t);
    AssignKeepsKeysDistinct(config, INPUT_TYPE_KEY, t);
    AssignKeepsKeysDistinct(m, f, config');
    var r := Assign(m, f, config');
    assert r == SetInputType(m, f, t);
    forall i | 0 <= i < |r|
      ensures DistinctKeys(r[i].1)
    {
      assert r[i] in r;
      if r[i] != (f, config') {
        var j :| 0 <= j < |m| && m[j] == r[i];
      }
    }
  }

  /** The loop keeps a well-formed mapping well formed. */
  lemma {:induction false} RunWellFormed(st: State, occs: seq<Occurrence>)
    requires WellFormedMapping(st.mapping)
    requires Run(st, occs).Success?
    ensures WellFormedMapping(Run(st, occs).value.mapping)
  {
    if occs != [] {
      var init := occs[..|occs| - 1];
      var o := occs[|occs| - 1];
      RunWellFormed(st, init);
      var s := Run(st, init).value;
      if HasFieldType(o.tag) && HasInputType(o.tag) {
        SetInputTypeWellFormed(s.mapping, FieldTypeOf(o.tag), InputTypeOf(o.tag));
      }
    }
  }

  /** What a successful run does to the mapping: the last write for a field
      type wins, every other key of its configuration is kept, field types no
      tag instance targets are untouched, and the existing field types keep
      their place with new ones after them. */
  lemma {:induction false} RunMapping(st: State, occs: seq<Occurrence>)
    requires Run(st, occs).Success?
    ensures var m := st.mapping; var r := Run(st, occs).value.mapping;
      && (forall f :: LastInputType(occs, f).None? ==> Find(r, f) == Find(m, f))
      && (forall f :: LastInputType(occs, f).Some? ==>
            f in KeysOf(r) && Find(ConfigOf(r, f), INPUT_TYPE_KEY) == LastInputType(occs, f))
      && (forall f, k :: k != INPUT_TYPE_KEY ==> Find(ConfigOf(r, f), k) == Find(ConfigOf(m, f), k))
      && (forall f :: f in KeysOf(r) <==> f in KeysOf(m) || LastInputType(occs, f).Some?)
      && KeysOf(m) <= KeysOf(r)
  {
    if occs != [] {
      var init := occs[..|occs| - 1];
      var o := occs[|occs| - 1];
      RunMapping(st, init);
    }
  }

  /** When every targeted field type already has an `input_type`, a run
      keeps the order of the field types and of each configuration's keys. */
  lemma {:induction false} RunKeepsKeyOrder(st: State, occs: seq<Occurrence>)
    requires Run(st, occs).Success?
    requires forall o :: o in occs && HasFieldType(o.tag) && HasInputType(o.tag) ==>
      HasInputTypeEntry(st.mapping, FieldTypeOf(o.tag))
    ensures var m := st.mapping; var r := Run(st, occs).value.mapping;
      && KeysOf(r) == KeysOf(m)
      && forall f :: KeysOf(ConfigOf(r, f)) == KeysOf(ConfigOf(m, f))
  {
    if occs != [] {
      var init := occs[..|occs| - 1];
      var o := occs[|occs| - 1];
      assert forall x :: x in init ==> x in occs;
      RunKeepsKeyOrder(st, init);
      var s := Run(st, init).value;
      if HasFieldType(o.tag) && HasInputType(o.tag) {
        var f := FieldTypeOf(o.tag);
        var r := SetInputType(s.mapping, f, InputTypeOf(o.tag));
        forall g
          ensures KeysOf(ConfigOf(r, g)) == KeysOf(ConfigOf(st.mapping, g))
        {
          if g != f {
            assert Find(r, g) == Find(s.mapping, g);
          }
        }
      }
    }
  }

  // ---- The pass ----

  /** The pass fails exactly when some tag instance on some service has no
      field type; a failure carries no parameter and no mapper tag, only the
      notices raised before the tag that stopped it. */
  lemma ProcessFailsIffFieldTypeMissing(services: TaggedServices, mapping: Mapping)
    ensures Process(services, mapping).Failure? <==>
      exists o :: o in Occurrences(services) && !HasFieldType(o.tag)
    ensures Process(services, mapping).Failure? ==>
      Process(services, mapping).error.attribute == FIELD_TYPE_ATTRIBUTE
  {
    var occs := Occurrences(services);
    RunFailsIff(State(mapping, []), occs);
    if Process(services, mapping).Failure? {
      var i :| 0 <= i < |occs| && !HasFieldType(occs[i].tag);
      var first := FirstMissing(occs, i);
      RunStopsAtFirstMissing(State(mapping, []), occs, first);
    }
  }

  /** The index of the first tag instance without a field type, given one. */
  ghost function FirstMissing(occs: seq<Occurrence>, i: nat): (first: nat)
    requires i < |occs| && !HasFieldType(occs[i].tag)
    ensures first <= i && !HasFieldType(occs[first].tag)
    ensures forall j :: 0 <= j < first ==> HasFieldType(occs[j].tag)
  {
    if i == 0 || forall j :: 0 <= j < i ==> HasFieldType(occs[j].tag) then i
    else
      var j :| 0 <= j < i && !HasFieldType(occs[j].tag);
      FirstMissing(occs, j)
  }

  /** On failure, the notices already raised are those of the tag instances
      before the first one without a field type. */
  lemma ProcessFailureNotices(services: TaggedServices, mapping: Mapping, i: nat)
    requires var occs := Occurrences(services);
      i < |occs| && !HasFieldType(occs[i].tag) &&
      forall j :: 0 <= j < i ==> HasFieldType(occs[j].tag)
    ensures Process(services, mapping) ==
      Failure(MissingFieldType(FIELD_TYPE_ATTRIBUTE, Deprecations(Occurrences(services)[..i])))
  {
    var occs := Occurrences(services);
    RunStopsAtFirstMissing(State(mapping, []), occs, i);
    assert [] + Deprecations(occs[..i]) == Deprecations(occs[..i]);
  }

  /** Migration: the last tag instance that sets an input type for `f`, in
      registration order, decides `mapping[f]['input_type']`. */
  lemma ProcessMigratesLastWrite(services: TaggedServices, mapping: Mapping, f: string, i: nat)
    requires var occs := Occurrences(services);
      i < |occs| && SetsInputType(occs[i], f) &&
      forall j :: i < j < |occs| ==> !SetsInputType(occs[j], f)
    ensures Process(services, mapping).Success? ==>
      var r := Process(services, mapping).value.parameter;
      Find(ConfigOf(r, f), INPUT_TYPE_KEY) == Some(InputTypeOf(Occurrences(services)[i].tag))
  {
    var occs := Occurrences(services);
    if Process(services, mapping).Success? {
      RunMapping(State(mapping, []), occs);
      LastInputTypeIsLastWrite(occs, f, i);
    }
  }

  /** The merge is non-destructive: other keys of a field type's
      configuration are kept, and field types no tag instance targets are
      unchanged. */
  lemma ProcessMergesNonDestructively(services: TaggedServices, mapping: Mapping)
    requires Process(services, mapping).Success?
    ensures var r := Process(services, mapping).value.parameter;
      && (forall f, k :: k != INPUT_TYPE_KEY ==> Find(ConfigOf(r, f), k) == Find(ConfigOf(mapping, f), k))
      && (forall f :: (forall o :: o in Occurrences(services) ==> !SetsInputType(o, f)) ==>
            Find(r, f) == Find(mapping, f))
  {
    var occs := Occurrences(services);
    RunMapping(State(mapping, []), occs);
    forall f | forall o :: o in occs ==> !SetsInputType(o, f)
      ensures LastInputType(occs, f).None?
    {
      LastInputTypeExists(occs, f);
    }
  }

  /** The field types of the written-back parameter are the original ones, in
      their original order, followed by those some tag instance sets an input
      type for. */
  lemma ProcessDomain(services: TaggedServices, mapping: Mapping)
    requires Process(services, mapping).Success?
    ensures var r := Process(services, mapping).value.parameter;
      && (forall f :: f in KeysOf(r) <==>
            f in KeysOf(mapping) || exists o :: o in Occurrences(services) && SetsInputType(o, f))
      && KeysOf(mapping) <= KeysOf(r)
  {
    var occs := Occurrences(services);
    RunMapping(State(mapping, []), occs);
    forall f ensures LastInputType(occs, f).Some? <==> exists o :: o in occs && SetsInputType(o, f) {
      LastInputTypeExists(occs, f);
    }
  }

  /** One notice per tag instance carrying `inputType`, in processing order. */
  lemma ProcessNotices(services: TaggedServices, mapping: Mapping)
    requires Process(services, mapping).Success?
    ensures Process(services, mapping).value.notices == Deprecations(Occurrences(services))
  {
    RunNotices(State(mapping, []), Occurrences(services));
  }

  /** The written-back parameter is still a PHP array of PHP arrays. */
  lemma ProcessWellFormed(services: TaggedServices, mapping: Mapping)
    requires WellFormedMapping(mapping)
    requires Process(services, mapping).Success?
    ensures WellFormedMapping(Process(services, mapping).value.parameter)
  {
    RunWellFormed(State(mapping, []), Occurrences(services));
  }

  /** The mapper gains exactly one tag per field type whose final entry has an
      `input_type`, whether migrated or there before, and no other tag. */
  lemma ProcessTagsMapper(services: TaggedServices, mapping: Mapping)
    requires WellFormedMapping(mapping)
    requires Process(services, mapping).Success?
    ensures var out := Process(services, mapping).value;
      && (forall f :: MapperTag(f) in out.mapperTags <==> HasInputTypeEntry(out.parameter, f))
      && (forall f :: HasInputTypeEntry(out.parameter, f) <==>
            HasInputTypeEntry(mapping, f) || exists o :: o in Occurrences(services) && SetsInputType(o, f))
      && (forall i, j :: 0 <= i < j < |out.mapperTags| ==> out.mapperTags[i] != out.mapperTags[j])
  {
    var occs := Occurrences(services);
    var out := Process(services, mapping).value;
    var r := out.parameter;
    RunWellFormed(State(mapping, []), occs);
    RunMapping(State(mapping, []), occs);
    forall f
      ensures MapperTag(f) in out.mapperTags <==> HasInputTypeEntry(r, f)
    {
      if HasInputTypeEntry(r, f) {
        FindIsEntry(r, f);
        var i :| 0 <= i < |r| && r[i] == (f, Find(r, f).value);
      }
      if MapperTag(f) in out.mapperTags {
        var i :| 0 <= i < |r| && r[i].0 == f && INPUT_TYPE_KEY in KeysOf(r[i].1);
        FindDistinct(r, i);
      }
    }
    forall f
      ensures HasInputTypeEntry(r, f) <==>
        HasInputTypeEntry(mapping, f) || exists o :: o in occs && SetsInputType(o, f)
    {
      LastInputTypeExists(occs, f);
    }
  }

  /** Running the pass again, with the same tags, on the parameter it wrote
      back gives the same parameter, the same mapper tags and the same notices. */
  lemma ProcessIdempotent(services: TaggedServices, mapping: Mapping)
    requires WellFormedMapping(mapping)
    requires Process(services, mapping).Success?
    ensures Process(services, Process(services, mapping).value.parameter) == Process(services, mapping)
  {
    var occs := Occurrences(services);
    var r := Process(services, mapping).value.parameter;
    RunFailsIff(State(mapping, []), occs);
    RunFailsIff(State(r, []), occs);
    RunWellFormed(State(mapping, []), occs);
    RunMapping(State(mapping, []), occs);
    forall o | o in occs && HasFieldType(o.tag) && HasInputType(o.tag)
      ensures HasInputTypeEntry(r, FieldTypeOf(o.tag))
    {
      LastInputTypeExists(occs, FieldTypeOf(o.tag));
    }
    RunKeepsKeyOrder(State(r, []), occs);
    RunWellFormed(State(r, []), occs);
    RunMapping(State(r, []), occs);
    var r2 := Run(State(r, []), occs).value.mapping;
    forall f
      ensures Find(r2, f) == Find(r, f)
    {
      if LastInputType(occs, f).Some? {
        ConfigDistinct(r, f);
        ConfigDistinct(r2, f);
        Extensionality(ConfigOf(r2, f), ConfigOf(r, f));
      }
    }
    Extensionality(r2, r);
    RunNotices(State(mapping, []), occs);
    RunNotices(State(r, []), occs);
  }

  /** The configuration of a field type in a well-formed mapping has distinct keys. */
  lemma ConfigDistinct(m: Mapping, f: string)
    requires WellFormedMapping(m)
    ensures DistinctKeys(ConfigOf(m, f))
  {
    if Find(m, f).Some? {
      FindIsEntry(m, f);
      var i :| 0 <= i < |m| && m[i] == (f, Find(m, f).value);
    }
  }
}
