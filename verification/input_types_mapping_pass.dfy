/** The compiler pass that migrates the deprecated `inputType` attribute of the
    field type input handler tag into the field definition type mapping
    parameter, then tags the configurable field definition mapper once per
    field type that has an input type.

    The service container is abstracted away: the tagged services and the
    current parameter value are inputs, and the written-back parameter, the tags
    added to the mapper and the deprecation notices are the output. */
module InputTypesMappingPass {
  import opened Wrappers
  import opened PhpArrays

  const INPUT_HANDLER_TAG: string := "ezplatform_graphql.fieldtype_input_handler"
  const INPUT_MAPPER_TAG: string := "ezplatform_graphql.field_definition_input_mapper"
  const FIELD_TYPE_ATTRIBUTE: string := "fieldtype"
  /** The deprecated tag attribute, spelled as the pass reads it. */
  const INPUT_TYPE_ATTRIBUTE: string := "inputType"
  /** The key under which a field type's input type is stored in the mapping. */
  const INPUT_TYPE_KEY: string := "input_type"
  const PARAM: string := "ezplatform_graphql.schema.content.mapping.field_definition_type"

  /** The attributes of one tag instance. */
  type Attributes = Entries<string>

  /** The configuration of one field type, e.g. `input_type => ...`. */
  type FieldTypeConfig = Entries<string>

  /** The value of the mapping parameter: field type => configuration. */
  type Mapping = Entries<FieldTypeConfig>

  /** Services carrying the input handler tag: service id => its tag instances,
      in registration order. */
  type TaggedServices = Entries<seq<Attributes>>

  /** A tag added to a service definition. */
  datatype Tag = Tag(name: string, attributes: Attributes)

  /** A deprecation notice: the tag, the offending service and the parameter
      to use instead. */
  datatype Notice = Deprecation(tagName: string, serviceId: string, parameter: string)

  /** The pass throws when a tag instance has no field type. The exception
      names the missing attribute; the notices already raised before the throw
      have gone out and are kept here. */
  datatype PassError = MissingFieldType(attribute: string, emitted: seq<Notice>)

  /** What a successful run produces: the parameter written back, the tags
      added to the configurable mapper (in order), and the notices raised. */
  datatype Output = Output(parameter: Mapping, mapperTags: seq<Tag>, notices: seq<Notice>)

  /** One tag instance on one service, as visited by the nested loops. */
  datatype Occurrence = Occurrence(serviceId: string, tag: Attributes)

  /** The local copy of the parameter and the notices raised so far. */
  datatype State = State(mapping: Mapping, notices: seq<Notice>)

  /** A mapping is a PHP array of PHP arrays: keys are distinct at both levels. */
  predicate WellFormedMapping(m: Mapping) {
    DistinctKeys(m) && forall i :: 0 <= i < |m| ==> DistinctKeys(m[i].1)
  }

  predicate HasFieldType(tag: Attributes) {
    Find(tag, FIELD_TYPE_ATTRIBUTE).Some?
  }

  predicate HasInputType(tag: Attributes) {
    Find(tag, INPUT_TYPE_ATTRIBUTE).Some?
  }

  function FieldTypeOf(tag: Attributes): string
    requires HasFieldType(tag)
  {
    Find(tag, FIELD_TYPE_ATTRIBUTE).value
  }

  function InputTypeOf(tag: Attributes): string
    requires HasInputType(tag)
  {
    Find(tag, INPUT_TYPE_ATTRIBUTE).value
  }

  /** The tag instance sets an input type for field type `f`. */
  predicate SetsInputType(o: Occurrence, f: string) {
    HasFieldType(o.tag) && HasInputType(o.tag) && FieldTypeOf(o.tag) == f
  }

  /** The configuration of `f`; PHP creates a missing one as an empty array
      on first write. */
  function ConfigOf(m: Mapping, f: string): FieldTypeConfig {
    Find(m, f).GetOr([])
  }

  /** The mapping has an entry for `f` carrying an `input_type`. */
  predicate HasInputTypeEntry(m: Mapping, f: string) {
    f in KeysOf(m) && INPUT_TYPE_KEY in KeysOf(ConfigOf(m, f))
  }

  /** The tag instances of all services, services in order and each
      service's tags in order. */
  function Occurrences(services: TaggedServices): (occs: seq<Occurrence>)
    ensures forall o :: o in occs <==>
      exists i :: 0 <= i < |services| && o.serviceId == services[i].0 && o.tag in services[i].1
  {
    if services == [] then []
    else
      var init := services[..|services| - 1];
      var last := services[|services| - 1];
      assert forall o: Occurrence :: o in OccurrencesOn(last.0, last.1) <==> o.serviceId == last.0 && o.tag in last.1 by {
        forall o: Occurrence | o.serviceId == last.0 && o.tag in last.1
          ensures o in OccurrencesOn(last.0, last.1)
        {
          var j :| 0 <= j < |last.1| && last.1[j] == o.tag;
          assert OccurrencesOn(last.0, last.1)[j] == o;
        }
      }
      assert forall i :: 0 <= i < |init| ==> init[i] == services[i];
      Occurrences(init) + OccurrencesOn(last.0, last.1)
  }

  function OccurrencesOn(id: string, tags: seq<Attributes>): seq<Occurrence> {
    seq(|tags|, j requires 0 <= j < |tags| => Occurrence(id, tags[j]))
  }

  /** `$mappingConfiguration[f]['input_type'] = t`. */
  function SetInputType(m: Mapping, f: string, t: string): (r: Mapping)
    ensures f in KeysOf(r)
    ensures Find(ConfigOf(r, f), INPUT_TYPE_KEY) == Some(t)
    ensures forall k :: k != INPUT_TYPE_KEY ==> Find(ConfigOf(r, f), k) == Find(ConfigOf(m, f), k)
    ensures forall g :: g != f ==> Find(r, g) == Find(m, g)
    ensures KeysOf(r) == if f in KeysOf(m) then KeysOf(m) else KeysOf(m) + [f]
    ensures KeysOf(ConfigOf(r, f)) ==
      if INPUT_TYPE_KEY in KeysOf(ConfigOf(m, f)) then KeysOf(ConfigOf(m, f))
      else KeysOf(ConfigOf(m, f)) + [INPUT_TYPE_KEY]
  {
    var config := Assign(ConfigOf(m, f), INPUT_TYPE_KEY, t);
    AssignThenFind(ConfigOf(m, f), INPUT_TYPE_KEY, t);
    AssignThenFind(m, f, config);
    Assign(m, f, config)
  }

  /** The body of the inner loop for one tag instance. */
  function Step(st: State, o: Occurrence): Result<State, PassError> {
    if !HasFieldType(o.tag) then
      Failure(MissingFieldType(FIELD_TYPE_ATTRIBUTE, st.notices))
    else if !HasInputType(o.tag) then
      Success(st)
    else
      Success(State(SetInputType(st.mapping, FieldTypeOf(o.tag), InputTypeOf(o.tag)),
                    st.notices + [Deprecation(INPUT_HANDLER_TAG, o.serviceId, PARAM)]))
  }

  /** The loops over all tag instances, stopping at the first failure. */
  function Run(st: State, occs: seq<Occurrence>): Result<State, PassError>
    decreases |occs|
  {
    if occs == [] then Success(st)
    else
      match Run(st, occs[..|occs| - 1])
      case Failure(e) => Failure(e)
      case Success(s) => Step(s, occs[|occs| - 1])
  }

  /** The tag the mapper gains for field type `f`. */
  function MapperTag(f: string): Tag {
    Tag(INPUT_MAPPER_TAG, [(FIELD_TYPE_ATTRIBUTE, f)])
  }

  /** The loop over the final mapping that tags the configurable mapper. */
  function MapperTags(m: Mapping): (tags: seq<Tag>)
    ensures forall t :: t in tags ==> |t.attributes| == 1 && t == MapperTag(t.attributes[0].1)
    ensures forall f :: MapperTag(f) in tags <==>
      exists i :: 0 <= i < |m| && m[i].0 == f && INPUT_TYPE_KEY in KeysOf(m[i].1)
    ensures DistinctKeys(m) ==> forall i, j :: 0 <= i < j < |tags| ==> tags[i] != tags[j]
  {
    if m == [] then []
    else
      var last := m[|m| - 1];
      MapperTags(m[..|m| - 1]) + (if INPUT_TYPE_KEY in KeysOf(last.1) then [MapperTag(last.0)] else [])
  }

  /** The pass: migrate every tag instance, write the parameter back, then tag
      the mapper. */
  function Process(services: TaggedServices, mapping: Mapping): Result<Output, PassError> {
    match Run(State(mapping, []), Occurrences(services))
    case Failure(e) => Failure(e)
    case Success(st) => Success(Output(st.mapping, MapperTags(st.mapping), st.notices))
  }
}
