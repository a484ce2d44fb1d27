/** Worked runs of the pass on small configurations. */
module InputTypesMappingExamples {
  import opened Wrappers
  import opened PhpArrays
  import opened InputTypesMappingPass

  const STRING_INPUT: string := "ezplatform_graphql.input.string"

  /** A single service with a single tag instance. */
  lemma OneTagOccurrences(id: string, tag: Attributes)
    ensures Occurrences([(id, [tag])]) == [Occurrence(id, tag)]
  {
  }

  /** Running over one tag instance is one step. */
  lemma RunOne(st: State, o: Occurrence)
    ensures Run(st, [o]) == Step(st, o)
  {
  }

  /** Running over two tag instances is two steps. */
  lemma RunTwo(st: State, o1: Occurrence, o2: Occurrence)
    requires Step(st, o1).Success?
    ensures Run(st, [o1, o2]) == Step(Step(st, o1).value, o2)
  {
    assert [o1, o2][..1] == [o1];
    RunOne(st, o1);
  }

  /** A handler declaring `inputType` for `ezstring` on an empty mapping:
      the entry is created, the mapper is tagged, one notice is raised. */
  lemma MigratesIntoEmptyMapping()
    ensures Process([("string_handler", [[("fieldtype", "ezstring"), ("inputType", STRING_INPUT)]])], [])
      == Success(Output(
           [("ezstring", [("input_type", STRING_INPUT)])],
           [MapperTag("ezstring")],
           [Deprecation(INPUT_HANDLER_TAG, "string_handler", PARAM)]))
  {
    var tag := [("fieldtype", "ezstring"), ("inputType", STRING_INPUT)];
    var o := Occurrence("string_handler", tag);
    OneTagOccurrences("string_handler", tag);
    assert Find(tag, FIELD_TYPE_ATTRIBUTE) == Some("ezstring");
    assert Find(tag, INPUT_TYPE_ATTRIBUTE) == Some(STRING_INPUT);
    assert HasFieldType(tag) && FieldTypeOf(tag) == "ezstring";
    assert HasInputType(tag) && InputTypeOf(tag) == STRING_INPUT;
    var config := [("input_type", STRING_INPUT)];
    var parameter := [("ezstring", config)];
    assert SetInputType([], "ezstring", STRING_INPUT) == parameter;
    RunOne(State([], []), o);
    var notice := Deprecation(INPUT_HANDLER_TAG, "string_handler", PARAM);
    assert Step(State([], []), o) == Success(State(SetInputType([], "ezstring", STRING_INPUT), [] + [notice]));
    assert [] + [notice] == [notice];
    assert INPUT_TYPE_KEY in KeysOf(config);
    assert parameter[..0] == [];
    assert MapperTags(parameter) == [MapperTag("ezstring")];
  }

  /** A handler without `inputType` leaves an existing entry alone, raises
      nothing and tags nothing, since that entry has no `input_type`. */
  lemma PlainHandlerChangesNothing()
    ensures Process([("boolean_handler", [[("fieldtype", "ezboolean")]])], [("ezboolean", [("some_other_key", "x")])])
      == Success(Output([("ezboolean", [("some_other_key", "x")])], [], []))
  {
    var tag := [("fieldtype", "ezboolean")];
    var m := [("ezboolean", [("some_other_key", "x")])];
    OneTagOccurrences("boolean_handler", tag);
    RunOne(State(m, []), Occurrence("boolean_handler", tag));
    assert Find(tag, FIELD_TYPE_ATTRIBUTE) == Some("ezboolean");
    assert Find(tag, INPUT_TYPE_ATTRIBUTE) == None;
    assert Step(State(m, []), Occurrence("boolean_handler", tag)) == Success(State(m, []));
    assert INPUT_TYPE_KEY !in KeysOf(m[0].1);
    assert m[..0] == [];
    assert MapperTags(m) == [];
  }

  /** A tag without `fieldtype` aborts the pass before anything is written. */
  lemma MissingFieldTypeAborts()
    ensures Process([("broken_handler", [[]])], []) == Failure(MissingFieldType(FIELD_TYPE_ATTRIBUTE, []))
  {
  }

  const TWO_HANDLERS: TaggedServices :=
    [("first", [[("fieldtype", "ezstring"), ("inputType", "A")]]),
     ("second", [[("fieldtype", "ezstring"), ("inputType", "B")]])]

  /** The two handlers are visited in registration order. */
  lemma TwoHandlersOccurrences()
    ensures Occurrences(TWO_HANDLERS) ==
      [Occurrence("first", [("fieldtype", "ezstring"), ("inputType", "A")]),
       Occurrence("second", [("fieldtype", "ezstring"), ("inputType", "B")])]
  {
  }

  /** Overwriting an existing `input_type` keeps its place and the `resolver` key. */
  lemma SetInputTypeOverwrites(t0: string, t: string)
    ensures SetInputType([("ezstring", [("resolver", "r"), ("input_type", t0)])], "ezstring", t)
      == [("ezstring", [("resolver", "r"), ("input_type", t)])]
  {
    var m := [("ezstring", [("resolver", "r"), ("input_type", t0)])];
    assert ConfigOf(m, "ezstring") == m[0].1;
    assert Assign(m[0].1, INPUT_TYPE_KEY, t) == [("resolver", "r"), ("input_type", t)];
  }

  /** One handler overwriting `ezstring`'s input type `t0` with `t`. */
  lemma OverwritingStep(notices: seq<Notice>, id: string, t0: string, t: string)
    ensures Step(State([("ezstring", [("resolver", "r"), ("input_type", t0)])], notices),
                 Occurrence(id, [("fieldtype", "ezstring"), ("inputType", t)]))
      == Success(State([("ezstring", [("resolver", "r"), ("input_type", t)])],
                       notices + [Deprecation(INPUT_HANDLER_TAG, id, PARAM)]))
  {
    var tag := [("fieldtype", "ezstring"), ("inputType", t)];
    assert FieldTypeOf(tag) == "ezstring" && InputTypeOf(tag) == t;
    SetInputTypeOverwrites(t0, t);
  }

  /** The loop over both handlers: two writes, two notices. */
  lemma TwoHandlersRun()
    ensures Run(State([("ezstring", [("resolver", "r"), ("input_type", "old")])], []),
                [Occurrence("first", [("fieldtype", "ezstring"), ("inputType", "A")]),
                 Occurrence("second", [("fieldtype", "ezstring"), ("inputType", "B")])])
      == Success(State([("ezstring", [("resolver", "r"), ("input_type", "B")])],
           [Deprecation(INPUT_HANDLER_TAG, "first", PARAM), Deprecation(INPUT_HANDLER_TAG, "second", PARAM)]))
  {
    var first := Occurrence("first", [("fieldtype", "ezstring"), ("inputType", "A")]);
    var second := Occurrence("second", [("fieldtype", "ezstring"), ("inputType", "B")]);
    var m0 := [("ezstring", [("resolver", "r"), ("input_type", "old")])];
    var m1 := [("ezstring", [("resolver", "r"), ("input_type", "A")])];
    var m2 := [("ezstring", [("resolver", "r"), ("input_type", "B")])];
    var n1 := [Deprecation(INPUT_HANDLER_TAG, "first", PARAM)];
    var n2 := n1 + [Deprecation(INPUT_HANDLER_TAG, "second", PARAM)];
    OverwritingStep([], "first", "old", "A");
    assert [] + n1 == n1;
    assert Step(State(m0, []), first) == Success(State(m1, n1));
    OverwritingStep(n1, "second", "A", "B");
    assert Step(State(m1, n1), second) == Success(State(m2, n2));
    RunTwo(State(m0, []), first, second);
    assert Run(State(m0, []), [first, second]) == Success(State(m2, n2));
    assert n2 == [Deprecation(INPUT_HANDLER_TAG, "first", PARAM), Deprecation(INPUT_HANDLER_TAG, "second", PARAM)];
  }

  /** Two handlers for the same field type: the later one wins, and the keys
      already configured for it are kept. */
  lemma LaterHandlerWins()
    ensures Process(TWO_HANDLERS, [("ezstring", [("resolver", "r"), ("input_type", "old")])])
      == Success(Output(
           [("ezstring", [("resolver", "r"), ("input_type", "B")])],
           [MapperTag("ezstring")],
           [Deprecation(INPUT_HANDLER_TAG, "first", PARAM), Deprecation(INPUT_HANDLER_TAG, "second", PARAM)]))
  {
    TwoHandlersOccurrences();
    TwoHandlersRun();
    var m2 := [("ezstring", [("resolver", "r"), ("input_type", "B")])];
    assert INPUT_TYPE_KEY in KeysOf(m2[0].1);
    assert m2[..0] == [];
    assert MapperTags(m2) == [MapperTag("ezstring")];
  }
}
