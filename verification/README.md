# InputTypesMappingPass, modelled in Dafny

A model of the `InputTypesMappingPass` compiler pass of ezplatform-graphql.
At container-build time the pass walks every service tagged
`ezplatform_graphql.fieldtype_input_handler`. Each tag instance must carry a
`fieldtype` attribute; a missing one throws and aborts the build. A tag
instance that also carries the deprecated `inputType` attribute raises a
deprecation notice and has its value written into the
`ezplatform_graphql.schema.content.mapping.field_definition_type` parameter
as `mapping[fieldtype]['input_type']`. The pass then writes the parameter back
and adds one `ezplatform_graphql.field_definition_input_mapper` tag to the
`ConfigurableFieldDefinitionMapper` definition for every field type whose
entry has an `input_type`.

The container is abstracted away. The tagged services (service id, then its
tag instances, in registration order) and the current parameter value are
inputs. `Process` returns either the error the pass throws, or the
written-back parameter, the tags added to the mapper (in the order they are
added) and the deprecation notices (in the order they are raised).

Files:

- `wrappers.dfy`: `Option` and `Result`.
- `php_arrays.dfy`: string-keyed PHP arrays as ordered entry lists. `Find`
  is `isset`/read, and `Assign` is `$a[$k] = $v`, which overwrites in place or
  appends. Order matters here: `foreach` over the parameter decides the order
  of the mapper tags, and the written-back parameter keeps its key order.
- `input_types_mapping_pass.dfy`: the constants, the data model, one loop
  step (`Step`), the loop over all tag instances (`Run`), the mapper tagging
  loop (`MapperTags`) and the whole pass (`Process`).
- `input_types_mapping_proofs.dfy`: reference definitions (`Deprecations`,
  `LastInputType`) and the properties of the pass.
- `input_types_mapping_loops.dfy`: the pass written with nested loops, the
  way the source writes it (`ProcessLoops`), proved equal to `Process`.
- `input_types_mapping_examples.dfy`: four small runs worked out in full.

All source paths below are relative to the repository root.

## Model

| member | source | states |
|---|---|---|
| PhpArrays.Find | src/DependencyInjection/Compiler/InputTypesMappingPass.php:34 | `isset($a[$k])` holds exactly when `k` is one of the array's keys |
| PhpArrays.FindDistinct | src/DependencyInjection/Compiler/InputTypesMappingPass.php:63 | in an array with distinct keys, reading a key gives the value of the entry that holds it |
| PhpArrays.Assign | src/DependencyInjection/Compiler/InputTypesMappingPass.php:54 | `$a[$k] = $v` leaves every other key's value unchanged; it keeps the key order, or appends `k` when `k` is new; it creates no entry other than `(k, v)` |
| PhpArrays.AssignThenFind | src/DependencyInjection/Compiler/InputTypesMappingPass.php:54 | after `$a[$k] = $v`, reading `$a[$k]` gives `$v` |
| PhpArrays.AssignKeepsKeysDistinct | src/DependencyInjection/Compiler/InputTypesMappingPass.php:54 | writing a key never makes a key occur twice |
| PhpArrays.Extensionality | src/DependencyInjection/Compiler/InputTypesMappingPass.php:59 | two arrays with the same key order and the same value under every key are equal |
| InputTypesMappingPass.SetInputType | src/DependencyInjection/Compiler/InputTypesMappingPass.php:54 | the nested write creates `mapping[f]` if it is missing and sets its `input_type` to `t`; every other key of `mapping[f]` and every other field type is unchanged; the outer and inner key orders are kept, with new keys appended |
| InputTypesMappingPass.Occurrences | src/DependencyInjection/Compiler/InputTypesMappingPass.php:32-33 | the loops visit exactly the (service id, tag instance) pairs of the tagged services |
| InputTypesMappingPass.MapperTags | src/DependencyInjection/Compiler/InputTypesMappingPass.php:62-71 | every added tag is an input-mapper tag with one `fieldtype` attribute; there is a tag for `f` exactly when some entry for `f` has `input_type`; with distinct keys, no tag is added twice |
| InputTypesMappingProofs.DeprecationsName | src/DependencyInjection/Compiler/InputTypesMappingPass.php:43-53 | every notice names the input handler tag, the replacement parameter and a service whose tag carries `inputType`; every such service has a notice |
| InputTypesMappingProofs.LastInputTypeExists | src/DependencyInjection/Compiler/InputTypesMappingPass.php:43-54 | a last written input type for `f` exists exactly when some tag instance sets an input type for `f` |
| InputTypesMappingProofs.LastInputTypeIsLastWrite | src/DependencyInjection/Compiler/InputTypesMappingPass.php:32-54 | the last written input type for `f` is the one from the last tag instance targeting `f`, in processing order |
| InputTypesMappingProofs.RunAppend | src/DependencyInjection/Compiler/InputTypesMappingPass.php:32-57 | processing `a + b` means processing `a`, stopping on failure, then processing `b` from the resulting state |
| InputTypesMappingProofs.RunNotices | src/DependencyInjection/Compiler/InputTypesMappingPass.php:43-53 | a successful run appends exactly the deprecation notices of its tag instances |
| InputTypesMappingProofs.RunFailsIff | src/DependencyInjection/Compiler/InputTypesMappingPass.php:34-41 | the loop throws exactly when some tag instance has no `fieldtype` |
| InputTypesMappingProofs.RunStopsAtFirstMissing | src/DependencyInjection/Compiler/InputTypesMappingPass.php:34-41 | the throw happens at the first tag instance without `fieldtype`; by then only the notices of earlier tag instances have been raised |
| InputTypesMappingProofs.PlainTagChangesNothing | src/DependencyInjection/Compiler/InputTypesMappingPass.php:43-55 | a tag instance with `fieldtype` and no `inputType` can be removed from any position without changing the outcome: no mapping change and no notice |
| InputTypesMappingProofs.SetInputTypeWellFormed | src/DependencyInjection/Compiler/InputTypesMappingPass.php:54 | the nested write keeps the parameter an array of arrays with distinct keys |
| InputTypesMappingProofs.RunWellFormed | src/DependencyInjection/Compiler/InputTypesMappingPass.php:32-57 | the loop keeps the parameter an array of arrays with distinct keys |
| InputTypesMappingProofs.RunMapping | src/DependencyInjection/Compiler/InputTypesMappingPass.php:32-57 | after the loop, the last write wins for every field type; other configuration keys are kept; untargeted field types are untouched; the key set is the old keys plus the targeted field types; old keys keep their order |
| InputTypesMappingProofs.RunKeepsKeyOrder | src/DependencyInjection/Compiler/InputTypesMappingPass.php:54 | when every targeted field type already has an `input_type`, the loop changes neither the outer nor any inner key order |
| InputTypesMappingProofs.ProcessFailsIffFieldTypeMissing | src/DependencyInjection/Compiler/InputTypesMappingPass.php:32-41 | the pass fails exactly when some tag instance on some service lacks `fieldtype`; the error names `fieldtype`; a failure carries no parameter and no mapper tag |
| InputTypesMappingProofs.ProcessFailureNotices | src/DependencyInjection/Compiler/InputTypesMappingPass.php:34-53 | on failure, the notices already raised are those of the tag instances before the first one lacking `fieldtype` |
| InputTypesMappingProofs.ProcessMigratesLastWrite | src/DependencyInjection/Compiler/InputTypesMappingPass.php:32-54 | `parameter[f]['input_type']` is the `inputType` of the last tag instance, in registration order, whose `fieldtype` is `f` |
| InputTypesMappingProofs.ProcessMergesNonDestructively | src/DependencyInjection/Compiler/InputTypesMappingPass.php:54 | keys of `parameter[f]` other than `input_type` keep their values; field types that no `inputType` tag names keep their entry or stay absent |
| InputTypesMappingProofs.ProcessDomain | src/DependencyInjection/Compiler/InputTypesMappingPass.php:31-59 | the parameter's field types are the original ones, in their original order, followed by the field types of `inputType`-carrying tags |
| InputTypesMappingProofs.ProcessNotices | src/DependencyInjection/Compiler/InputTypesMappingPass.php:43-53 | one notice per tag instance carrying `inputType`, in processing order, and nothing else |
| InputTypesMappingProofs.ProcessWellFormed | src/DependencyInjection/Compiler/InputTypesMappingPass.php:59 | the written-back parameter is an array of arrays with distinct keys |
| InputTypesMappingProofs.ProcessTagsMapper | src/DependencyInjection/Compiler/InputTypesMappingPass.php:61-71 | the mapper gains exactly one tag per field type whose final entry has `input_type`, and no other tag; that includes `input_type` entries present before the pass |
| InputTypesMappingProofs.ProcessIdempotent | src/DependencyInjection/Compiler/InputTypesMappingPass.php:31-59 | running the pass again with the same tags on the written-back parameter gives the same parameter, mapper tags and notices |
| InputTypesMappingLoops.ProcessLoops | src/DependencyInjection/Compiler/InputTypesMappingPass.php:29-72 | the nested-loop pass with its early throw computes exactly `Process` |
| InputTypesMappingLoops.MigrateService | src/DependencyInjection/Compiler/InputTypesMappingPass.php:33-56 | the inner loop over one service's tag instances continues the run, or stops at the first tag instance without `fieldtype` |
| InputTypesMappingLoops.TagMapper | src/DependencyInjection/Compiler/InputTypesMappingPass.php:61-71 | the tagging loop adds exactly `MapperTags` of the parameter |
| InputTypesMappingExamples.MigratesIntoEmptyMapping | src/DependencyInjection/Compiler/InputTypesMappingPass.php:29-72 | an `ezstring` handler with `inputType` on an empty mapping creates `{ezstring: {input_type: ...}}`, adds one mapper tag and raises one notice |
| InputTypesMappingExamples.PlainHandlerChangesNothing | src/DependencyInjection/Compiler/InputTypesMappingPass.php:43-71 | an `ezboolean` handler without `inputType` leaves `{ezboolean: {some_other_key: x}}` as it is, with no tag and no notice |
| InputTypesMappingExamples.MissingFieldTypeAborts | src/DependencyInjection/Compiler/InputTypesMappingPass.php:34-41 | an empty tag makes the pass fail with no notice raised |
| InputTypesMappingExamples.LaterHandlerWins | src/DependencyInjection/Compiler/InputTypesMappingPass.php:43-71 | of two handlers for `ezstring`, the later one's input type wins over the earlier one and over the existing value; `resolver` is kept |

## Left out

- The Symfony `ContainerBuilder` is not modelled. `getParameter` becomes the
  `mapping` input, and `setParameter` becomes `Output.parameter`.
  `findTaggedServiceIds` becomes the `services` input, and
  `Definition::addTag` becomes `Output.mapperTags`.
- A failing `getDefinition(ConfigurableFieldDefinitionMapper::class)` is not
  modelled. It is the container's lookup error, not logic of the pass.
- `@trigger_error` with `E_USER_DEPRECATED` is modelled as the `notices`
  list. Each notice holds the tag name, the service id and the parameter
  name, not the message text.
- The exception message is not modelled. The error records only the
  attribute the message names, `fieldtype` (the source interpolates its
  `FIELD_TYPE_ATTRIBUTE` constant where the tag name seems to be meant).
- The `INPUT_TYPE_ATTRIBUTE = 'InputType'` constant is not modelled because
  the pass never uses it. The pass reads the lowercase `inputType` key, and
  so does the model.
- Some PHP value semantics are not modelled. `isset` treats a null value as
  absent, and the model has no null: a key is present or absent. Numeric
  string keys are not converted to integers. A pre-existing `mapping[f]` that
  is not an array is not covered. Attribute values are strings.
- Distinct keys, which every PHP array has, are stated as
  `WellFormedMapping`. Only the lemmas that need it require it: mapper-tag
  uniqueness, idempotence and well-formedness. `Process` accepts any input.
