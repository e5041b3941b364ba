# Example checking and schema conversion in vacuum's `parser` package, in Dafny

This project models the part of `parser/json_schema.go` that works on vacuum's `Schema`
type on its own:

- `ValidateExample` walks the named properties of a schema. For each property that has
  both a `type` and a string `example`, it checks that the example parses as that type
  (`integer` with `strconv.Atoi`, `number` with `strconv.ParseFloat(v, 64)`, `boolean`
  with `strconv.ParseBool`). Each failure becomes a finding
  `example value '<v>' in '<name>' is not a valid <type>`. A property that lacks a type
  or an example is not checked. Instead, `ValidateExample` runs on each of its children.
- `ConvertNodeDefinitionIntoSchema` re-serialises a YAML node and decodes it into a
  `Schema`. It then overwrites `$schema` and `$id` with fixed constants and returns the
  error of either step.

Files:

- `wrappers.dfy`: `Option` (Go's nil) and `Result` (Go's `(value, error)`).
- `strconv.dfy`: Go's `Atoi` for 64-bit `int` and `ParseBool`, each proved against its
  inverse (`Itoa`, `FormatBool`).
- `json_schema.dfy`: the `Schema` datatype, the checker and its specification, the
  lemmas, and the conversion step.

`Properties` is a Dafny `map`. Go visits a map in a random order, so the checker is a
method that takes the next key with `:|`, that is, in any order. Its contract ties the
multiset of findings to the ghost function `Findings`. The lemmas about `Findings` say
what each kind of property contributes. `FindingsSplit` shows that the result does not
depend on which key is visited first.

The checker's descent rule is reproduced as written. For a property without a type or
an example, `ValidateExample(child)` is called for each child, and that call looks only
at the child's own properties. So a leaf sitting directly under such a property is never
checked. Take `a` of type `object`, holding `b` of type `integer` with example `x`:
`ValidateExample` reports nothing (`NestedLeafNotReported`). One level deeper, the leaf
is reported (`DeeperLeafReported`). One might expect the recursion to reach `b`. It
does not, because `ValidateExample(child)` looks only at `child.Properties`
(parser/json_schema.go:86-88).

## Model

| member | source | states |
|---|---|---|
| `Parser.ValidateExample` | parser/json_schema.go:52-95 | For every order in which the map keys are picked, the findings returned are, as a multiset, exactly `Findings(jc)`; a schema without properties yields no findings at all |
| `Parser.CheckProperty` | parser/json_schema.go:56-91 | One loop turn: its findings are, as a multiset, exactly that property's contribution; a property with both type and example yields at most one finding |
| `Parser.FindingsSplit` | parser/json_schema.go:55-92 | The findings of a schema are the contribution of any one of its properties plus the findings of the others, whichever property is visited first (the result is the union of per-property contributions and is independent of map order) |
| `Parser.PropsSumPick` | parser/json_schema.go:55 | Any property can be taken out of the sum over the outer map first without changing the sum |
| `Parser.ChildrenSumPick` | parser/json_schema.go:87-89 | Any child can be taken out of the sum over a property's children first without changing the sum |
| `Parser.EmptyTree` | parser/json_schema.go:54 | A schema whose properties are absent or empty has no findings |
| `Parser.DirectCheckAtMostOne` | parser/json_schema.go:56-84 | A property with a type and an example adds at most one finding to the result |
| `Parser.IntegerCheck` | parser/json_schema.go:59-66 | An `integer` property with string example `v` adds exactly one finding `example value 'v' in 'name' is not a valid integer` when `Atoi(v)` fails, and none when it succeeds |
| `Parser.NumberCheck` | parser/json_schema.go:67-74 | A `number` property with string example `v` adds exactly one finding ending in `number` when `ParseFloat(v, 64)` fails, and none otherwise |
| `Parser.BooleanCheck` | parser/json_schema.go:75-82 | A `boolean` property with string example `v` adds exactly one finding ending in `boolean` when `v` is not one of the twelve `ParseBool` spellings, and none otherwise |
| `Parser.Exempt` | parser/json_schema.go:56-85 | A property with type and example whose example is not a string, or whose type is not integer/number/boolean, adds nothing, and its nested properties are not visited |
| `Parser.Descent` | parser/json_schema.go:85-90 | A property lacking a type or an example adds the findings of `ValidateExample` on each of its children |
| `Parser.LeafUnderIntermediateUnchecked` | parser/json_schema.go:85-90 | Children without properties of their own, sitting under a property that lacks a type or an example, are never checked, whatever their type and example |
| `Parser.NestedLeafNotReported` | parser/json_schema.go:85-90 | `a: object { b: integer, example "x" }` yields no finding |
| `Parser.DeeperLeafReported` | parser/json_schema.go:52-95 | `a: object { b: object { c: integer, example "x" } }` yields exactly the one finding naming `x`, `c` and `integer` |
| `Parser.InvalidExampleMentions` | parser/json_schema.go:62-64 | The finding's message starts with `example value '`, then quotes the value, then the property name, and ends with the type name |
| `Parser.ConvertNodeDefinitionIntoSchema` | parser/json_schema.go:99-114 | A marshal error or an unmarshal error is returned with no schema. On success, `$schema` and `$id` are the fixed constants whatever the node held, and `type`, `example` and `properties` are the decoded ones |
| `Parser.StampKeepsFindings` | parser/json_schema.go:107-108 | Overwriting `$schema` and `$id` does not change the example findings of a schema |
| `Strconv.Atoi` | parser/json_schema.go:60 | An accepted string is an optional sign followed by one or more digits (its last character is a digit, so a bare `+` or `-` is rejected), and its value lies within the 64-bit `int` range |
| `Strconv.AtoiSignedDigits` | parser/json_schema.go:60 | The converse: every non-empty digit string, bare or after `+` or `-`, is accepted with its signed value when that value fits in 64 bits, and is a range error otherwise |
| `Strconv.AtoiLeadingZero` | parser/json_schema.go:60 | A leading zero, after an optional sign, changes neither acceptance nor value |
| `Strconv.CanonicalIntAtoi` | parser/json_schema.go:60 | Every canonical decimal string is what `Itoa` writes for its value, and `Atoi` accepts it with that value exactly when the value fits in 64 bits |
| `Strconv.AtoiFormatInt` | parser/json_schema.go:60 | `Atoi(Itoa(n))` is `n` exactly when `n` fits in 64 bits and a range error otherwise; `Itoa` writes canonical decimal strings |
| `Strconv.FormatIntAtoi` | parser/json_schema.go:60 | A canonical decimal string (no `+`, no leading zero, no `-0`) that `Atoi` accepts is what `Itoa` writes for its value |
| `Strconv.AtoiExamples` | parser/json_schema.go:60 | `42`, `-007` and `+5` are accepted with their values; `abc`, the empty string, `+`, `-`, ` 1` and `1_0` are rejected |
| `Strconv.ParseBool` | parser/json_schema.go:76 | Exactly the twelve spellings `1 t T TRUE true True 0 f F FALSE false False` are accepted, and exactly the first six read as true |
| `Strconv.ParseBoolFormatBool` | parser/json_schema.go:76 | `ParseBool(FormatBool(b))` is `b` |
| `Strconv.ParseBoolExamples` | parser/json_schema.go:76 | `true` and `F` are accepted; `maybe`, `yes`, `tRUE` and the empty string are rejected |

## Left out

- `ValidateExample`: the order of the returned findings is stated only as a multiset, because Go iterates maps in a random order.
- `strconv.ParseFloat`: not modelled. The checker and its specification take its acceptance test as a parameter `floatOk`. Go accepts decimal and hexadecimal forms, underscores in some forms, and the `Inf`/`NaN` spellings. It rejects values out of `float64` range. None of this is modelled, and no floating-point value is.
- `Strconv.Atoi`: the bounds are those of a 64-bit platform. On a 32-bit platform Go's `int` is narrower, and that width is not modelled.
- YAML encoding and decoding (`yaml.Marshal`, `yaml.Unmarshal`) are parameters of `ConvertNodeDefinitionIntoSchema`, with no behaviour of their own. The node type and the error type are type parameters. Partial decoding before an unmarshal error is not modelled; the schema is discarded in that case anyway.
- `ValidateNodeAgainstSchema` (parser/json_schema.go:117-147) is left out. It only chains foreign libraries: YAML marshal, `YAMLToJSON`, `json.Marshal` and the JSON Schema validator. Nothing of it can be stated without them. One detail of it: when `YAMLToJSON` fails, line 131 returns the marshal error `e` and not `err`. So a `YAMLToJSON` failure after a successful marshal gives `(nil, nil)`.
- The `Schema` fields that neither the checker nor the converter reads (`title`, `required`, `enum`, `items`, the numeric bounds, `additionalProperties`, and so on) are left out, as are the struct tags. They need the encoders to mean anything.
- The `example` value is modelled only by its dynamic type: a string with its text, or a number, boolean or other value without content. This is all the checker looks at.
- The utils file is not part of this model. `IntegerLabel`, `NumberLabel` and `BooleanLabel` are taken to be `integer`, `number` and `boolean`. The values of `SchemaSource` and `SchemaId` are assumed, and no proof depends on them.
- Nil `*Schema` values inside `properties` make the Go code panic, and so does a nil top-level schema passed to `ValidateExample` (parser/json_schema.go:54). Pointer cycles make it recurse forever. A Dafny datatype value is neither nil nor cyclic, so the model covers finite trees of non-nil schemas only.
- `ConvertNodeDefinitionIntoSchema`: Go stores the addresses `&utils.SchemaSource` and `&utils.SchemaId` (parser/json_schema.go:107-108). Every converted schema therefore shares pointers to the same two package variables, and a write through one of them would change them all. The model stores the strings as values in `Option<string>`, so this aliasing is not captured.
