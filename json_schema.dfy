/**
 * The schema model of parser/json_schema.go and its example consistency checker.
 *
 * A `Schema` keeps the fields the checker and the converter touch: the two stamped
 * identity fields (`$schema`, `$id`), `type`, `example` and `properties`. Go's
 * `map[string]*Schema` becomes a Dafny `map`; Go visits a map in a random order, so the
 * checker picks the next key arbitrarily and is specified by a multiset of findings.
 */
module Parser {
  import opened Wrappers
  import opened Strconv

  /** The dynamic type of a non-nil `example` value after YAML decoding. */
  datatype Literal =
    | Str(s: string)   // a Go string
    | Number           // a YAML integer or float
    | Boolean          // a YAML boolean
    | Other            // a mapping, a sequence or any other decoded value

  datatype Schema = Schema(
    dialect: Option<string>,          // `$schema`
    id: Option<string>,               // `$id`
    typ: Option<string>,              // `type`
    example: Option<Literal>,         // `example`; None is a nil interface
    properties: map<string, Schema>)  // `properties`; nil and empty behave alike

  /** One finding of the example checker. */
  datatype ExampleValidation = ExampleValidation(message: string)

  /** The type names the checker recognises (the utils labels). */
  const IntegerLabel: string := "integer"
  const NumberLabel: string := "number"
  const BooleanLabel: string := "boolean"

  /** The finding for an example `value` of property `propName` that does not parse as `typeName`. */
  function InvalidExample(value: string, propName: string, typeName: string): (r: ExampleValidation)
  {
    ExampleValidation("example value '" + value + "' in '" + propName + "' is not a valid " + typeName)
  }

  /** The message names the example value, then the property, and ends with the type name. */
  lemma InvalidExampleMentions(value: string, propName: string, typeName: string)
    ensures var m := InvalidExample(value, propName, typeName).message;
      && |m| == 38 + |value| + |propName| + |typeName|
      && m[..15] == "example value '"
      && m[15..15 + |value|] == value
      && m[21 + |value|..21 + |value| + |propName|] == propName
      && m[|m| - |typeName|..] == typeName
  {
  }

  /** The schema with property `k` taken out. */
  function Without(jc: Schema, k: string): (r: Schema)
    ensures r.properties.Keys == jc.properties.Keys - {k}
  {
    jc.(properties := jc.properties - {k})
  }

  // ---------------------------------------------------------------------------
  // Specification of ValidateExample, as multisets (the order of findings follows Go's
  // map iteration and is not specified).
  // ---------------------------------------------------------------------------

  /** All findings `ValidateExample(jc)` reports. */
  ghost function Findings(jc: Schema, floatOk: string -> bool): multiset<ExampleValidation>
    decreases jc, 1, 0
  {
    PropsSum(jc, jc.properties.Keys, floatOk)
  }

  /** The findings contributed by the properties of `jc` named in `keys`. */
  ghost function PropsSum(jc: Schema, keys: set<string>, floatOk: string -> bool): multiset<ExampleValidation>
    requires keys <= jc.properties.Keys
    decreases jc, 0, |keys|
  {
    if keys == {} then multiset{}
    else
      var k :| k in keys;
      Contribution(k, jc.properties[k], floatOk) + PropsSum(jc, keys - {k}, floatOk)
  }

  /**
   * What one property `prop`, named `propName`, contributes: a direct check when it has both
   * a type and an example, and otherwise the findings of each of its child schemas, which
   * look at the children's own properties and never at the children themselves.
   */
  ghost function Contribution(propName: string, prop: Schema, floatOk: string -> bool): multiset<ExampleValidation>
    decreases prop, 2, 0
  {
    if prop.typ.Some? && prop.example.Some? then
      match prop.example.value
      case Str(v) =>
        if prop.typ.value == IntegerLabel && Atoi(v).None? then
          multiset{InvalidExample(v, propName, IntegerLabel)}
        else if prop.typ.value == NumberLabel && !floatOk(v) then
          multiset{InvalidExample(v, propName, NumberLabel)}
        else if prop.typ.value == BooleanLabel && ParseBool(v).None? then
          multiset{InvalidExample(v, propName, BooleanLabel)}
        else multiset{}
      case _ => multiset{}
    else ChildrenSum(prop, prop.properties.Keys, floatOk)
  }

  /** The findings of the child schemas of `prop` named in `keys`. */
  ghost function ChildrenSum(prop: Schema, keys: set<string>, floatOk: string -> bool): multiset<ExampleValidation>
    requires keys <= prop.properties.Keys
    decreases prop, 1, |keys|
  {
    if keys == {} then multiset{}
    else
      var k :| k in keys;
      Findings(prop.properties[k], floatOk) + ChildrenSum(prop, keys - {k}, floatOk)
  }

  // ---------------------------------------------------------------------------
  // The checker itself.
  // ---------------------------------------------------------------------------

  /**
   * `ValidateExample`: for every property with a type and a string example, checks that
   * the example parses as an integer, a number (`floatOk` is Go's `ParseFloat(v, 64)`
   * acceptance) or a boolean, and descends into properties lacking a type or an example.
   * Whatever order the keys are picked in, the findings are the same multiset.
   */
  method ValidateExample(jc: Schema, floatOk: string -> bool) returns (examples: seq<ExampleValidation>)
    ensures multiset(examples) == Findings(jc, floatOk)
    ensures |jc.properties| == 0 ==> examples == []
    decreases jc, 1
  {
    examples := [];
    if |jc.properties| > 0 {
      var pending := jc.properties.Keys;
      while pending != {}
        invariant pending <= jc.properties.Keys
        invariant multiset(examples) + PropsSum(jc, pending, floatOk) == Findings(jc, floatOk)
        decreases pending
      {
        var propName :| propName in pending;
        var found := CheckProperty(propName, jc.properties[propName], floatOk);
        PropsSumPick(jc, pending, propName, floatOk);
        examples := examples + found;
        pending := pending - {propName};
      }
    }
  }

  /**
   * One turn of the loop of `ValidateExample`, for the property `prop` named `propName`:
   * its direct finding, or the findings of `ValidateExample` on each of its children.
   */
  method CheckProperty(propName: string, prop: Schema, floatOk: string -> bool) returns (found: seq<ExampleValidation>)
    ensures multiset(found) == Contribution(propName, prop, floatOk)
    ensures prop.typ.Some? && prop.example.Some? ==> |found| <= 1
    decreases prop, 2
  {
    found := [];
    if prop.typ.Some? && prop.example.Some? {
      if prop.example.value.Str? {
        var propExample := prop.example.value.s;
        var t := prop.typ.value;
        if t == IntegerLabel {
          if Atoi(propExample).None? {
            found := [InvalidExample(propExample, propName, IntegerLabel)];
          }
        } else if t == NumberLabel {
          if !floatOk(propExample) {
            found := [InvalidExample(propExample, propName, NumberLabel)];
          }
        } else if t == BooleanLabel {
          if ParseBool(propExample).None? {
            found := [InvalidExample(propExample, propName, BooleanLabel)];
          }
        }
      }
    } else {
      if |prop.properties| > 0 {
        var children := prop.properties.Keys;
        while children != {}
          invariant children <= prop.properties.Keys
          invariant multiset(found) + ChildrenSum(prop, children, floatOk)
                 == ChildrenSum(prop, prop.properties.Keys, floatOk)
          decreases children
        {
          var k :| k in children;
          var sub := ValidateExample(prop.properties[k], floatOk);
          ChildrenSumPick(prop, children, k, floatOk);
          found := found + sub;
          children := children - {k};
        }
      }
    }
  }

  // ---------------------------------------------------------------------------
  // Order independence.
  // ---------------------------------------------------------------------------

  /** Any property may be taken out of the sum first. */
  lemma {:induction false} PropsSumPick(jc: Schema, keys: set<string>, k: string, floatOk: string -> bool)
    requires keys <= jc.properties.Keys && k in keys
    ensures PropsSum(jc, keys, floatOk)
         == Contribution(k, jc.properties[k], floatOk) + PropsSum(jc, keys - {k}, floatOk)
    decreases |keys|
  {
    var k0 :| k0 in keys && PropsSum(jc, keys, floatOk)
      == Contribution(k0, jc.properties[k0], floatOk) + PropsSum(jc, keys - {k0}, floatOk);
    if k0 != k {
      PropsSumPick(jc, keys - {k0}, k, floatOk);
      PropsSumPick(jc, keys - {k}, k0, floatOk);
      assert keys - {k0} - {k} == keys - {k} - {k0};
    }
  }

  /** Any child may be taken out of the sum first. */
  lemma {:induction false} ChildrenSumPick(prop: Schema, keys: set<string>, k: string, floatOk: string -> bool)
    requires keys <= prop.properties.Keys && k in keys
    ensures ChildrenSum(prop, keys, floatOk)
         == Findings(prop.properties[k], floatOk) + ChildrenSum(prop, keys - {k}, floatOk)
    decreases |keys|
  {
    var k0 :| k0 in keys && ChildrenSum(prop, keys, floatOk)
      == Findings(prop.properties[k0], floatOk) + ChildrenSum(prop, keys - {k0}, floatOk);
    if k0 != k {
      ChildrenSumPick(prop, keys - {k0}, k, floatOk);
      ChildrenSumPick(prop, keys - {k}, k0, floatOk);
      assert keys - {k0} - {k} == keys - {k} - {k0};
    }
  }

  /** The sum over `keys` reads only the properties named in `keys`. */
  lemma {:induction false} PropsSumFrame(a: Schema, b: Schema, keys: set<string>, floatOk: string -> bool)
    requires keys <= a.properties.Keys && keys <= b.properties.Keys
    requires forall k :: k in keys ==> a.properties[k] == b.properties[k]
    ensures PropsSum(a, keys, floatOk) == PropsSum(b, keys, floatOk)
    decreases |keys|
  {
    if keys != {} {
      var k :| k in keys;
      PropsSumPick(a, keys, k, floatOk);
      PropsSumPick(b, keys, k, floatOk);
      PropsSumFrame(a, b, keys - {k}, floatOk);
    }
  }

  /**
   * The findings of a schema are the contribution of any one of its properties together with
   * the findings of the rest: the result is the union of the per-property contributions,
   * whichever property is visited first.
   */
  lemma FindingsSplit(jc: Schema, k: string, floatOk: string -> bool)
    requires k in jc.properties
    ensures Findings(jc, floatOk)
         == Contribution(k, jc.properties[k], floatOk) + Findings(Without(jc, k), floatOk)
  {
    PropsSumPick(jc, jc.properties.Keys, k, floatOk);
    PropsSumFrame(jc, Without(jc, k), jc.properties.Keys - {k}, floatOk);
  }

  /** A schema without properties has no findings. */
  lemma EmptyTree(jc: Schema, floatOk: string -> bool)
    requires |jc.properties| == 0
    ensures Findings(jc, floatOk) == multiset{}
  {
    assert jc.properties.Keys == {};
  }

  /** A property with a type and an example contributes at most one finding. */
  lemma DirectCheckAtMostOne(jc: Schema, k: string, floatOk: string -> bool)
    requires k in jc.properties
    requires jc.properties[k].typ.Some? && jc.properties[k].example.Some?
    ensures |Findings(jc, floatOk)| <= |Findings(Without(jc, k), floatOk)| + 1
  {
    FindingsSplit(jc, k, floatOk);
  }

  // ---------------------------------------------------------------------------
  // The three checks, the exempt properties and the descent rule.
  // ---------------------------------------------------------------------------

  /** An `integer` property with a string example adds one finding exactly when `Atoi` rejects it. */
  lemma IntegerCheck(jc: Schema, k: string, v: string, floatOk: string -> bool)
    requires k in jc.properties
    requires jc.properties[k].typ == Some(IntegerLabel) && jc.properties[k].example == Some(Str(v))
    ensures Findings(jc, floatOk) == Findings(Without(jc, k), floatOk)
         + (if Atoi(v).Some? then multiset{} else multiset{InvalidExample(v, k, "integer")})
  {
    FindingsSplit(jc, k, floatOk);
  }

  /** A `number` property with a string example adds one finding exactly when `ParseFloat` rejects it. */
  lemma NumberCheck(jc: Schema, k: string, v: string, floatOk: string -> bool)
    requires k in jc.properties
    requires jc.properties[k].typ == Some(NumberLabel) && jc.properties[k].example == Some(Str(v))
    ensures Findings(jc, floatOk) == Findings(Without(jc, k), floatOk)
         + (if floatOk(v) then multiset{} else multiset{InvalidExample(v, k, "number")})
  {
    FindingsSplit(jc, k, floatOk);
  }

  /** A `boolean` property with a string example adds one finding exactly when it is none of the twelve spellings. */
  lemma BooleanCheck(jc: Schema, k: string, v: string, floatOk: string -> bool)
    requires k in jc.properties
    requires jc.properties[k].typ == Some(BooleanLabel) && jc.properties[k].example == Some(Str(v))
    ensures Findings(jc, floatOk) == Findings(Without(jc, k), floatOk)
         + (if v in TrueSpellings + FalseSpellings then multiset{}
            else multiset{InvalidExample(v, k, "boolean")})
  {
    FindingsSplit(jc, k, floatOk);
  }

  /**
   * A property with a type and an example that is not a string, or whose type is not one of
   * the three checked ones, adds nothing, and its own properties are not visited.
   */
  lemma Exempt(jc: Schema, k: string, floatOk: string -> bool)
    requires k in jc.properties
    requires jc.properties[k].typ.Some? && jc.properties[k].example.Some?
    requires !jc.properties[k].example.value.Str?
          || jc.properties[k].typ.value !in {IntegerLabel, NumberLabel, BooleanLabel}
    ensures Findings(jc, floatOk) == Findings(Without(jc, k), floatOk)
  {
    FindingsSplit(jc, k, floatOk);
  }

  /** A property lacking a type or an example adds the findings of each of its child schemas. */
  lemma Descent(jc: Schema, k: string, floatOk: string -> bool)
    requires k in jc.properties
    requires jc.properties[k].typ.None? || jc.properties[k].example.None?
    ensures Findings(jc, floatOk) == Findings(Without(jc, k), floatOk)
         + ChildrenSum(jc.properties[k], jc.properties[k].properties.Keys, floatOk)
  {
    FindingsSplit(jc, k, floatOk);
  }

  /** The children of `prop` named in `keys` that have no properties of their own report nothing. */
  lemma {:induction false} LeafChildrenSilent(prop: Schema, keys: set<string>, floatOk: string -> bool)
    requires keys <= prop.properties.Keys
    requires forall c :: c in keys ==> |prop.properties[c].properties| == 0
    ensures ChildrenSum(prop, keys, floatOk) == multiset{}
    decreases |keys|
  {
    if keys != {} {
      var c :| c in keys;
      ChildrenSumPick(prop, keys, c, floatOk);
      EmptyTree(prop.properties[c], floatOk);
      LeafChildrenSilent(prop, keys - {c}, floatOk);
    }
  }

  /**
   * The descent quirk: leaves sitting directly under a property that lacks a type or an
   * example are never checked, whatever their own type and example.
   */
  lemma LeafUnderIntermediateUnchecked(jc: Schema, k: string, floatOk: string -> bool)
    requires k in jc.properties
    requires jc.properties[k].typ.None? || jc.properties[k].example.None?
    requires forall c :: c in jc.properties[k].properties ==> |jc.properties[k].properties[c].properties| == 0
    ensures Findings(jc, floatOk) == Findings(Without(jc, k), floatOk)
  {
    Descent(jc, k, floatOk);
    LeafChildrenSilent(jc.properties[k], jc.properties[k].properties.Keys, floatOk);
  }

  // ---------------------------------------------------------------------------
  // Two concrete trees.
  // ---------------------------------------------------------------------------

  function Leaf(typ: string, example: string): Schema {
    Schema(None, None, Some(typ), Some(Str(example)), map[])
  }

  function ObjectOf(props: map<string, Schema>): Schema {
    Schema(None, None, Some("object"), None, props)
  }

  /** `a` of type object holding `b: integer` with example `x`: `b` is one level too shallow and is not reported. */
  lemma NestedLeafNotReported(floatOk: string -> bool)
    ensures Findings(ObjectOf(map["a" := ObjectOf(map["b" := Leaf("integer", "x")])]), floatOk) == multiset{}
  {
    var jc := ObjectOf(map["a" := ObjectOf(map["b" := Leaf("integer", "x")])]);
    LeafUnderIntermediateUnchecked(jc, "a", floatOk);
    EmptyTree(Without(jc, "a"), floatOk);
  }

  /** One level deeper, `a.b.c: integer` with example `x` is reported once, naming `c`. */
  lemma DeeperLeafReported(floatOk: string -> bool)
    ensures Findings(ObjectOf(map["a" := ObjectOf(map["b" := ObjectOf(map["c" := Leaf("integer", "x")])])]), floatOk)
         == multiset{InvalidExample("x", "c", "integer")}
  {
    var b := ObjectOf(map["c" := Leaf("integer", "x")]);
    var a := ObjectOf(map["b" := b]);
    var jc := ObjectOf(map["a" := a]);
    assert Findings(b, floatOk) == multiset{InvalidExample("x", "c", "integer")} by {
      assert Atoi("x").None?;
      IntegerCheck(b, "c", "x", floatOk);
      EmptyTree(Without(b, "c"), floatOk);
    }
    assert ChildrenSum(a, a.properties.Keys, floatOk) == Findings(b, floatOk) by {
      assert a.properties.Keys == {"b"};
      ChildrenSumPick(a, {"b"}, "b", floatOk);
    }
    Descent(jc, "a", floatOk);
    EmptyTree(Without(jc, "a"), floatOk);
  }

  // ---------------------------------------------------------------------------
  // Node-to-schema conversion.
  // ---------------------------------------------------------------------------

  /** The dialect and document identifiers stamped on every converted schema (the utils values). */
  const SchemaSource: string := "https://json-schema.org/draft/2020-12/schema"
  const SchemaId: string := "https://quobix.com/api/vacuum"

  type Bytes = seq<bv8>

  /**
   * `ConvertNodeDefinitionIntoSchema`. `marshal` stands for `yaml.Marshal` of the node;
   * `unmarshal` for `yaml.Unmarshal` into a zero `Schema`, giving what it decoded and the
   * error it returned, if any. The identity fields are overwritten before the error is
   * looked at, and an error of either step is returned with no schema.
   */
  method ConvertNodeDefinitionIntoSchema<Node, E>(
    node: Node, marshal: Node -> Result<Bytes, E>, unmarshal: Bytes -> (Schema, Option<E>))
    returns (r: Result<Schema, E>)
    ensures marshal(node).Failure? ==> r == Failure(marshal(node).error)
    ensures marshal(node).Success? && unmarshal(marshal(node).value).1.Some? ==>
              r == Failure(unmarshal(marshal(node).value).1.value)
    ensures r.Success? <==> marshal(node).Success? && unmarshal(marshal(node).value).1.None?
    ensures r.Success? ==> r.value.dialect == Some(SchemaSource) && r.value.id == Some(SchemaId)
    ensures r.Success? ==>
              var decoded := unmarshal(marshal(node).value).0;
              r.value.typ == decoded.typ && r.value.example == decoded.example
              && r.value.properties == decoded.properties
  {
    var dat := marshal(node);
    if dat.Failure? {
      return Failure(dat.error);
    }
    var (schema, err) := unmarshal(dat.value);
    schema := schema.(dialect := Some(SchemaSource));
    schema := schema.(id := Some(SchemaId));
    if err.Some? {
      return Failure(err.value);
    }
    return Success(schema);
  }

  /** Stamping the identity fields leaves the example findings of a schema unchanged. */
  lemma StampKeepsFindings(jc: Schema, dialect: Option<string>, id: Option<string>, floatOk: string -> bool)
    ensures Findings(jc.(dialect := dialect, id := id), floatOk) == Findings(jc, floatOk)
  {
    PropsSumFrame(jc.(dialect := dialect, id := id), jc, jc.properties.Keys, floatOk);
  }
}
