/** The structural validator behind `validateResponse`: a closed schema
    language (string, number, enum of strings, array of T, object of named
    fields), the issues a value raises against a schema, how each issue is
    rendered as a path-qualified error string, and the `{valid, errors}`
    result for a JSON text. Object schemas check only their listed fields
    and accept any others, as non-strict object schemas do. */
module Validation {
  import opened JsonValues

  datatype Schema =
    | SString
    | SNumber
    | SEnum(options: seq<string>)
    | SArray(item: Schema)
    | SObject(fields: seq<Field>)

  datatype Field = Field(name: string, schema: Schema)

  /** One step of an error path: an object key or an array index. */
  datatype Segment = Key(key: string) | Index(index: nat)

  type Path = seq<Segment>

  /** The kind a JSON value is reported as in a type-mismatch message. */
  datatype Kind = KNull | KBoolean | KNumber | KString | KArray | KObject

  datatype Message =
    | Required
    | InvalidType(expected: string, received: Kind)
    | InvalidEnumValue(options: seq<string>, value: string)

  datatype Issue = Issue(path: Path, message: Message)

  /** `{ valid: boolean, errors?: string[] }`; `errors` is None when the
      field is absent. */
  datatype ValidationResult = ValidationResult(valid: bool, errors: Option<seq<string>>)

  const InvalidJsonFormat: string := "Invalid JSON format"

  function KindOf(j: Json): Kind {
    match j
    case JNull => KNull
    case JBool(_) => KBoolean
    case JNum(_) => KNumber
    case JStr(_) => KString
    case JArr(_) => KArray
    case JObj(_) => KObject
  }

  function KindName(k: Kind): string {
    match k
    case KNull => "null"
    case KBoolean => "boolean"
    case KNumber => "number"
    case KString => "string"
    case KArray => "array"
    case KObject => "object"
  }

  /** The options of an enum, each quoted, joined by " | ". */
  function QuotedOptions(options: seq<string>): string {
    if options == [] then ""
    else if |options| == 1 then "'" + options[0] + "'"
    else "'" + options[0] + "' | " + QuotedOptions(options[1..])
  }

  /** What a schema expects, as named in a type-mismatch message. */
  function ExpectedText(s: Schema): string {
    match s
    case SString => "string"
    case SNumber => "number"
    case SEnum(options) => QuotedOptions(options)
    case SArray(_) => "array"
    case SObject(_) => "object"
  }

  /** The issues `v` raises against `s` when it stands at `path`, in the
      order they are found: an object's fields in the schema's order, an
      array's items by index, each one searched depth first. `None` is an
      absent value (`undefined`). A value of the wrong kind raises one issue
      and is not looked into. */
  function Validate(v: Option<Json>, s: Schema, path: Path): seq<Issue>
    decreases s, 1, 0
  {
    match v
    case None => [Issue(path, Required)]
    case Some(j) =>
      match s
      case SString =>
        if j.JStr? then [] else [Issue(path, InvalidType(ExpectedText(s), KindOf(j)))]
      case SNumber =>
        if j.JNum? then [] else [Issue(path, InvalidType(ExpectedText(s), KindOf(j)))]
      case SEnum(options) =>
        if !j.JStr? then [Issue(path, InvalidType(ExpectedText(s), KindOf(j)))]
        else if j.s in options then []
        else [Issue(path, InvalidEnumValue(options, j.s))]
      case SArray(item) =>
        if j.JArr? then ValidateItems(j.items, item, path, 0)
        else [Issue(path, InvalidType(ExpectedText(s), KindOf(j)))]
      case SObject(fields) =>
        if j.JObj? then ValidateFields(fields, j.fields, path, 0)
        else [Issue(path, InvalidType(ExpectedText(s), KindOf(j)))]
  }

  /** The issues of items[i..] against the item schema, each at its index. */
  function ValidateItems(items: seq<Json>, item: Schema, path: Path, i: nat): seq<Issue>
    requires i <= |items|
    decreases SArray(item), 0, |items| - i
  {
    if i == |items| then []
    else Validate(Some(items[i]), item, path + [Index(i)]) + ValidateItems(items, item, path, i + 1)
  }

  /** The issues of the members named by fields[i..], each at its key. */
  function ValidateFields(fields: seq<Field>, m: map<string, Json>, path: Path, i: nat): seq<Issue>
    requires i <= |fields|
    decreases SObject(fields), 0, |fields| - i
  {
    if i == |fields| then []
    else
      assert fields[i] in fields;
      Validate(Get(Some(JObj(m)), fields[i].name), fields[i].schema, path + [Key(fields[i].name)])
        + ValidateFields(fields, m, path, i + 1)
  }

  /** Declarative reference for what a schema accepts, independent of the
      issue collection above. */
  predicate Conforms(j: Json, s: Schema)
    decreases s
  {
    match s
    case SString => j.JStr?
    case SNumber => j.JNum?
    case SEnum(options) => j.JStr? && j.s in options
    case SArray(item) =>
      j.JArr? && forall k :: 0 <= k < |j.items| ==> Conforms(j.items[k], item)
    case SObject(fields) =>
      j.JObj? && forall k :: 0 <= k < |fields| ==> FieldConforms(j.fields, fields[k], s)
  }

  /** The member a field names is present and conforms to the field's schema. */
  predicate FieldConforms(m: map<string, Json>, f: Field, ghost owner: Schema)
    requires owner.SObject? && f in owner.fields
    decreases owner, 0
  {
    f.name in m && Conforms(m[f.name], f.schema)
  }

  /** An object conforms exactly when every schema field is present and
      conforms; keys the schema does not name are ignored. */
  lemma ObjectConformsIff(m: map<string, Json>, fields: seq<Field>)
    ensures Conforms(JObj(m), SObject(fields)) <==>
            forall k :: 0 <= k < |fields| ==> fields[k].name in m && Conforms(m[fields[k].name], fields[k].schema)
  {
    var s := SObject(fields);
    assert forall k :: 0 <= k < |fields| ==>
      (FieldConforms(m, fields[k], s) <==> fields[k].name in m && Conforms(m[fields[k].name], fields[k].schema));
  }

  /** An object with two members conforms to a two-field schema naming
      them exactly when both members conform. */
  lemma PairConforms(n0: string, v0: Json, s0: Schema, n1: string, v1: Json, s1: Schema)
    requires n0 != n1
    ensures Conforms(JObj(map[n0 := v0, n1 := v1]), SObject([Field(n0, s0), Field(n1, s1)])) <==>
            Conforms(v0, s0) && Conforms(v1, s1)
  {
    var fields := [Field(n0, s0), Field(n1, s1)];
    var m := map[n0 := v0, n1 := v1];
    ObjectConformsIff(m, fields);
    assert m[fields[0].name] == v0 && m[fields[1].name] == v1;
    if Conforms(v0, s0) && Conforms(v1, s1) {
      forall k | 0 <= k < 2 ensures Conforms(m[fields[k].name], fields[k].schema) {
        if k == 0 { } else { }
      }
    }
  }

  /** The three-member version of `PairConforms`. */
  lemma TripleConforms(n0: string, v0: Json, s0: Schema, n1: string, v1: Json, s1: Schema,
                       n2: string, v2: Json, s2: Schema)
    requires n0 != n1 && n0 != n2 && n1 != n2
    ensures Conforms(JObj(map[n0 := v0, n1 := v1, n2 := v2]),
                     SObject([Field(n0, s0), Field(n1, s1), Field(n2, s2)])) <==>
            Conforms(v0, s0) && Conforms(v1, s1) && Conforms(v2, s2)
  {
    var fields := [Field(n0, s0), Field(n1, s1), Field(n2, s2)];
    var m := map[n0 := v0, n1 := v1, n2 := v2];
    ObjectConformsIff(m, fields);
    assert m[fields[0].name] == v0 && m[fields[1].name] == v1 && m[fields[2].name] == v2;
    if Conforms(v0, s0) && Conforms(v1, s1) && Conforms(v2, s2) {
      forall k | 0 <= k < 3 ensures Conforms(m[fields[k].name], fields[k].schema) {
        if k == 0 { } else if k == 1 { } else { }
      }
    }
  }

  // ---------------------------------------------------------------------
  // Rendering of issues

  function DigitChar(d: nat): char
    requires d < 10
  {
    "0123456789"[d]
  }

  /** Decimal numeral of n, as JavaScript writes an array index. */
  function Numeral(n: nat): (r: string)
    ensures |r| > 0
  {
    if n < 10 then [DigitChar(n)] else Numeral(n / 10) + [DigitChar(n % 10)]
  }

  function SegmentText(seg: Segment): string {
    match seg
    case Key(k) => k
    case Index(i) => Numeral(i)
  }

  /** `path.join('.')`. */
  function JoinPath(p: Path): string {
    if p == [] then ""
    else if |p| == 1 then SegmentText(p[0])
    else SegmentText(p[0]) + "." + JoinPath(p[1..])
  }

  function MessageText(m: Message): string {
    match m
    case Required => "Required"
    case InvalidType(expected, received) => "Expected " + expected + ", received " + KindName(received)
    case InvalidEnumValue(options, value) =>
      "Invalid enum value. Expected " + QuotedOptions(options) + ", received '" + value + "'"
  }

  /** `Error at "<path>": <message>`. */
  function ErrorAt(path: string, message: string): string {
    "Error at \"" + path + "\": " + message
  }

  /** An issue as an error string: qualified by its joined path unless
      that is empty. */
  function Render(iss: Issue): string {
    var p := JoinPath(iss.path);
    if p != "" then ErrorAt(p, MessageText(iss.message)) else MessageText(iss.message)
  }

  function RenderAll(issues: seq<Issue>): (r: seq<string>)
    ensures |r| == |issues|
    ensures forall i :: 0 <= i < |issues| ==> r[i] == Render(issues[i])
  {
    if issues == [] then [] else [Render(issues[0])] + RenderAll(issues[1..])
  }

  /** `validateResponse(response, schema)`: parse the text, check the value
      against the schema, and report. */
  function ValidateResponse(codec: JsonCodec, response: string, schema: Schema): (r: ValidationResult)
    ensures codec.parse(response).None? ==> r == ValidationResult(false, Some([InvalidJsonFormat]))
    ensures r.valid <==> codec.parse(response).Some? && Conforms(codec.parse(response).value, schema)
    ensures r.valid <==> r.errors.None?
    ensures r.errors.Some? ==> |r.errors.value| > 0
  {
    match codec.parse(response)
    case None => ValidationResult(false, Some([InvalidJsonFormat]))
    case Some(parsed) =>
      var issues := Validate(Some(parsed), schema, []);
      ValidateIffConforms(parsed, schema, []);
      if issues == [] then ValidationResult(true, None)
      else ValidationResult(false, Some(RenderAll(issues)))
  }

  // ---------------------------------------------------------------------
  // The issue list is empty exactly when the value conforms

  lemma {:induction false} ValidateIffConforms(j: Json, s: Schema, path: Path)
    ensures Validate(Some(j), s, path) == [] <==> Conforms(j, s)
    decreases s, 1, 0
  {
    match s
    case SString =>
    case SNumber =>
    case SEnum(_) =>
    case SArray(item) =>
      if j.JArr? { ItemsIffConform(j.items, item, path, 0); }
    case SObject(fields) =>
      if j.JObj? { FieldsIffConform(fields, j.fields, path, 0); }
  }

  lemma {:induction false} ItemsIffConform(items: seq<Json>, item: Schema, path: Path, i: nat)
    requires i <= |items|
    ensures ValidateItems(items, item, path, i) == [] <==>
            forall k :: i <= k < |items| ==> Conforms(items[k], item)
    decreases SArray(item), 0, |items| - i
  {
    if i < |items| {
      ValidateIffConforms(items[i], item, path + [Index(i)]);
      ItemsIffConform(items, item, path, i + 1);
    }
  }

  lemma {:induction false} FieldsIffConform(fields: seq<Field>, m: map<string, Json>, path: Path, i: nat)
    requires i <= |fields|
    ensures ValidateFields(fields, m, path, i) == [] <==>
            forall k :: i <= k < |fields| ==> FieldConforms(m, fields[k], SObject(fields))
    decreases SObject(fields), 0, |fields| - i
  {
    if i < |fields| {
      var f := fields[i];
      assert f in fields;
      if f.name in m {
        ValidateIffConforms(m[f.name], f.schema, path + [Key(f.name)]);
      }
      FieldsIffConform(fields, m, path, i + 1);
    }
  }

  /** A value that conforms raises no issue, at any path. */
  lemma ConformingHasNoIssues(j: Json, s: Schema, path: Path)
    requires Conforms(j, s)
    ensures Validate(Some(j), s, path) == []
  {
    ValidateIffConforms(j, s, path);
  }

  /** A value that does not conform raises at least one issue. */
  lemma NonConformingHasIssues(j: Json, s: Schema, path: Path)
    requires !Conforms(j, s)
    ensures |Validate(Some(j), s, path)| > 0
  {
    ValidateIffConforms(j, s, path);
  }

  // ---------------------------------------------------------------------
  // Where issues are reported

  /** Every issue is reported at or below the path of the value checked. */
  lemma {:induction false} IssuesBelowPath(v: Option<Json>, s: Schema, path: Path)
    ensures forall iss :: iss in Validate(v, s, path) ==> path <= iss.path
    decreases s, 1, 0
  {
    match v
    case None =>
    case Some(j) =>
      match s
      case SString =>
      case SNumber =>
      case SEnum(_) =>
      case SArray(item) =>
        if j.JArr? { ItemIssuesBelowPath(j.items, item, path, 0); }
      case SObject(fields) =>
        if j.JObj? { FieldIssuesBelowPath(fields, j.fields, path, 0); }
  }

  lemma {:induction false} ItemIssuesBelowPath(items: seq<Json>, item: Schema, path: Path, i: nat)
    requires i <= |items|
    ensures forall iss :: iss in ValidateItems(items, item, path, i) ==> path <= iss.path
    decreases SArray(item), 0, |items| - i
  {
    if i < |items| {
      IssuesBelowPath(Some(items[i]), item, path + [Index(i)]);
      ItemIssuesBelowPath(items, item, path, i + 1);
    }
  }

  lemma {:induction false} FieldIssuesBelowPath(fields: seq<Field>, m: map<string, Json>, path: Path, i: nat)
    requires i <= |fields|
    ensures forall iss :: iss in ValidateFields(fields, m, path, i) ==> path <= iss.path
    decreases SObject(fields), 0, |fields| - i
  {
    if i < |fields| {
      assert fields[i] in fields;
      IssuesBelowPath(Get(Some(JObj(m)), fields[i].name), fields[i].schema, path + [Key(fields[i].name)]);
      FieldIssuesBelowPath(fields, m, path, i + 1);
    }
  }

  /** Issues are collected, not stopped at the first: every issue raised
      by the k-th field of an object is among the object's issues. */
  lemma FieldIssuesCollected(fields: seq<Field>, m: map<string, Json>, path: Path, k: nat)
    requires k < |fields|
    ensures forall iss ::
      iss in Validate(Get(Some(JObj(m)), fields[k].name), fields[k].schema, path + [Key(fields[k].name)])
      ==> iss in Validate(Some(JObj(m)), SObject(fields), path)
  {
    FieldIssuesFrom(fields, m, path, 0, k);
  }

  lemma {:induction false} FieldIssuesFrom(fields: seq<Field>, m: map<string, Json>, path: Path, i: nat, k: nat)
    requires i <= k < |fields|
    ensures forall iss ::
      iss in Validate(Get(Some(JObj(m)), fields[k].name), fields[k].schema, path + [Key(fields[k].name)])
      ==> iss in ValidateFields(fields, m, path, i)
    decreases k - i
  {
    if i < k { FieldIssuesFrom(fields, m, path, i + 1, k); }
  }

  /** Likewise every issue raised by the k-th item of an array. */
  lemma ItemIssuesCollected(items: seq<Json>, item: Schema, path: Path, k: nat)
    requires k < |items|
    ensures forall iss ::
      iss in Validate(Some(items[k]), item, path + [Index(k)])
      ==> iss in Validate(Some(JArr(items)), SArray(item), path)
  {
    ItemIssuesFrom(items, item, path, 0, k);
  }

  lemma {:induction false} ItemIssuesFrom(items: seq<Json>, item: Schema, path: Path, i: nat, k: nat)
    requires i <= k < |items|
    ensures forall iss ::
      iss in Validate(Some(items[k]), item, path + [Index(k)])
      ==> iss in ValidateItems(items, item, path, i)
    decreases k - i
  {
    if i < k { ItemIssuesFrom(items, item, path, i + 1, k); }
  }

  /** A field the object lacks is reported as Required at its full path,
      whatever the field's schema. */
  lemma MissingFieldRequired(fields: seq<Field>, m: map<string, Json>, path: Path, k: nat)
    requires k < |fields| && fields[k].name !in m
    ensures Issue(path + [Key(fields[k].name)], Required) in Validate(Some(JObj(m)), SObject(fields), path)
  {
    FieldIssuesCollected(fields, m, path, k);
  }

  /** A value of the wrong kind at a string or number leaf raises exactly
      one issue there, naming both kinds. */
  lemma LeafMismatch(j: Json, s: Schema, path: Path)
    requires s == SString || s == SNumber
    requires !Conforms(j, s)
    ensures Validate(Some(j), s, path) == [Issue(path, InvalidType(ExpectedText(s), KindOf(j)))]
  {
  }

  // ---------------------------------------------------------------------
  // The form of the error strings

  predicate NamedPath(p: Path) {
    forall i :: 0 <= i < |p| ==> p[i].Key? ==> p[i].key != ""
  }

  /** Every object field of the schema, at any depth, has a non-empty name. */
  predicate WellNamed(s: Schema)
    decreases s
  {
    match s
    case SArray(item) => WellNamed(item)
    case SObject(fields) =>
      forall k :: 0 <= k < |fields| ==> FieldWellNamed(fields[k], s)
    case _ => true
  }

  predicate FieldWellNamed(f: Field, ghost owner: Schema)
    requires owner.SObject? && f in owner.fields
    decreases owner, 0
  {
    f.name != "" && WellNamed(f.schema)
  }

  /** An object schema is well named when each field has a name and a
      well-named schema. */
  lemma ObjectWellNamed(fields: seq<Field>)
    requires forall k :: 0 <= k < |fields| ==> fields[k].name != "" && WellNamed(fields[k].schema)
    ensures WellNamed(SObject(fields))
  {
    forall k | 0 <= k < |fields| ensures FieldWellNamed(fields[k], SObject(fields)) {
      assert fields[k] in fields;
    }
  }

  lemma {:induction false} JoinPathEmpty(p: Path)
    requires NamedPath(p)
    ensures JoinPath(p) == "" <==> p == []
    decreases |p|
  {
    if |p| > 1 {
      assert NamedPath(p[1..]) by {
        forall i | 0 <= i < |p[1..]| ensures p[1..][i].Key? ==> p[1..][i].key != "" {
          assert p[1..][i] == p[i + 1];
        }
      }
      JoinPathEmpty(p[1..]);
    }
  }

  /** An issue at a path whose keys are all non-empty renders as
      `Error at "<a.b.0.c>": <message>`, and as the bare message when the
      path is empty. */
  lemma RenderForm(iss: Issue)
    requires NamedPath(iss.path)
    ensures iss.path == [] ==> Render(iss) == MessageText(iss.message)
    ensures iss.path != [] ==>
      Render(iss) == ErrorAt(JoinPath(iss.path), MessageText(iss.message))
  {
    JoinPathEmpty(iss.path);
  }

  /** Issues raised against a well-named schema carry named paths. */
  lemma {:induction false} IssuesNamed(v: Option<Json>, s: Schema, path: Path)
    requires NamedPath(path) && WellNamed(s)
    ensures forall iss :: iss in Validate(v, s, path) ==> NamedPath(iss.path)
    decreases s, 1, 0
  {
    match v
    case None =>
    case Some(j) =>
      match s
      case SString =>
      case SNumber =>
      case SEnum(_) =>
      case SArray(item) =>
        if j.JArr? { ItemIssuesNamed(j.items, item, path, 0); }
      case SObject(fields) =>
        if j.JObj? { FieldIssuesNamed(fields, j.fields, path, 0); }
  }

  lemma {:induction false} ItemIssuesNamed(items: seq<Json>, item: Schema, path: Path, i: nat)
    requires i <= |items|
    requires NamedPath(path) && WellNamed(item)
    ensures forall iss :: iss in ValidateItems(items, item, path, i) ==> NamedPath(iss.path)
    decreases SArray(item), 0, |items| - i
  {
    if i < |items| {
      var p := path + [Index(i)];
      assert NamedPath(p) by {
        forall t | 0 <= t < |p| ensures p[t].Key? ==> p[t].key != "" {
          if t < |path| { assert p[t] == path[t]; }
        }
      }
      IssuesNamed(Some(items[i]), item, p);
      ItemIssuesNamed(items, item, path, i + 1);
    }
  }

  lemma {:induction false} FieldIssuesNamed(fields: seq<Field>, m: map<string, Json>, path: Path, i: nat)
    requires i <= |fields|
    requires NamedPath(path) && WellNamed(SObject(fields))
    ensures forall iss :: iss in ValidateFields(fields, m, path, i) ==> NamedPath(iss.path)
    decreases SObject(fields), 0, |fields| - i
  {
    if i < |fields| {
      var f := fields[i];
      assert f in fields;
      assert FieldWellNamed(f, SObject(fields));
      var p := path + [Key(f.name)];
      assert NamedPath(p) by {
        forall t | 0 <= t < |p| ensures p[t].Key? ==> p[t].key != "" {
          if t < |path| { assert p[t] == path[t]; }
        }
      }
      IssuesNamed(Get(Some(JObj(m)), f.name), f.schema, p);
      FieldIssuesNamed(fields, m, path, i + 1);
    }
  }

  /** The result for a text that parses: valid exactly when the value
      conforms; otherwise one error string per issue, in order, each in
      the path-qualified form (for a well-named schema). */
  lemma ValidateResponseErrors(codec: JsonCodec, response: string, schema: Schema)
    requires codec.parse(response).Some? && WellNamed(schema)
    ensures var r := ValidateResponse(codec, response, schema);
            var issues := Validate(codec.parse(response), schema, []);
            (r.valid <==> issues == []) &&
            (!r.valid ==>
              && |r.errors.value| == |issues|
              && forall i :: 0 <= i < |issues| ==>
                   r.errors.value[i] ==
                     if issues[i].path == [] then MessageText(issues[i].message)
                     else ErrorAt(JoinPath(issues[i].path), MessageText(issues[i].message)))
  {
    var issues := Validate(codec.parse(response), schema, []);
    IssuesNamed(codec.parse(response), schema, []);
    forall i | 0 <= i < |issues| ensures NamedPath(issues[i].path) {
      assert issues[i] in issues;
    }
    forall i | 0 <= i < |issues| {
      RenderForm(issues[i]);
    }
  }

  /** Validating the text of a conforming value succeeds, with no errors. */
  lemma SerializedConformingValid(codec: JsonCodec, v: Json, schema: Schema)
    requires RoundTrips(codec) && Conforms(v, schema)
    ensures ValidateResponse(codec, codec.stringify(v), schema) == ValidationResult(true, None)
  {
  }
}
