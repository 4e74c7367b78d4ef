/**
 * The part of the zod validation library the service uses: object schemas of
 * string fields (`zod.string().min(n)`, `zod.email()`, `.optional()`), the
 * `.partial()` and `.strict()` modifiers, `zod.union([...])`, and `safeParse`.
 * A non-strict object strips unknown keys from its output; a strict one
 * rejects them.
 */
module Zod {

  import opened Wrappers
  import opened Json
  import Email

  /** The check a field's value must pass: a string of at least `minLength` characters, or an email-shaped string. */
  datatype Check = Str(minLength: nat) | EmailFormat

  datatype Field = Field(key: string, check: Check, optional: bool)

  /** `zod.object(shape)`, strict after `.strict()`. */
  datatype ObjectSchema = ObjectSchema(shape: seq<Field>, strict: bool)

  datatype Schema = Object(obj: ObjectSchema) | Union(options: seq<ObjectSchema>)

  datatype Issue =
    | InvalidType(path: string)               // wrong type, or a required key missing ("" is the root)
    | TooSmall(path: string, minimum: nat)    // string shorter than its `min`
    | InvalidFormat(path: string)             // string that is not email-shaped
    | UnrecognizedKeys(keys: set<string>)     // keys a strict object does not know
    | InvalidUnion(errors: seq<ZodError>)     // every option of a union failed

  datatype ZodError = ZodError(issues: seq<Issue>)

  type Record = map<string, Json>

  type ParseResult = Result<Record, ZodError>

  /** The value passes the field's check. */
  predicate Satisfies(c: Check, v: Json) {
    v.JString? &&
    match c
    case Str(min) => |v.s| >= min
    case EmailFormat => Email.IsEmail(v.s)
  }

  /** The field is acceptable in `fields`: absent and optional, or present and passing its check. */
  predicate FieldAccepts(f: Field, fields: Record) {
    if f.key in fields then Satisfies(f.check, fields[f.key]) else f.optional
  }

  function Keys(shape: seq<Field>): set<string> {
    set i | 0 <= i < |shape| :: shape[i].key
  }

  /** When an object schema accepts a payload, stated declaratively. */
  predicate ObjectAccepts(o: ObjectSchema, v: Json) {
    && v.JObject?
    && (forall i :: 0 <= i < |o.shape| ==> FieldAccepts(o.shape[i], v.fields))
    && (o.strict ==> v.fields.Keys <= Keys(o.shape))
  }

  /** The keys of `fields` the shape knows, with their values: what zod's object parser outputs. */
  function Known(shape: seq<Field>, fields: Record): (r: Record)
    ensures r.Keys == fields.Keys * Keys(shape)
    ensures forall k :: k in r ==> r[k] == fields[k]
  {
    map k | k in fields && k in Keys(shape) :: fields[k]
  }

  function FieldIssues(f: Field, fields: Record): (r: seq<Issue>)
    ensures r == [] <==> FieldAccepts(f, fields)
  {
    if f.key !in fields then
      if f.optional then [] else [InvalidType(f.key)]
    else
      var v := fields[f.key];
      if !v.JString? then [InvalidType(f.key)]
      else match f.check
        case Str(min) => if |v.s| < min then [TooSmall(f.key, min)] else []
        case EmailFormat => if !Email.IsEmail(v.s) then [InvalidFormat(f.key)] else []
  }

  /** The issues of every field of the shape, in shape order. */
  function ShapeIssues(shape: seq<Field>, fields: Record): (r: seq<Issue>)
    ensures r == [] <==> forall i :: 0 <= i < |shape| ==> FieldAccepts(shape[i], fields)
  {
    if shape == [] then []
    else
      var rest := ShapeIssues(shape[1..], fields);
      assert forall i :: 1 <= i < |shape| ==> shape[i] == shape[1..][i - 1];
      FieldIssues(shape[0], fields) + rest
  }

  /** `schema.safeParse(v)` for an object schema. */
  function ParseObject(o: ObjectSchema, v: Json): (r: ParseResult)
    ensures r.Success? <==> ObjectAccepts(o, v)
    ensures r.Success? ==> r.value == Known(o.shape, v.fields)
    ensures r.Failure? ==> r.error.issues != []
  {
    if !v.JObject? then Failure(ZodError([InvalidType("")]))
    else
      var unknown := v.fields.Keys - Keys(o.shape);
      var issues := ShapeIssues(o.shape, v.fields)
                    + (if o.strict && !(v.fields.Keys <= Keys(o.shape)) then [UnrecognizedKeys(unknown)] else []);
      if issues == [] then Success(Known(o.shape, v.fields)) else Failure(ZodError(issues))
  }

  /** Index of the first option that accepts `v`, or `|options|` when none does. */
  function FirstAccepting(options: seq<ObjectSchema>, v: Json): (i: nat)
    ensures i <= |options|
    ensures i < |options| ==> ObjectAccepts(options[i], v)
    ensures forall j :: 0 <= j < i ==> !ObjectAccepts(options[j], v)
  {
    if options == [] then 0
    else if ObjectAccepts(options[0], v) then 0
    else 1 + FirstAccepting(options[1..], v)
  }

  /** `zod.union(options).safeParse(v)`: the output of the first option that accepts, else every option's error. */
  function ParseUnion(options: seq<ObjectSchema>, v: Json): (r: ParseResult)
    ensures r.Success? <==> exists i :: 0 <= i < |options| && ObjectAccepts(options[i], v)
    ensures r.Success? ==> r.value == Known(options[FirstAccepting(options, v)].shape, v.fields)
  {
    var i := FirstAccepting(options, v);
    if i < |options| then ParseObject(options[i], v)
    else Failure(ZodError([InvalidUnion(seq(|options|, j requires 0 <= j < |options| => ParseObject(options[j], v).error))]))
  }

  function SafeParse(s: Schema, v: Json): ParseResult {
    match s
    case Object(o) => ParseObject(o, v)
    case Union(options) => ParseUnion(options, v)
  }

  /** `.partial()`: the same fields, every one optional. */
  function Partial(o: ObjectSchema): (r: ObjectSchema)
    ensures |r.shape| == |o.shape| && r.strict == o.strict
    ensures forall i :: 0 <= i < |o.shape| ==> r.shape[i] == o.shape[i].(optional := true)
    ensures Keys(r.shape) == Keys(o.shape)
  {
    var shape := seq(|o.shape|, i requires 0 <= i < |o.shape| => o.shape[i].(optional := true));
    assert forall i :: 0 <= i < |o.shape| ==> shape[i].key == o.shape[i].key;
    ObjectSchema(shape, o.strict)
  }

  /** `.strict()`: the same fields, unknown keys rejected. */
  function Strict(o: ObjectSchema): (r: ObjectSchema)
    ensures r.shape == o.shape && r.strict
  {
    o.(strict := true)
  }

  /**
   * `o.partial()` accepts exactly the objects whose present declared keys each
   * pass their field's check (and, for a strict `o`, that carry no other key):
   * a missing key is never an issue any more.
   */
  lemma PartialAccepts(o: ObjectSchema, v: Json)
    ensures ParseObject(Partial(o), v).Success? <==>
      && v.JObject?
      && (o.strict ==> v.fields.Keys <= Keys(o.shape))
      && forall i :: 0 <= i < |o.shape| && o.shape[i].key in v.fields ==> Satisfies(o.shape[i].check, v.fields[o.shape[i].key])
  {
    var p := Partial(o);
    if v.JObject? {
      forall i | 0 <= i < |o.shape|
        ensures FieldAccepts(p.shape[i], v.fields) <==>
          (o.shape[i].key in v.fields ==> Satisfies(o.shape[i].check, v.fields[o.shape[i].key]))
      {
        assert p.shape[i] == o.shape[i].(optional := true);
      }
    }
  }

  /** `o.strict()` rejects every object carrying a key its shape does not declare, whatever the other fields hold. */
  lemma StrictRejectsUndeclared(o: ObjectSchema, v: Json, k: string)
    requires v.JObject? && k in v.fields && k !in Keys(o.shape)
    ensures ParseObject(Strict(o), v).Failure?
    ensures UnrecognizedKeys(v.fields.Keys - Keys(o.shape)) in ParseObject(Strict(o), v).error.issues
  {
  }

  /**
   * `o.partial().strict()` accepts exactly the objects with only known keys
   * whose present keys each pass their field's check.
   */
  lemma PartialStrictAccepts(o: ObjectSchema, v: Json)
    ensures ObjectAccepts(Strict(Partial(o)), v) <==>
      && v.JObject?
      && v.fields.Keys <= Keys(o.shape)
      && forall i :: 0 <= i < |o.shape| && o.shape[i].key in v.fields ==> Satisfies(o.shape[i].check, v.fields[o.shape[i].key])
  {
  }

  /** Whatever record with only known keys `o` accepts, `o.partial().strict()` accepts too, with the same output. */
  lemma PartialStrictWidens(o: ObjectSchema, v: Json)
    requires ObjectAccepts(o, v) && v.fields.Keys <= Keys(o.shape)
    ensures ParseObject(Strict(Partial(o)), v) == ParseObject(o, v)
  {
    PartialStrictAccepts(o, v);
  }

  /** A union with a single option accepts exactly what that option accepts, with the same output. */
  lemma SingleOptionUnion(o: ObjectSchema, v: Json)
    ensures SafeParse(Union([o]), v).Success? <==> SafeParse(Object(o), v).Success?
    ensures SafeParse(Union([o]), v).Success? ==> SafeParse(Union([o]), v).value == SafeParse(Object(o), v).value
  {
  }
}
