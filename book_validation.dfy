/** The payload schemas of the `/books` routes. */
module BookValidation {

  import opened Wrappers
  import opened Json
  import opened Zod

  /** `zod.object({ name: string().min(1), author: string().min(1), date: string().optional() })` */
  const CreateBook: ObjectSchema :=
    ObjectSchema([Field("name", Str(1), false), Field("author", Str(1), false), Field("date", Str(0), true)], false)

  /** `CreateBook.partial().strict()` */
  const UpdateBook: ObjectSchema := Strict(Partial(CreateBook))

  const BookKeys: set<string> := {"name", "author", "date"}

  predicate NonEmptyString(fields: Record, key: string) {
    key in fields && fields[key].JString? && |fields[key].s| >= 1
  }

  predicate StringIfPresent(fields: Record, key: string) {
    key in fields ==> fields[key].JString?
  }

  /** What `CreateBook` accepts: non-empty string `name` and `author`, and a string `date` if present. */
  predicate IsBookDraft(v: Json) {
    v.JObject? && NonEmptyString(v.fields, "name") && NonEmptyString(v.fields, "author") && StringIfPresent(v.fields, "date")
  }

  /** What `UpdateBook` accepts: only book keys, each present one obeying its `CreateBook` rule. */
  predicate IsBookPatch(v: Json) {
    && v.JObject?
    && v.fields.Keys <= BookKeys
    && ("name" in v.fields ==> NonEmptyString(v.fields, "name"))
    && ("author" in v.fields ==> NonEmptyString(v.fields, "author"))
    && StringIfPresent(v.fields, "date")
  }

  lemma CreateBookShape()
    ensures Keys(CreateBook.shape) == BookKeys
    ensures Keys(UpdateBook.shape) == BookKeys
  {
    assert CreateBook.shape[0].key == "name";
    assert CreateBook.shape[1].key == "author";
    assert CreateBook.shape[2].key == "date";
  }

  /** `CreateBook` accepts exactly the objects with a non-empty string `name` and `author` and, if present, a string `date`. */
  lemma CreateBookAccepts(v: Json)
    ensures SafeParse(Object(CreateBook), v).Success? <==> IsBookDraft(v)
  {
    var s := CreateBook.shape;
    assert s[0] == Field("name", Str(1), false) && s[1] == Field("author", Str(1), false) && s[2] == Field("date", Str(0), true);
    if v.JObject? && NonEmptyString(v.fields, "name") && NonEmptyString(v.fields, "author") && StringIfPresent(v.fields, "date") {
      forall i | 0 <= i < |s|
        ensures FieldAccepts(s[i], v.fields)
      {
        assert i == 0 || i == 1 || i == 2;
      }
    }
    if v.JObject? && ObjectAccepts(CreateBook, v) {
      assert FieldAccepts(s[0], v.fields) && FieldAccepts(s[1], v.fields) && FieldAccepts(s[2], v.fields);
    }
  }

  /** On success `CreateBook` outputs the input restricted to `name`, `author` and `date`: other keys are stripped. */
  lemma CreateBookOutput(v: Json)
    requires SafeParse(Object(CreateBook), v).Success?
    ensures SafeParse(Object(CreateBook), v).value == map k | k in v.fields && k in BookKeys :: v.fields[k]
  {
    CreateBookShape();
  }

  /** `date` may be left out. */
  lemma CreateBookDateOptional(name: string, author: string)
    requires |name| >= 1 && |author| >= 1
    ensures SafeParse(Object(CreateBook), JObject(map["name" := JString(name), "author" := JString(author)])).Success?
  {
    CreateBookAccepts(JObject(map["name" := JString(name), "author" := JString(author)]));
  }

  /** `{foo: "bar"}` has neither `name` nor `author`. */
  lemma CreateBookRejectsFooBar()
    ensures SafeParse(Object(CreateBook), JObject(map["foo" := JString("bar")])).Failure?
  {
    CreateBookAccepts(JObject(map["foo" := JString("bar")]));
  }

  /** `UpdateBook` accepts exactly the objects with only book keys whose present keys obey their `CreateBook` rule. */
  lemma UpdateBookAccepts(v: Json)
    ensures SafeParse(Object(UpdateBook), v).Success? <==> IsBookPatch(v)
  {
    CreateBookShape();
    PartialStrictAccepts(CreateBook, v);
    var s := CreateBook.shape;
    assert s[0] == Field("name", Str(1), false) && s[1] == Field("author", Str(1), false) && s[2] == Field("date", Str(0), true);
    if && v.JObject? && v.fields.Keys <= BookKeys
       && ("name" in v.fields ==> NonEmptyString(v.fields, "name"))
       && ("author" in v.fields ==> NonEmptyString(v.fields, "author"))
       && StringIfPresent(v.fields, "date")
    {
      forall i | 0 <= i < |s| && s[i].key in v.fields
        ensures Satisfies(s[i].check, v.fields[s[i].key])
      {
        assert i == 0 || i == 1 || i == 2;
      }
    }
  }

  /** Being strict, `UpdateBook` strips nothing: on success its output is the input object itself. */
  lemma UpdateBookOutput(v: Json)
    requires SafeParse(Object(UpdateBook), v).Success?
    ensures SafeParse(Object(UpdateBook), v).value == v.fields
  {
    UpdateBookAccepts(v);
    CreateBookShape();
  }

  /** The empty patch `{}` is accepted and outputs `{}`. */
  lemma UpdateBookAcceptsEmpty()
    ensures SafeParse(Object(UpdateBook), JObject(map[])) == Success(map[])
  {
    UpdateBookAccepts(JObject(map[]));
  }

  /** Any key other than `name`, `author` and `date` makes `UpdateBook` fail. */
  lemma UpdateBookRejectsUnknownKey(v: Json, k: string)
    requires v.JObject? && k in v.fields && k !in BookKeys
    ensures SafeParse(Object(UpdateBook), v).Failure?
  {
    UpdateBookAccepts(v);
  }

  /** `{nonsense: true}` is rejected. */
  lemma UpdateBookRejectsNonsense()
    ensures SafeParse(Object(UpdateBook), JObject(map["nonsense" := JBool(true)])).Failure?
  {
    UpdateBookRejectsUnknownKey(JObject(map["nonsense" := JBool(true)]), "nonsense");
  }

  /** A record with only book keys that `CreateBook` accepts is accepted by `UpdateBook`, with the same output. */
  lemma CreateImpliesUpdate(v: Json)
    requires SafeParse(Object(CreateBook), v).Success? && v.fields.Keys <= BookKeys
    ensures SafeParse(Object(UpdateBook), v) == SafeParse(Object(CreateBook), v)
  {
    CreateBookShape();
    PartialStrictWidens(CreateBook, v);
  }
}
