/**
 * The strict object shape that both configuration files are checked against:
 * `input` (string, required), `output` (string, optional), `force` (boolean, optional),
 * `prettier` (string, default ".prettierrc"), `schemas` (array of strings, default ["public"]),
 * and no other key.
 */
module Schema {
  import opened Wrappers
  import opened Json

  const DefaultPrettier: string := ".prettierrc"
  const DefaultSchemas: seq<string> := ["public"]

  /** The keys the shape declares; any other key fails the strict check. */
  const ShapeKeys: set<string> := {"input", "output", "force", "prettier", "schemas"}

  /** A configuration object that passed the check, with the defaults filled in. */
  datatype Config = Config(
    input: string,
    output: Option<string>,
    force: Option<bool>,
    prettier: string,
    schemas: seq<string>)

  /** Reference definition of the shape: an object, `input` present, every key declared and of its declared type. */
  predicate Conforms(j: Json) {
    && j.JObj?
    && "input" in j.fields
    && forall k :: k in j.fields ==> FieldConforms(k, j.fields[k])
  }

  predicate FieldConforms(key: string, v: Json) {
    if key == "input" || key == "output" || key == "prettier" then v.JStr?
    else if key == "force" then v.JBool?
    else if key == "schemas" then IsStringArray(v)
    else false
  }

  predicate IsStringArray(v: Json) {
    v.JArr? && forall i :: 0 <= i < |v.items| ==> v.items[i].JStr?
  }

  /** The strings of an array whose items are all strings. */
  function StringsOf(items: seq<Json>): (r: seq<string>)
    requires forall i :: 0 <= i < |items| ==> items[i].JStr?
    ensures |r| == |items|
    ensures forall i :: 0 <= i < |items| ==> items[i] == JStr(r[i])
  {
    if items == [] then [] else [items[0].s] + StringsOf(items[1..])
  }

  /** The JSON array items holding the given strings. */
  function JsonStrings(ss: seq<string>): (r: seq<Json>)
    ensures |r| == |ss|
    ensures forall i :: 0 <= i < |ss| ==> r[i] == JStr(ss[i])
  {
    if ss == [] then [] else [JStr(ss[0])] + JsonStrings(ss[1..])
  }

  function OptionalString(f: map<string, Json>, key: string): (o: Option<string>)
    requires key in f ==> f[key].JStr?
  {
    if key in f then Some(f[key].s) else None
  }

  /**
   * The shape's safeParse: an error carrying `invalid` or the defaulted configuration.
   * The check goes field by field, then refuses keys outside the shape.
   */
  function Validate(j: Json, invalid: string): (r: Result<Config>)
    ensures r.Ok? <==> Conforms(j)
    ensures r.Err? ==> r.msg == invalid
    // every key the payload gives is kept verbatim
    ensures r.Ok? ==> forall k :: k in j.fields ==> k in Encode(r.value).fields && Encode(r.value).fields[k] == j.fields[k]
    // absent optional keys stay absent; absent keys with a default take it
    ensures r.Ok? ==> ("output" !in j.fields ==> r.value.output == None)
    ensures r.Ok? ==> ("force" !in j.fields ==> r.value.force == None)
    ensures r.Ok? ==> ("prettier" !in j.fields ==> r.value.prettier == DefaultPrettier)
    ensures r.Ok? ==> ("schemas" !in j.fields ==> r.value.schemas == DefaultSchemas)
  {
    if !j.JObj? then Err(invalid)
    else
      var f := j.fields;
      if "input" !in f || !f["input"].JStr? then Err(invalid)
      else if "output" in f && !f["output"].JStr? then Err(invalid)
      else if "force" in f && !f["force"].JBool? then Err(invalid)
      else if "prettier" in f && !f["prettier"].JStr? then Err(invalid)
      else if "schemas" in f && !IsStringArray(f["schemas"]) then Err(invalid)
      else if !(f.Keys <= ShapeKeys) then
        assert exists k :: k in f && k !in ShapeKeys;
        Err(invalid)
      else
        var c := Config(
          f["input"].s,
          OptionalString(f, "output"),
          if "force" in f then Some(f["force"].b) else None,
          if "prettier" in f then f["prettier"].s else DefaultPrettier,
          if "schemas" in f then StringsOf(f["schemas"].items) else DefaultSchemas);
        assert "schemas" in f ==> JsonStrings(c.schemas) == f["schemas"].items;
        Ok(c)
  }

  /** The configuration written out as the JSON object it would be read from, defaults included. */
  function Encode(c: Config): (j: Json)
    ensures j.JObj? && j.fields.Keys <= ShapeKeys
  {
    var base := map["input" := JStr(c.input), "prettier" := JStr(c.prettier), "schemas" := JArr(JsonStrings(c.schemas))];
    var withOutput := if c.output.Some? then base["output" := JStr(c.output.value)] else base;
    JObj(if c.force.Some? then withOutput["force" := JBool(c.force.value)] else withOutput)
  }

  /** Every configuration written out conforms to the shape and reads back as itself. */
  lemma {:induction false} ValidateEncode(c: Config, invalid: string)
    ensures Conforms(Encode(c))
    ensures Validate(Encode(c), invalid) == Ok(c)
  {
    var f := Encode(c).fields;
    assert IsStringArray(f["schemas"]);
    StringsOfJsonStrings(c.schemas);
  }

  /** Reading back the strings of written-out strings gives them again (pointwise from the two contracts). */
  lemma StringsOfJsonStrings(ss: seq<string>)
    ensures StringsOf(JsonStrings(ss)) == ss
  {
  }

  /** The check depends on nothing but the payload: the message only labels the failure. */
  lemma ValidateMessageOnlyLabels(j: Json, m1: string, m2: string)
    ensures Validate(j, m1).Ok? ==> Validate(j, m1) == Validate(j, m2)
    ensures Validate(j, m1).Err? ==> Validate(j, m2) == Err(m2)
  {
  }

  /** Each way of failing the shape yields exactly the given message. */
  lemma ValidateRejects(j: Json, invalid: string)
    requires
      || !j.JObj?
      || "input" !in j.fields
      || !j.fields["input"].JStr?
      || ("output" in j.fields && !j.fields["output"].JStr?)
      || ("prettier" in j.fields && !j.fields["prettier"].JStr?)
      || ("force" in j.fields && !j.fields["force"].JBool?)
      || ("schemas" in j.fields && !IsStringArray(j.fields["schemas"]))
      || exists k :: k in j.fields && k !in ShapeKeys
    ensures Validate(j, invalid) == Err(invalid)
  {
  }
}
