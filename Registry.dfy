/** The generator registry of frontend/src/generators/index.ts: thirteen
    schema ids, each bound to one generator, and `generate`, which looks
    the id up and fails with an error naming it when nothing is bound.
    The lookup returns which generator the id selects; the generators
    themselves are the `Generate…` methods of the other modules. */
module Registry {
  import opened Prelude

  /** The generators the registry binds, in its order. */
  datatype Schema =
    | Demographics | Cie10 | Encounters
    | Sir | Seir | Surveillance | Outbreak
    | SurvivalCohort | CaseControl
    | Linear | Logistic | Poisson | Cox

  /** The registry's keys, in declaration order. */
  const Keys: seq<string> := [
    "demographics", "cie10", "encounters",
    "sir", "seir", "surveillance", "outbreak",
    "survival_cohort", "case_control",
    "linear", "logistic", "poisson", "cox"]

  /** The key each generator is registered under. */
  function KeyOf(s: Schema): (k: string)
    ensures k in Keys
  {
    match s
    case Demographics => "demographics"
    case Cie10 => "cie10"
    case Encounters => "encounters"
    case Sir => "sir"
    case Seir => "seir"
    case Surveillance => "surveillance"
    case Outbreak => "outbreak"
    case SurvivalCohort => "survival_cohort"
    case CaseControl => "case_control"
    case Linear => "linear"
    case Logistic => "logistic"
    case Poisson => "poisson"
    case Cox => "cox"
  }

  /** `generators[schemaId]` restricted to the registry's own keys. */
  function Lookup(id: string): (r: Option<Schema>)
    ensures r.Some? <==> id in Keys
    ensures r.Some? ==> KeyOf(r.value) == id
  {
    match id
    case "demographics" => Some(Demographics)
    case "cie10" => Some(Cie10)
    case "encounters" => Some(Encounters)
    case "sir" => Some(Sir)
    case "seir" => Some(Seir)
    case "surveillance" => Some(Surveillance)
    case "outbreak" => Some(Outbreak)
    case "survival_cohort" => Some(SurvivalCohort)
    case "case_control" => Some(CaseControl)
    case "linear" => Some(Linear)
    case "logistic" => Some(Logistic)
    case "poisson" => Some(Poisson)
    case "cox" => Some(Cox)
    case _ => None
  }

  /** Every key names its own generator: the registry is a bijection
      between the thirteen keys and the thirteen generators. */
  lemma LookupKeyOf(s: Schema)
    ensures Lookup(KeyOf(s)) == Some(s)
  {
  }

  lemma KeysDistinct()
    ensures |Keys| == 13
    ensures forall i, j | 0 <= i < j < |Keys| :: Keys[i] != Keys[j]
  {
  }

  function UnknownSchema(id: string): string {
    "Unknown schema: " + id
  }

  /** `generate(schemaId, …)`: the generator bound to the id, or the
      error `Unknown schema: <id>`. */
  function Generate(id: string): (r: Result<Schema, string>)
    ensures r.Failure? <==> id !in Keys
    ensures r.Failure? ==> r.error == "Unknown schema: " + id
    ensures r.Success? ==> KeyOf(r.value) == id
  {
    match Lookup(id)
    case Some(s) => Success(s)
    case None => Failure(UnknownSchema(id))
  }

  /** The error names the schema: two unknown ids give two different
      messages. */
  lemma ErrorNamesSchema(a: string, b: string)
    requires a !in Keys && b !in Keys && a != b
    ensures Generate(a).error != Generate(b).error
  {
    var prefix := "Unknown schema: ";
    assert Generate(a).error[|prefix|..] == a;
    assert Generate(b).error[|prefix|..] == b;
  }

  /** The generators that attach records to given patients, and the
      organizations generator, are not reachable through `generate`;
      the survival cohort and the case-control study answer only to
      their underscored keys. */
  lemma UnregisteredIds()
    ensures forall id | id in ["conditions", "procedures", "immunizations", "medications",
                               "observations", "organizations", "vitals",
                               "survival", "casecontrol", "case-control"] ::
      Generate(id).Failure?
  {
  }

  // ---------------------------------------------------------------
  // The lookup as written
  // ---------------------------------------------------------------

  /** The properties every plain JavaScript object inherits from
      `Object.prototype`. */
  const Inherited: seq<string> := [
    "constructor", "hasOwnProperty", "isPrototypeOf", "propertyIsEnumerable",
    "toLocaleString", "toString", "valueOf", "__proto__",
    "__defineGetter__", "__defineSetter__", "__lookupGetter__", "__lookupSetter__"]

  /** What `generators[schemaId]` reads in JavaScript: the registry's own
      key, or a property the object literal inherits. */
  datatype Bound = Own(schema: Schema) | Prototype(name: string)

  function LookupAsWritten(id: string): (r: Option<Bound>)
    ensures r.None? <==> id !in Keys && id !in Inherited
  {
    match Lookup(id)
    case Some(s) => Some(Own(s))
    case None => if id in Inherited then Some(Prototype(id)) else None
  }

  /** The truthiness test `if (!generator)` as written: every inherited
      property is a function or an object, hence truthy, so no error is
      thrown for it. */
  function GenerateAsWritten(id: string): (r: Result<Bound, string>)
    ensures r.Failure? <==> id !in Keys && id !in Inherited
  {
    match LookupAsWritten(id)
    case Some(b) => Success(b)
    case None => Failure(UnknownSchema(id))
  }

  /** `generate("toString", …)` is not one of the thirteen schemas, yet
      the lookup as written throws no `Unknown schema` error for it; the
      corrected `Generate` does. */
  lemma InheritedKeyEscapes()
    ensures "toString" !in Keys
    ensures GenerateAsWritten("toString").Success?
    ensures Generate("toString") == Failure("Unknown schema: toString")
  {
    assert Inherited[5] == "toString";
    assert "Unknown schema: " + "toString" == "Unknown schema: toString";
  }

  /** Away from the inherited names the two lookups agree. */
  lemma AsWrittenAgrees(id: string)
    requires id !in Inherited
    ensures GenerateAsWritten(id).Success? <==> Generate(id).Success?
    ensures Generate(id).Success? ==> GenerateAsWritten(id).value == Own(Generate(id).value)
  {
  }
}
