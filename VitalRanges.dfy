/** frontend/src/data/vital-ranges.ts: reference ranges of the vital
    signs by age group and sex, the age-group map, the evaluation of a
    measured value and the generation of a value inside the normal range.

    The table itself is a parameter: every lookup is stated for any
    table. */
module VitalRanges {
  import opened Prelude

  datatype SignoVital =
    | FrecuenciaCardiaca | FrecuenciaRespiratoria | PresionSistolica | PresionDiastolica
    | Temperatura | SaturacionO2 | Peso | Talla | Imc | CircunferenciaCefalica | Glasgow

  datatype Sexo = M | F | Ambos

  datatype GrupoEtario =
    | RecienNacido | LactanteMenor | LactanteMayor | Preescolar
    | Escolar | Adolescente | Adulto | AdultoMayor

  /** One row of `rangosVitales`; the names and notes are left out. */
  datatype RangoVital = RangoVital(
    signoVital: SignoVital, grupoEtario: GrupoEtario,
    edadMinMeses: real, edadMaxMeses: real, sexo: Sexo,
    valorMinNormal: real, valorMaxNormal: real,
    valorCriticoBajo: Option<real>, valorCriticoAlto: Option<real>)

  // ---------------------------------------------------------------
  // Lookup
  // ---------------------------------------------------------------

  /** The test of `getRangoVital`: same sign, age in [min, max), and a row
      for both sexes, for the given sex, or no sex given. */
  predicate Applies(r: RangoVital, signo: SignoVital, edadMeses: real, sexo: Option<Sexo>) {
    r.signoVital == signo && r.edadMinMeses <= edadMeses < r.edadMaxMeses
    && (r.sexo == Ambos || sexo == Some(r.sexo) || sexo.None?)
  }

  /** `getRangoVital(signo, edadMeses, sexo)`: `rangosVitales.find(...)`. */
  function GetRangoVital(table: seq<RangoVital>, signo: SignoVital, edadMeses: real, sexo: Option<Sexo>)
    : Option<RangoVital>
  {
    Find(table, (r: RangoVital) => Applies(r, signo, edadMeses, sexo))
  }

  /** The lookup gives the first row that applies, and nothing exactly
      when no row applies. */
  lemma GetRangoVitalFirst(table: seq<RangoVital>, signo: SignoVital, edadMeses: real, sexo: Option<Sexo>)
    ensures GetRangoVital(table, signo, edadMeses, sexo).None?
      <==> forall i | 0 <= i < |table| :: !Applies(table[i], signo, edadMeses, sexo)
    ensures GetRangoVital(table, signo, edadMeses, sexo).Some? ==>
      exists k | 0 <= k < |table| :: GetRangoVital(table, signo, edadMeses, sexo).value == table[k]
        && Applies(table[k], signo, edadMeses, sexo)
        && forall i | 0 <= i < k :: !Applies(table[i], signo, edadMeses, sexo)
  {
    FindFirst(table, (r: RangoVital) => Applies(r, signo, edadMeses, sexo));
  }

  // ---------------------------------------------------------------
  // Age groups
  // ---------------------------------------------------------------

  /** `getGrupoEtario(edadMeses)`: thresholds 1, 12, 24, 72, 144, 216
      and 780 months. */
  function GetGrupoEtario(edadMeses: real): GrupoEtario {
    if edadMeses < 1.0 then RecienNacido
    else if edadMeses < 12.0 then LactanteMenor
    else if edadMeses < 24.0 then LactanteMayor
    else if edadMeses < 72.0 then Preescolar
    else if edadMeses < 144.0 then Escolar
    else if edadMeses < 216.0 then Adolescente
    else if edadMeses < 780.0 then Adulto
    else AdultoMayor
  }

  /** The first month of each group (the newborn group also takes
      anything below 1). */
  function GroupStart(g: GrupoEtario): real {
    match g
    case RecienNacido => 0.0
    case LactanteMenor => 1.0
    case LactanteMayor => 12.0
    case Preescolar => 24.0
    case Escolar => 72.0
    case Adolescente => 144.0
    case Adulto => 216.0
    case AdultoMayor => 780.0
  }

  /** The position of a group in age order. */
  function Rank(g: GrupoEtario): nat {
    match g
    case RecienNacido => 0
    case LactanteMenor => 1
    case LactanteMayor => 2
    case Preescolar => 3
    case Escolar => 4
    case Adolescente => 5
    case Adulto => 6
    case AdultoMayor => 7
  }

  /** The first month past each group but the last. */
  function GroupEnd(g: GrupoEtario): real
    requires g != AdultoMayor
  {
    match g
    case RecienNacido => 1.0
    case LactanteMenor => 12.0
    case LactanteMayor => 24.0
    case Preescolar => 72.0
    case Escolar => 144.0
    case Adolescente => 216.0
    case Adulto => 780.0
  }

  /** The groups tile the ages: an age is in a group exactly when it lies
      in the group's interval [start, end), with the newborn group open
      below and the last group open above. */
  lemma GrupoEtarioInterval(edadMeses: real, g: GrupoEtario)
    ensures GetGrupoEtario(edadMeses) == g <==>
      (g == RecienNacido || GroupStart(g) <= edadMeses)
      && (g == AdultoMayor || edadMeses < GroupEnd(g))
  {
    match g
    case RecienNacido =>
    case LactanteMenor =>
    case LactanteMayor =>
    case Preescolar =>
    case Escolar =>
    case Adolescente =>
    case Adulto =>
    case AdultoMayor =>
  }

  /** Older never means a younger group. */
  lemma GrupoEtarioMonotone(a: real, b: real)
    requires a <= b
    ensures Rank(GetGrupoEtario(a)) <= Rank(GetGrupoEtario(b))
  {
  }

  // ---------------------------------------------------------------
  // Evaluation
  // ---------------------------------------------------------------

  datatype Evaluacion = Normal | Bajo | Alto | CriticoBajo | CriticoAlto | Desconocido

  /** The verdict for a value against one row: the critical bounds first
      and inclusively, then the normal range strictly. */
  function EvaluarEnRango(rango: RangoVital, valor: real): Evaluacion {
    if rango.valorCriticoBajo.Some? && valor <= rango.valorCriticoBajo.value then CriticoBajo
    else if rango.valorCriticoAlto.Some? && valor >= rango.valorCriticoAlto.value then CriticoAlto
    else if valor < rango.valorMinNormal then Bajo
    else if valor > rango.valorMaxNormal then Alto
    else Normal
  }

  /** `evaluarSignoVital(signo, valor, edadMeses, sexo)`. */
  function EvaluarSignoVital(table: seq<RangoVital>, signo: SignoVital, valor: real, edadMeses: real, sexo: Option<Sexo>)
    : (e: Evaluacion)
    ensures e == Desconocido <==> GetRangoVital(table, signo, edadMeses, sexo).None?
  {
    match GetRangoVital(table, signo, edadMeses, sexo)
    case None => Desconocido
    case Some(rango) => EvaluarEnRango(rango, valor)
  }

  /** A row whose bounds are in order: critical low below the normal
      range, critical high above it. */
  predicate Ordered(r: RangoVital) {
    r.valorMinNormal <= r.valorMaxNormal
    && (r.valorCriticoBajo.Some? ==> r.valorCriticoBajo.value < r.valorMinNormal)
    && (r.valorCriticoAlto.Some? ==> r.valorMaxNormal < r.valorCriticoAlto.value)
  }

  /** The verdicts from lowest to highest. */
  function Severity(e: Evaluacion): int {
    match e
    case CriticoBajo => 0
    case Bajo => 1
    case Normal => 2
    case Alto => 3
    case CriticoAlto => 4
    case Desconocido => 2
  }

  /** On an ordered row the verdict rises with the value, and a value is
      Normal exactly when it lies in the normal range. */
  lemma EvaluarMonotone(rango: RangoVital, a: real, b: real)
    requires Ordered(rango) && a <= b
    ensures Severity(EvaluarEnRango(rango, a)) <= Severity(EvaluarEnRango(rango, b))
    ensures EvaluarEnRango(rango, a) == Normal <==> rango.valorMinNormal <= a <= rango.valorMaxNormal
  {
  }

  /** The critical checks win over the normal range and are inclusive: a
      value equal to a critical bound is critical. */
  lemma CriticalInclusive(rango: RangoVital)
    requires rango.valorCriticoBajo.Some?
    ensures EvaluarEnRango(rango, rango.valorCriticoBajo.value) == CriticoBajo
  {
  }

  // ---------------------------------------------------------------
  // Generated values
  // ---------------------------------------------------------------

  /** `Math.max(lo, Math.min(hi, x))`. */
  function Clamp(lo: real, hi: real, x: real): real {
    MaxR(lo, MinR(hi, x))
  }

  /** `generarValorNormal(signo, edadMeses, sexo)` for the standard normal
      deviate `z` its two `Math.random` calls produce: the middle of the
      range plus `z` quarter-widths, clamped to the range, then rounded to
      one decimal for temperature and BMI and to an integer otherwise. */
  function GenerarValorNormal(table: seq<RangoVital>, signo: SignoVital, edadMeses: real, sexo: Option<Sexo>, z: real)
    : (v: Option<real>)
    ensures v.None? <==> GetRangoVital(table, signo, edadMeses, sexo).None?
  {
    match GetRangoVital(table, signo, edadMeses, sexo)
    case None => None
    case Some(rango) => Some(ValorEnRango(rango, signo, z))
  }

  /** The value generated from one row. */
  function ValorEnRango(rango: RangoVital, signo: SignoVital, z: real): real {
    var valor := Clamp(rango.valorMinNormal, rango.valorMaxNormal, Target(rango, z));
    if signo == Temperatura || signo == Imc then RoundTo(valor, 10)
    else Round(valor) as real
  }

  /** The middle of the normal range plus `z` quarter-widths. */
  function Target(rango: RangoVital, z: real): real {
    var media := (rango.valorMinNormal + rango.valorMaxNormal) / 2.0;
    var desviacion := (rango.valorMaxNormal - rango.valorMinNormal) / 4.0;
    media + z * desviacion
  }

  /** Whatever the deviate, a value generated from a row with integral
      bounds stays inside the range for an integer-valued sign, and within
      0.05 of it for a one-decimal sign. */
  lemma GeneratedInRange(rango: RangoVital, signo: SignoVital, z: real, lo: int, hi: int)
    requires rango.valorMinNormal == lo as real && rango.valorMaxNormal == hi as real && lo <= hi
    ensures var v := ValorEnRango(rango, signo, z);
      if signo == Temperatura || signo == Imc then lo as real - 0.05 <= v <= hi as real + 0.05
      else lo as real <= v <= hi as real
  {
    var valor := Clamp(lo as real, hi as real, Target(rango, z));
    ClampBetween(lo as real, hi as real, Target(rango, z));
    if signo == Temperatura || signo == Imc {
      RoundTenthNear(valor);
    } else {
      RoundBetweenIntegers(valor, lo, hi);
    }
  }

  /** A clamped value lies in its range. */
  lemma ClampBetween(lo: real, hi: real, x: real)
    requires lo <= hi
    ensures lo <= Clamp(lo, hi, x) <= hi
  {
  }

  /** Rounding to one decimal moves a value by at most 0.05. */
  lemma RoundTenthNear(v: real)
    ensures v - 0.05 < RoundTo(v, 10) <= v + 0.05
  {
    var k := Round(v * 10.0);
    assert v * 10.0 - 0.5 < k as real <= v * 10.0 + 0.5;
    assert RoundTo(v, 10) == k as real / 10.0;
  }

  /** Rounding a value that lies between two integers stays between them. */
  lemma RoundBetweenIntegers(x: real, lo: int, hi: int)
    requires lo as real <= x <= hi as real
    ensures lo <= Round(x) <= hi
  {
  }

  /** The fallback of each `generar*` helper when no range exists. */
  function Fallback(signo: SignoVital): real {
    match signo
    case FrecuenciaCardiaca => 75.0
    case FrecuenciaRespiratoria => 16.0
    case PresionSistolica => 120.0
    case PresionDiastolica => 80.0
    case Temperatura => 36.8
    case SaturacionO2 => 98.0
    case _ => 0.0
  }

  /** The signs that have a `generar*` helper. */
  predicate HasGenerator(signo: SignoVital) {
    signo.FrecuenciaCardiaca? || signo.FrecuenciaRespiratoria? || signo.PresionSistolica?
    || signo.PresionDiastolica? || signo.Temperatura? || signo.SaturacionO2?
  }

  /** `generarFrecuenciaCardiaca(edadMeses)` and its siblings:
      `generarValorNormal(signo, edadMeses) ?? fallback`, with no sex. */
  function Generar(table: seq<RangoVital>, signo: SignoVital, edadMeses: real, z: real): (v: real)
    requires HasGenerator(signo)
    ensures GetRangoVital(table, signo, edadMeses, None).None? ==> v == Fallback(signo)
    ensures GetRangoVital(table, signo, edadMeses, None).Some? ==>
      Some(v) == GenerarValorNormal(table, signo, edadMeses, None, z)
  {
    match GenerarValorNormal(table, signo, edadMeses, None, z)
    case Some(v) => v
    case None => Fallback(signo)
  }
}
