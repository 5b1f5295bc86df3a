/** frontend/src/generators/organizations.ts: health establishments of
    the DEIS catalog, narrowed by optional type, level and region
    filters, then drawn one per record; and the whole catalog mapped
    without drawing. */
module Organizations {
  import opened Prelude
  import opened Stream
  import opened Sampling

  /** An establishment of the catalog (`OrganizacionSalud`); the phone
      and the bed count are optional. */
  datatype Organizacion = Organizacion(
    codigoDeis: string, nombre: string, tipo: string, nivelAtencion: string,
    dependencia: string, servicioSalud: string, region: string, regionCodigo: string,
    comuna: string, direccion: string, telefono: Option<string>, urgencia24h: bool,
    camasHospitalarias: Option<int>)

  datatype OrganizationRecord = OrganizationRecord(
    organizationId: string, name: string, kind: string, level: string,
    dependency: string, healthService: string, region: string, regionCode: string,
    comuna: string, address: string, phone: Option<string>, hasEmergency: bool,
    beds: Option<int>)

  /** The optional lists of `OrganizationsParams`. */
  datatype OrganizationsParams = OrganizationsParams(
    types: Option<seq<string>>, levels: Option<seq<string>>, regions: Option<seq<string>>)

  const NoFilters := OrganizationsParams(None, None, None)

  // ---------------------------------------------------------------
  // Filtering
  // ---------------------------------------------------------------

  /** A filter list is applied only when it is given and not empty. */
  predicate Applies(f: Option<seq<string>>) {
    f.Some? && |f.value| > 0
  }

  /** The value passes the filter: the filter is not applied, or the
      value is in its list. */
  predicate Passes(f: Option<seq<string>>, x: string) {
    Applies(f) ==> x in f.value
  }

  /** One `filtered = filtered.filter(...)` step on the field `field`. */
  function FilterBy(orgs: seq<Organizacion>, f: Option<seq<string>>, field: Organizacion -> string)
    : seq<Organizacion>
  {
    if Applies(f) then Filter(orgs, (o: Organizacion) => field(o) in f.value) else orgs
  }

  function Tipo(o: Organizacion): string { o.tipo }
  function Nivel(o: Organizacion): string { o.nivelAtencion }
  function RegionCodigo(o: Organizacion): string { o.regionCodigo }

  /** The type filter, then the level filter, then the region filter. */
  function Filtered(catalog: seq<Organizacion>, P: OrganizationsParams): seq<Organizacion> {
    FilterBy(FilterBy(FilterBy(catalog, P.types, Tipo), P.levels, Nivel), P.regions, RegionCodigo)
  }

  lemma FilterByMembership(orgs: seq<Organizacion>, f: Option<seq<string>>,
                           field: Organizacion -> string, o: Organizacion)
    ensures o in FilterBy(orgs, f, field) <==> o in orgs && Passes(f, field(o))
  {
    if Applies(f) {
      FilterMembership(orgs, (x: Organizacion) => field(x) in f.value, o);
    }
  }

  /** An establishment survives the filters exactly when it is in the
      catalog and passes every applied filter. */
  lemma FilteredMembership(catalog: seq<Organizacion>, P: OrganizationsParams, o: Organizacion)
    ensures o in Filtered(catalog, P)
      <==> o in catalog && Passes(P.types, o.tipo) && Passes(P.levels, o.nivelAtencion)
           && Passes(P.regions, o.regionCodigo)
  {
    var a := FilterBy(catalog, P.types, Tipo);
    var b := FilterBy(a, P.levels, Nivel);
    FilterByMembership(catalog, P.types, Tipo, o);
    FilterByMembership(a, P.levels, Nivel, o);
    FilterByMembership(b, P.regions, RegionCodigo, o);
  }

  /** Without filters, or with empty lists, the whole catalog is kept. */
  lemma UnfilteredKeepsAll(catalog: seq<Organizacion>, P: OrganizationsParams)
    requires !Applies(P.types) && !Applies(P.levels) && !Applies(P.regions)
    ensures Filtered(catalog, P) == catalog
  {
  }

  // ---------------------------------------------------------------
  // Records
  // ---------------------------------------------------------------

  /** `org.telefono || null`: a missing or empty phone is null. */
  function Phone(o: Organizacion): (r: Option<string>)
    ensures r.None? <==> o.telefono.None? || o.telefono.value == ""
    ensures r.Some? ==> r.value == o.telefono.value
  {
    if o.telefono.Some? && o.telefono.value != "" then o.telefono else None
  }

  /** `org.camasHospitalarias || null`: a missing or zero bed count is
      null. */
  function Beds(o: Organizacion): (r: Option<int>)
    ensures r.None? <==> o.camasHospitalarias.None? || o.camasHospitalarias.value == 0
    ensures r.Some? ==> r.value == o.camasHospitalarias.value
  {
    if o.camasHospitalarias.Some? && o.camasHospitalarias.value != 0 then o.camasHospitalarias else None
  }

  /** The record of one establishment, the same in both generators. */
  function ToRecord(o: Organizacion): OrganizationRecord {
    OrganizationRecord(
      o.codigoDeis, o.nombre, o.tipo, o.nivelAtencion, o.dependencia, o.servicioSalud,
      o.region, o.regionCodigo, o.comuna, o.direccion, Phone(o), o.urgencia24h, Beds(o))
  }

  /** Record `i` reads draw `i`: one pick from the filtered list. */
  function OrganizationAt(ds: Draws, i: nat, orgs: seq<Organizacion>): OrganizationRecord
    requires |orgs| > 0
  {
    ToRecord(PickFromDraw(ds(i), orgs))
  }

  /** The first `n` records. */
  function OrganizationsFrom(ds: Draws, n: nat, orgs: seq<Organizacion>): (rs: seq<OrganizationRecord>)
    requires |orgs| > 0
    ensures |rs| == n
  {
    if n == 0 then [] else OrganizationsFrom(ds, n - 1, orgs) + [OrganizationAt(ds, n - 1, orgs)]
  }

  lemma {:induction false} OrganizationsIndex(ds: Draws, n: nat, orgs: seq<Organizacion>, k: nat)
    requires |orgs| > 0 && k < n
    ensures OrganizationsFrom(ds, n, orgs)[k] == OrganizationAt(ds, k, orgs)
  {
    if k < n - 1 {
      OrganizationsIndex(ds, n - 1, orgs, k);
    }
  }

  /** What `generateOrganizations` returns for the draws `ds`: `count`
      records, none for a count of zero or less; a pick from an empty
      list reads `undefined`, whose fields JavaScript cannot read, so a
      positive count with nothing left after filtering fails. */
  function OrganizationsResult(ds: Draws, count: int, catalog: seq<Organizacion>, P: OrganizationsParams)
    : Result<seq<OrganizationRecord>, string>
  {
    var orgs := Filtered(catalog, P);
    if count <= 0 then Success([])
    else if |orgs| == 0 then Failure("Cannot read properties of undefined")
    else Success(OrganizationsFrom(ds, count, orgs))
  }

  /** Every generated record is an establishment of the catalog that
      passes every applied filter, with its DEIS code as id. */
  lemma GeneratedPassFilters(ds: Draws, count: int, catalog: seq<Organizacion>,
                             P: OrganizationsParams, k: nat)
    requires OrganizationsResult(ds, count, catalog, P).Success?
    requires k < |OrganizationsResult(ds, count, catalog, P).value|
    ensures var r := OrganizationsResult(ds, count, catalog, P).value[k];
      Passes(P.types, r.kind) && Passes(P.levels, r.level) && Passes(P.regions, r.regionCode)
      && exists o | o in catalog :: r == ToRecord(o) && r.organizationId == o.codigoDeis
  {
    var orgs := Filtered(catalog, P);
    OrganizationsIndex(ds, count, orgs, k);
    var o := PickFromDraw(ds(k), orgs);
    FilteredMembership(catalog, P, o);
  }

  /** `count` records exactly when the count is positive and the filtered
      list is not empty, none when the count is not positive, and a
      failure otherwise. */
  lemma GeneratedCount(ds: Draws, count: int, catalog: seq<Organizacion>, P: OrganizationsParams)
    ensures var r := OrganizationsResult(ds, count, catalog, P);
      (r.Failure? <==> count > 0 && |Filtered(catalog, P)| == 0)
      && (r.Success? ==> |r.value| == Max(count, 0))
  {
  }

  // ---------------------------------------------------------------
  // The generators
  // ---------------------------------------------------------------

  method OrganizationLoop(rng: Mulberry32, count: int, orgs: seq<Organizacion>)
    returns (data: seq<OrganizationRecord>)
    requires rng.Valid() && rng.draws == 0 && |orgs| > 0
    modifies rng
    ensures data == OrganizationsFrom(rng.values, Max(count, 0), orgs)
  {
    data := [];
    var i := 0;
    while i < count
      invariant 0 <= i <= Max(count, 0)
      invariant rng.Valid() && rng.draws == i
      invariant data == OrganizationsFrom(rng.values, i, orgs)
    {
      var o := RandomPick(rng, orgs);
      data := data + [ToRecord(o)];
      i := i + 1;
    }
    assert i == Max(count, 0);
  }

  /** `generateOrganizations(count, seed, params)` over the catalog. */
  method GenerateOrganizations(count: int, seed: int, catalog: seq<Organizacion>, P: OrganizationsParams)
    returns (r: Result<seq<OrganizationRecord>, string>)
    ensures r == OrganizationsResult(StreamDraws(seed), count, catalog, P)
  {
    var rng := new Mulberry32(seed);
    var orgs := FilterBy(catalog, P.types, Tipo);
    orgs := FilterBy(orgs, P.levels, Nivel);
    orgs := FilterBy(orgs, P.regions, RegionCodigo);
    if count <= 0 {
      return Success([]);
    }
    if |orgs| == 0 {
      return Failure("Cannot read properties of undefined");
    }
    var data := OrganizationLoop(rng, count, orgs);
    r := Success(data);
  }

  /** `getAllOrganizations()`: every catalog entry once, in catalog
      order. */
  function AllOrganizations(catalog: seq<Organizacion>): (rs: seq<OrganizationRecord>)
    ensures |rs| == |catalog|
    ensures forall k | 0 <= k < |catalog| :: rs[k] == ToRecord(catalog[k])
  {
    if |catalog| == 0 then [] else [ToRecord(catalog[0])] + AllOrganizations(catalog[1..])
  }

  /** A catalog of distinct DEIS codes gives records of distinct ids. */
  lemma AllOrganizationsIdsDistinct(catalog: seq<Organizacion>)
    requires forall i, j | 0 <= i < j < |catalog| :: catalog[i].codigoDeis != catalog[j].codigoDeis
    ensures var rs := AllOrganizations(catalog);
      forall i, j | 0 <= i < j < |rs| :: rs[i].organizationId != rs[j].organizationId
  {
  }
}
