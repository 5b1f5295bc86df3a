/** frontend/src/data/ges-pathologies.ts: the GES pathologies (explicit
    health guarantees) with their CIE-10 codes, and the lookups by number,
    by code and by category. The catalog itself is a parameter. */
module GesPathologies {
  import opened Prelude
  import opened Text

  /** One `GESPathology`; the target group and guarantees are left
      out. */
  datatype GesPathology = GesPathology(gesNumber: int, name: string, cie10Codes: seq<string>, category: string)

  /** `getGESByNumber(n)`: the first pathology with that number. */
  function GetGesByNumber(catalog: seq<GesPathology>, n: int): (r: Option<GesPathology>)
    ensures r.Some? ==> r.value in catalog && r.value.gesNumber == n
    ensures r.None? <==> forall i | 0 <= i < |catalog| :: catalog[i].gesNumber != n
  {
    FindFirst(catalog, (g: GesPathology) => g.gesNumber == n);
    Find(catalog, (g: GesPathology) => g.gesNumber == n)
  }

  /** `c.replace('.', '').substring(0, 3)`: the first three characters of
      a catalog code once its first dot is removed. */
  function CodePrefix(c: string): string {
    Take(ReplaceFirst(c, '.', ""), 3)
  }

  /** `cie10Code.startsWith(prefix(c))` for some code `c` of the
      pathology. */
  predicate CoversCode(g: GesPathology, code: string) {
    exists c | c in g.cie10Codes :: StartsWith(code, CodePrefix(c))
  }

  /** `getGESByCIE10(code)`. */
  function GetGesByCie10(catalog: seq<GesPathology>, code: string): seq<GesPathology> {
    Filter(catalog, (g: GesPathology) => CoversCode(g, code))
  }

  /** The code lookup returns exactly the pathologies one of whose codes'
      prefix starts the given code, in catalog order. */
  lemma GesByCie10Members(catalog: seq<GesPathology>, code: string, g: GesPathology)
    ensures g in GetGesByCie10(catalog, code) <==>
      g in catalog && exists c | c in g.cie10Codes :: StartsWith(code, CodePrefix(c))
  {
    FilterMembership(catalog, (x: GesPathology) => CoversCode(x, code), g);
  }

  /** Looking a concatenated catalog up is looking up each part. */
  lemma GesByCie10Order(a: seq<GesPathology>, b: seq<GesPathology>, code: string)
    ensures GetGesByCie10(a + b, code) == GetGesByCie10(a, code) + GetGesByCie10(b, code)
  {
    FilterAppend(a, b, (x: GesPathology) => CoversCode(x, code));
  }

  /** Only the first dot is removed: the prefix of a code with a dot at
      `k` is taken from the code without that one character. */
  lemma CodePrefixDropsFirstDot(c: string, k: nat)
    requires k < |c| && c[k] == '.' && '.' !in c[..k]
    ensures CodePrefix(c) == Take(c[..k] + c[k + 1..], 3)
  {
    IndexOfFirst(c, '.', k);
  }

  /** A code without a dot keeps its own first three characters. */
  lemma CodePrefixWithoutDot(c: string)
    requires '.' !in c
    ensures CodePrefix(c) == Take(c, 3)
  {
  }

  /** `getGESByCategory(category)`: an order-preserving filter. */
  function GetGesByCategory(catalog: seq<GesPathology>, category: string): seq<GesPathology> {
    Filter(catalog, (g: GesPathology) => g.category == category)
  }

  /** The category lookup keeps exactly the pathologies of the category. */
  lemma GesByCategoryMembers(catalog: seq<GesPathology>, category: string, g: GesPathology)
    ensures g in GetGesByCategory(catalog, category) <==> g in catalog && g.category == category
  {
    FilterMembership(catalog, (x: GesPathology) => x.category == category, g);
  }
}
