/**
 * The static catalog the configurator prices against: three booth templates,
 * each priced per linear foot, and three material tables (wood, fabric,
 * finish) that map a selectable value to a price multiplier.
 */
module Catalog {
  import opened Wrappers

  /** A product family; `basePrice` is currency per linear foot of booth length. */
  datatype Template = Template(id: string, name: string, description: string, basePrice: real)

  /** One selectable material; `multiplier` scales the price (1.0 means no effect). */
  datatype MaterialOption = MaterialOption(value: string, caption: string, multiplier: real)

  const Templates: seq<Template> := [
    Template("straight-full-upholstered", "Straight - Fully Upholstered",
             "Classic straight booth with upholstered seat and back", 145.0),
    Template("straight-wood-back", "Straight - Wood Back",
             "Straight booth with wood back panel and upholstered seat", 165.0),
    Template("curved-full-upholstered", "Curved - Fully Upholstered",
             "Curved booth with upholstered seat and back", 185.0)
  ]

  const WoodOptions: seq<MaterialOption> := [
    MaterialOption("maple", "Maple", 1.0),
    MaterialOption("oak", "Red Oak", 1.1),
    MaterialOption("walnut", "Walnut", 1.4),
    MaterialOption("spec-to-follow", "See Spec to Follow", 1.0)
  ]

  const FabricOptions: seq<MaterialOption> := [
    MaterialOption("commercial-vinyl", "Commercial Vinyl", 1.0),
    MaterialOption("fabric-grade-3", "Fabric Grade 3", 1.2),
    MaterialOption("fabric-grade-5", "Fabric Grade 5", 1.5),
    MaterialOption("spec-to-follow", "See Spec to Follow", 1.0)
  ]

  const FinishOptions: seq<MaterialOption> := [
    MaterialOption("natural", "Natural/Clear", 1.0),
    MaterialOption("stain", "Stain", 1.05),
    MaterialOption("paint", "Paint", 1.1)
  ]

  /** The three material tables the price is computed against. */
  datatype Materials = Materials(wood: seq<MaterialOption>, fabric: seq<MaterialOption>, finish: seq<MaterialOption>)

  /** The configurator's own tables. */
  const Standard: Materials := Materials(WoodOptions, FabricOptions, FinishOptions)

  /** Index of the first option whose value is `value` (JavaScript's `Array.prototype.find`). */
  function FindOption(table: seq<MaterialOption>, value: string): (r: Option<nat>)
    ensures r.None? <==> forall i :: 0 <= i < |table| ==> table[i].value != value
    ensures r.Some? ==> r.value < |table| && table[r.value].value == value
    ensures r.Some? ==> forall j :: 0 <= j < r.value ==> table[j].value != value
  {
    if table == [] then None
    else if table[0].value == value then Some(0)
    else
      match FindOption(table[1..], value)
      case None => None
      case Some(i) => Some(i + 1)
  }

  /**
   * `table.find(o => o.value === value)?.multiplier || 1.0`: the first matching
   * option's multiplier, or 1.0 when nothing matches or that multiplier is 0 (falsy).
   * Written as one scan of the table; `MultiplierSpec` relates it to `FindOption`.
   */
  function Multiplier(table: seq<MaterialOption>, value: string): real {
    if table == [] then 1.0
    else if table[0].value == value then (if table[0].multiplier != 0.0 then table[0].multiplier else 1.0)
    else Multiplier(table[1..], value)
  }

  /** The scan agrees with `find` followed by the `|| 1.0` fallback. */
  lemma {:induction false} MultiplierSpec(table: seq<MaterialOption>, value: string)
    ensures FindOption(table, value).None? ==> Multiplier(table, value) == 1.0
    ensures FindOption(table, value).Some? ==>
      var o := table[FindOption(table, value).value];
      Multiplier(table, value) == if o.multiplier != 0.0 then o.multiplier else 1.0
  {
    if table != [] && table[0].value != value {
      MultiplierSpec(table[1..], value);
    }
  }

  predicate AllAtLeastOne(table: seq<MaterialOption>) {
    forall i :: 0 <= i < |table| ==> table[i].multiplier >= 1.0
  }

  predicate DistinctValues(table: seq<MaterialOption>) {
    forall i, j :: 0 <= i < j < |table| ==> table[i].value != table[j].value
  }

  /** No table offers a discount: every multiplier is at least 1. */
  predicate NoDiscounts(m: Materials) {
    AllAtLeastOne(m.wood) && AllAtLeastOne(m.fabric) && AllAtLeastOne(m.finish)
  }

  /** No catalog option lowers the price, and every template price is positive. */
  lemma CatalogBounds()
    ensures NoDiscounts(Standard)
    ensures forall i :: 0 <= i < |Templates| ==> Templates[i].basePrice > 0.0
  {
  }

  /** Option values are unique within each table, and template ids are unique. */
  lemma CatalogKeysDistinct()
    ensures DistinctValues(WoodOptions) && DistinctValues(FabricOptions) && DistinctValues(FinishOptions)
    ensures forall i, j :: 0 <= i < j < |Templates| ==> Templates[i].id != Templates[j].id
  {
  }

  /** When no option lowers the price, neither does the looked-up multiplier, fallback included. */
  lemma {:induction false} MultiplierAtLeastOne(table: seq<MaterialOption>, value: string)
    requires AllAtLeastOne(table)
    ensures Multiplier(table, value) >= 1.0
  {
    if table != [] && table[0].value != value {
      MultiplierAtLeastOne(table[1..], value);
    }
  }

  /** A value listed once is priced at exactly its table multiplier (when non-zero). */
  lemma MultiplierOfListed(table: seq<MaterialOption>, i: nat)
    requires i < |table| && DistinctValues(table) && table[i].multiplier != 0.0
    ensures Multiplier(table, table[i].value) == table[i].multiplier
  {
    MultiplierSpec(table, table[i].value);
  }

  /**
   * The wood table is keyed 'oak' (labelled "Red Oak"): 'oak' costs 1.1, while the
   * value 'red-oak' is not in the table and silently falls back to 1.0.
   */
  lemma WoodLookups()
    ensures Multiplier(WoodOptions, "maple") == 1.0
    ensures Multiplier(WoodOptions, "oak") == 1.1
    ensures Multiplier(WoodOptions, "walnut") == 1.4
    ensures Multiplier(WoodOptions, "red-oak") == 1.0
  {
    assert WoodOptions[1].value == "oak";
    assert WoodOptions[2].value == "walnut";
  }
}
