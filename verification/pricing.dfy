/**
 * The price estimate: base price per linear foot times booth length in feet,
 * scaled by the three material multipliers, a linear per-segment surcharge
 * and a step surcharge for tall backs. Exact rational arithmetic; no rounding.
 */
module Pricing {
  import opened Wrappers
  import opened Numerals
  import opened Catalog
  import opened Booth

  /** 15% extra for every segment beyond the first, added linearly. */
  function SegmentMultiplier(segments: real): real {
    1.0 + (segments - 1.0) * 0.15
  }

  /** 10% extra for a back taller than 48 inches. */
  function HeightMultiplier(height: real): real {
    if height > 48.0 then 1.1 else 1.0
  }

  /** The template's per-foot price over the booth's length in feet, before any adjustment. */
  function BasePrice(t: Template, c: Config): real {
    t.basePrice * (c.overallLength.Value() / 12.0)
  }

  /** The product of the base price and the five multipliers, taken left to right. */
  function Product(base: real, wood: real, fabric: real, finish: real, segment: real, height: real): real {
    base * wood * fabric * finish * segment * height
  }

  /**
   * The estimated price against material tables `m`. With no template selected
   * it is 0; otherwise every factor is looked up or computed and the factors are
   * multiplied in the configurator's order.
   */
  function Price(m: Materials, template: Option<Template>, c: Config): (p: real)
    ensures template.None? ==> p == 0.0
  {
    if template.None? then 0.0
    else
      var basePrice := BasePrice(template.value, c);
      var woodMult := Multiplier(m.wood, c.woodType);
      var fabricMult := Multiplier(m.fabric, c.fabricType);
      var finishMult := Multiplier(m.finish, c.woodFinish);
      var segmentMult := SegmentMultiplier(c.numberOfSegments.Value());
      var heightMult := HeightMultiplier(c.overallHeight.Value());
      Product(basePrice, woodMult, fabricMult, finishMult, segmentMult, heightMult)
  }

  /** Everything the base price is multiplied by. */
  function Adjustment(m: Materials, c: Config): real {
    Multiplier(m.wood, c.woodType) * Multiplier(m.fabric, c.fabricType) * Multiplier(m.finish, c.woodFinish)
      * SegmentMultiplier(c.numberOfSegments.Value()) * HeightMultiplier(c.overallHeight.Value())
  }

  lemma ProductRegroup(b: real, w: real, f: real, n: real, s: real, h: real)
    ensures Product(b, w, f, n, s, h) == b * (w * f * n * s * h)
  {
    calc {
      b * w * f * n * s * h;
      (b * w) * f * n * s * h;
      b * (w * f) * n * s * h;
      b * (w * f * n) * s * h;
      b * (w * f * n * s) * h;
      b * (w * f * n * s * h);
    }
  }

  /** With a template, the price is the base price times the adjustment. */
  lemma PriceFactors(m: Materials, t: Template, c: Config)
    ensures Price(m, Some(t), c) == BasePrice(t, c) * Adjustment(m, c)
  {
    ProductRegroup(BasePrice(t, c), Multiplier(m.wood, c.woodType), Multiplier(m.fabric, c.fabricType),
                   Multiplier(m.finish, c.woodFinish), SegmentMultiplier(c.numberOfSegments.Value()),
                   HeightMultiplier(c.overallHeight.Value()));
  }

  lemma ScaleUp(a: real, k: real)
    requires a >= 0.0 && k >= 1.0
    ensures a * k >= a
  {
  }

  lemma ProductAtLeastOne(a: real, b: real)
    requires a >= 1.0 && b >= 1.0
    ensures a * b >= 1.0
  {
    ScaleUp(a, b);
  }

  /** Five factors that are each at least 1 multiply to at least 1. */
  lemma FactorsAtLeastOne(w: real, f: real, n: real, s: real, h: real)
    requires w >= 1.0 && f >= 1.0 && n >= 1.0 && s >= 1.0 && h >= 1.0
    ensures w * f * n * s * h >= 1.0
  {
    ProductAtLeastOne(w, f);
    ProductAtLeastOne(w * f, n);
    ProductAtLeastOne(w * f * n, s);
    ProductAtLeastOne(w * f * n * s, h);
  }

  /** With at least one segment and tables that offer no discount, nothing lowers the price. */
  lemma AdjustmentAtLeastOne(m: Materials, c: Config)
    requires NoDiscounts(m) && c.numberOfSegments.Value() >= 1.0
    ensures Adjustment(m, c) >= 1.0
  {
    MultiplierAtLeastOne(m.wood, c.woodType);
    MultiplierAtLeastOne(m.fabric, c.fabricType);
    MultiplierAtLeastOne(m.finish, c.woodFinish);
    FactorsAtLeastOne(Multiplier(m.wood, c.woodType), Multiplier(m.fabric, c.fabricType),
                      Multiplier(m.finish, c.woodFinish), SegmentMultiplier(c.numberOfSegments.Value()),
                      HeightMultiplier(c.overallHeight.Value()));
  }

  lemma Markup(b: real, a: real)
    requires b >= 0.0 && a >= 1.0
    ensures b * a >= b
    ensures b > 0.0 ==> (b * a) / b - 1.0 >= 0.0
  {
    ScaleUp(b, a);
    if b > 0.0 {
      var q := (b * a) / b;
      assert q * b == a * b;
      assert (q - a) * b == 0.0;
    }
  }

  lemma BasePriceNonNegative(t: Template, c: Config)
    requires t.basePrice >= 0.0 && c.overallLength.Value() >= 0.0
    ensures BasePrice(t, c) >= 0.0
  {
    ScaleUp(c.overallLength.Value() / 12.0, 1.0);
    ScaleUp(t.basePrice, 1.0);
  }

  /**
   * With at least one segment and tables that offer no discount (the
   * configurator's own tables offer none), the price is at least the base
   * price, and the review page's "material adjustments" percentage,
   * price / base - 1, is never negative.
   */
  lemma PriceAtLeastBase(m: Materials, t: Template, c: Config)
    requires NoDiscounts(m)
    requires t.basePrice >= 0.0 && c.overallLength.Value() >= 0.0
    requires c.numberOfSegments.Value() >= 1.0
    ensures Price(m, Some(t), c) >= BasePrice(t, c) >= 0.0
    ensures BasePrice(t, c) > 0.0 ==> Price(m, Some(t), c) / BasePrice(t, c) - 1.0 >= 0.0
  {
    AdjustmentAtLeastOne(m, c);
    BasePriceNonNegative(t, c);
    PriceFactors(m, t, c);
    Markup(BasePrice(t, c), Adjustment(m, c));
  }

  /**
   * The height surcharge is a single step at 48 inches: any height up to 48
   * prices like 48, and any height above it prices at exactly 1.1 times that.
   */
  lemma HeightStep(m: Materials, t: Template, c: Config, h: Decimal)
    ensures h.Value() <= 48.0 ==>
      Price(m, Some(t), c.(overallHeight := h)) == Price(m, Some(t), c.(overallHeight := Whole(48)))
    ensures h.Value() > 48.0 ==>
      Price(m, Some(t), c.(overallHeight := h)) == 1.1 * Price(m, Some(t), c.(overallHeight := Whole(48)))
  {
  }

  lemma SegmentLinear(k: real, sm: real, h: real)
    ensures k * (sm + 0.15) * h == k * sm * h + 0.15 * (k * 1.0 * h)
  {
    calc {
      k * (sm + 0.15) * h;
      (k * sm + k * 0.15) * h;
      k * sm * h + k * 0.15 * h;
    }
  }

  /**
   * Each extra segment adds exactly 15% of the one-segment price: the surcharge
   * grows linearly, not geometrically.
   */
  lemma SegmentStep(m: Materials, t: Template, c: Config, s: Decimal, next: Decimal)
    requires next.Value() == s.Value() + 1.0
    ensures Price(m, Some(t), c.(numberOfSegments := next))
         == Price(m, Some(t), c.(numberOfSegments := s)) + 0.15 * Price(m, Some(t), c.(numberOfSegments := Whole(1)))
  {
    var k := BasePrice(t, c) * Multiplier(m.wood, c.woodType) * Multiplier(m.fabric, c.fabricType)
             * Multiplier(m.finish, c.woodFinish);
    var h := HeightMultiplier(c.overallHeight.Value());
    SegmentLinear(k, SegmentMultiplier(s.Value()), h);
  }

  /**
   * A wood value missing from the wood table prices exactly like any listed
   * wood whose multiplier is 1.0 (in the configurator's table, maple).
   */
  lemma UnknownMaterialFallback(m: Materials, t: Template, c: Config, wood: string, plain: string)
    requires forall i :: 0 <= i < |m.wood| ==> m.wood[i].value != wood
    requires Multiplier(m.wood, plain) == 1.0
    ensures Price(m, Some(t), c.(woodType := wood)) == Price(m, Some(t), c.(woodType := plain))
  {
    MultiplierSpec(m.wood, wood);
  }

  /** The starting configuration on the first template costs 145 x 4 feet = 580. */
  lemma DefaultPrice()
    ensures Price(Standard, Some(Templates[0]), Default) == 580.0
    ensures Round(Price(Standard, Some(Templates[0]), Default)) == 580
  {
    assert BasePrice(Templates[0], Default) == 580.0;
    assert Price(Standard, Some(Templates[0]), Default) == Product(580.0, 1.0, 1.0, 1.0, 1.0, 1.0);
  }

  /**
   * Three segments, walnut, grade-5 fabric and a 50-inch back on the first
   * template: 580 x 1.4 x 1.5 x 1.3 x 1.1 = 1741.74, written to the file as 1742.
   */
  lemma CompoundingScenario()
    ensures var c := Default.(numberOfSegments := Whole(3), woodType := "walnut",
                              fabricType := "fabric-grade-5", overallHeight := Whole(50));
      && Price(Standard, Some(Templates[0]), c) == 1741.74
      && Round(Price(Standard, Some(Templates[0]), c)) == 1742
  {
    var c := Default.(numberOfSegments := Whole(3), woodType := "walnut",
                      fabricType := "fabric-grade-5", overallHeight := Whole(50));
    WoodLookups();
    FabricLookup();
    assert BasePrice(Templates[0], c) == 580.0;
    assert SegmentMultiplier(c.numberOfSegments.Value()) == 1.3;
    assert HeightMultiplier(c.overallHeight.Value()) == 1.1;
    assert Multiplier(FinishOptions, "natural") == 1.0;
    assert Price(Standard, Some(Templates[0]), c) == Product(580.0, 1.4, 1.5, 1.0, 1.3, 1.1);
    assert (1741.74 + 0.5).Floor == 1742;
  }

  lemma FabricLookup()
    ensures Multiplier(FabricOptions, "fabric-grade-5") == 1.5
  {
    assert FabricOptions[2].value == "fabric-grade-5";
  }

  /** The price depends on the numbers' values only, not on how they are written. */
  lemma PriceCanonical(m: Materials, template: Option<Template>, c: Config)
    ensures Price(m, template, Canonical(c)) == Price(m, template, c)
  {
  }
}
