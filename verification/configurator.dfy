/**
 * The configurator as a whole: what validation lets through to pricing.
 * Validation checks length, seat height and seat depth only, so every other
 * number reaches the price unchecked.
 */
module Configurator {
  import opened Wrappers
  import opened Numerals
  import opened Catalog
  import opened Booth
  import opened Validator
  import opened Pricing

  /**
   * The number of segments is never validated, so a segment count of -6.5
   * passes validation with the default dimensions, prices below zero, and
   * lands on a tie where `Math.round` and rounding half away from zero differ.
   */
  lemma UnvalidatedNegativePrice()
    ensures var c := Default.(numberOfSegments := Decimal(-65, 1));
      && Validate(c) == []
      && Price(Standard, Some(Templates[0]), c) == -72.5
      && Round(Price(Standard, Some(Templates[0]), c)) == -72
      && RoundHalfAwayFromZero(Price(Standard, Some(Templates[0]), c)) == -73
  {
    var c := Default.(numberOfSegments := Decimal(-65, 1));
    DefaultIsValid();
    assert Shift(-65.0, 0) == -65.0;
    assert c.numberOfSegments.Value() == -6.5;
    assert BasePrice(Templates[0], c) == 580.0;
    assert SegmentMultiplier(-6.5) == -0.125;
    assert Price(Standard, Some(Templates[0]), c) == Product(580.0, 1.0, 1.0, 1.0, -0.125, 1.0);
    assert (-72.5 + 0.5).Floor == -72;
    assert (72.5 + 0.5).Floor == 73;
  }

  /**
   * A segment count below 1 also passes validation. It prices below the same
   * configuration with one segment, but the material multipliers can still
   * lift it above the base price.
   */
  lemma ZeroSegmentsScenario()
    ensures var plain := Default.(numberOfSegments := Whole(0));
      && Validate(plain) == []
      && Price(Standard, Some(Templates[0]), plain) == 493.0
      && Price(Standard, Some(Templates[0]), plain) < Price(Standard, Some(Templates[0]), Default)
    ensures var walnut := Default.(numberOfSegments := Whole(0), woodType := "walnut");
      && Validate(walnut) == []
      && Price(Standard, Some(Templates[0]), walnut) == 690.2
      && Price(Standard, Some(Templates[0]), walnut) > BasePrice(Templates[0], walnut)
  {
  }
}
