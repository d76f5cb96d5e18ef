/**
 * The booth configuration under edit and the customer it is ordered for.
 * Lengths are inches, the back angle degrees; every number is the decimal
 * numeral the user typed.
 */
module Booth {
  import opened Numerals

  datatype Config = Config(
    overallLength: Decimal,
    overallHeight: Decimal,
    overallDepth: Decimal,
    seatHeight: Decimal,
    seatDepth: Decimal,
    backAngle: Decimal,
    toeKickHeight: Decimal,
    toeKickDepth: Decimal,
    numberOfSegments: Decimal,
    cushionThickness: Decimal,
    woodType: string,
    fabricType: string,
    woodFinish: string)

  datatype Customer = Customer(name: string, email: string)

  function Whole(n: int): Decimal {
    Decimal(n, 0)
  }

  /** The configuration a new session starts from. */
  const Default: Config := Config(
    Whole(48), Whole(42), Whole(24), Whole(18), Whole(18), Whole(15),
    Whole(4), Whole(3), Whole(1), Whole(3),
    "maple", "commercial-vinyl", "natural")

  /** The placeholder customer a new session starts with. */
  const DemoCustomer: Customer := Customer("Demo User", "demo@example.com")

  /** The same configuration with every number in canonical form (no trailing fraction zeros). */
  function Canonical(c: Config): (r: Config)
    ensures r.overallLength.Value() == c.overallLength.Value()
    ensures r.overallHeight.Value() == c.overallHeight.Value()
    ensures r.overallDepth.Value() == c.overallDepth.Value()
    ensures r.seatHeight.Value() == c.seatHeight.Value()
    ensures r.seatDepth.Value() == c.seatDepth.Value()
    ensures r.backAngle.Value() == c.backAngle.Value()
    ensures r.toeKickHeight.Value() == c.toeKickHeight.Value()
    ensures r.toeKickDepth.Value() == c.toeKickDepth.Value()
    ensures r.numberOfSegments.Value() == c.numberOfSegments.Value()
    ensures r.cushionThickness.Value() == c.cushionThickness.Value()
    ensures r.woodType == c.woodType && r.fabricType == c.fabricType && r.woodFinish == c.woodFinish
  {
    Config(
      Normalize(c.overallLength), Normalize(c.overallHeight), Normalize(c.overallDepth),
      Normalize(c.seatHeight), Normalize(c.seatDepth), Normalize(c.backAngle),
      Normalize(c.toeKickHeight), Normalize(c.toeKickDepth), Normalize(c.numberOfSegments),
      Normalize(c.cushionThickness), c.woodType, c.fabricType, c.woodFinish)
  }
}
