/**
 * Dimension validation: three independent inclusive range checks, all
 * evaluated, reported as an ordered list of messages (empty means valid).
 */
module Validator {
  import opened Numerals
  import opened Booth

  const LengthMessage := "Overall length must be between 24\" and 144\""
  const SeatHeightMessage := "Seat height should be between 16\" and 20\" for ergonomics"
  const SeatDepthMessage := "Seat depth should be between 16\" and 22\""

  /** Position of a message in the fixed reporting order length, seat height, seat depth. */
  function Rank(message: string): nat {
    if message == LengthMessage then 0
    else if message == SeatHeightMessage then 1
    else 2
  }

  predicate LengthOutOfRange(c: Config) {
    c.overallLength.Value() < 24.0 || c.overallLength.Value() > 144.0
  }

  predicate SeatHeightOutOfRange(c: Config) {
    c.seatHeight.Value() < 16.0 || c.seatHeight.Value() > 20.0
  }

  predicate SeatDepthOutOfRange(c: Config) {
    c.seatDepth.Value() < 16.0 || c.seatDepth.Value() > 22.0
  }

  /** The messages for the violated rules, in rule order; each rule is checked regardless of the others. */
  function Validate(c: Config): (errors: seq<string>)
    ensures |errors| <= 3
    ensures LengthMessage in errors <==> LengthOutOfRange(c)
    ensures SeatHeightMessage in errors <==> SeatHeightOutOfRange(c)
    ensures SeatDepthMessage in errors <==> SeatDepthOutOfRange(c)
    ensures forall i :: 0 <= i < |errors| ==>
      errors[i] == LengthMessage || errors[i] == SeatHeightMessage || errors[i] == SeatDepthMessage
    ensures forall i, j :: 0 <= i < j < |errors| ==> Rank(errors[i]) < Rank(errors[j])
  {
    var e1 := if LengthOutOfRange(c) then [LengthMessage] else [];
    var e2 := if SeatHeightOutOfRange(c) then [SeatHeightMessage] else [];
    var e3 := if SeatDepthOutOfRange(c) then [SeatDepthMessage] else [];
    e1 + e2 + e3
  }

  /** A configuration is valid exactly when all three dimensions lie in their inclusive ranges. */
  lemma ValidIffInRange(c: Config)
    ensures Validate(c) == [] <==>
      && 24.0 <= c.overallLength.Value() <= 144.0
      && 16.0 <= c.seatHeight.Value() <= 20.0
      && 16.0 <= c.seatDepth.Value() <= 22.0
  {
    if Validate(c) != [] {
      assert Validate(c)[0] in Validate(c);
    }
  }

  /** The range ends are themselves valid; just beyond them is not. */
  lemma LengthBoundaries(c: Config)
    ensures LengthMessage !in Validate(c.(overallLength := Whole(24)))
    ensures LengthMessage !in Validate(c.(overallLength := Whole(144)))
    ensures LengthMessage in Validate(c.(overallLength := Decimal(23999, 3)))
    ensures LengthMessage in Validate(c.(overallLength := Decimal(144001, 3)))
  {
    assert Shift(23999.0, 2) == 239.99;
    assert Shift(144001.0, 2) == 1440.01;
  }

  lemma SeatBoundaries(c: Config)
    ensures SeatHeightMessage !in Validate(c.(seatHeight := Whole(16)))
    ensures SeatHeightMessage !in Validate(c.(seatHeight := Whole(20)))
    ensures SeatDepthMessage !in Validate(c.(seatDepth := Whole(16)))
    ensures SeatDepthMessage !in Validate(c.(seatDepth := Whole(22)))
  {
  }

  /** The starting configuration passes validation. */
  lemma DefaultIsValid()
    ensures Validate(Default) == []
  {
  }

  /** Validation looks only at the numbers' values, not at how they are written. */
  lemma ValidateCanonical(c: Config)
    ensures Validate(Canonical(c)) == Validate(c)
  {
  }
}
