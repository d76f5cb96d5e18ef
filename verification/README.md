# Booth configurator core in Dafny

This project models the business logic of the custom-booth configurator in
`pages/index.js`, taken out of its React component as pure functions over an
explicit configuration record. It covers four parts:

- **Catalog** (`catalog.dfy`). This holds the three booth templates, each priced per linear foot, and
  the wood, fabric and finish tables that map a selectable value to a price
  multiplier. A value is looked up the way `find(...)?.multiplier || 1.0` does
  it: the first match wins, and a missing value or a zero multiplier falls back
  to 1.0.
- **Validator** (`validator.dfy`). This is `validateDimensions`: three independent inclusive
  range checks on overall length, seat height and seat depth. Each one reports
  its own message, and the messages come in that fixed order.
- **Pricing** (`pricing.dfy`). This is `calculatePrice`. The price is 0 when no template is
  selected. Otherwise it is base price × length/12, times the three material
  multipliers, the linear segment surcharge `1 + (segments − 1) × 0.15` and
  the height step (1.1 above 48 inches), multiplied in that order. Prices are
  exact `real`s.
- **Parameter file** (`parameter_file.dfy`). This is `generateParameterFile`: a title comment,
  a `# Generated:` comment with the time text, a blank line, then twenty
  `key=value` lines in a fixed key order. The model also contains a reader for
  that format (split into lines, split at the first `=`, look up by key), so
  that "the file carries the configuration" can be stated as a round trip.

Supporting modules:

- `wrappers.dfy` has `Option`, for failures propagated with `:-`.
- `text.dfy` finds the first occurrence of a character.
- `configurator.dfy` relates validation to pricing: which configurations validation lets through, and what they cost.
- `numerals.dfy` handles number text. It covers digits and integers,
  `Math.round`, exact decimal numerals `Decimal(units, places)` as printed into
  template strings, and `toFixed(2)`.

Configuration numbers are exact decimal numerals, because the configurator
fills them from typed decimal text and prints them back into the file. A
numeral reads back in canonical form: trailing fraction zeros are dropped, as
JavaScript's number-to-text conversion drops them, so the value is unchanged.

Behaviour of the code worth knowing:

- The wood table's key for red oak is `'oak'` (labelled "Red Oak"). A
  configuration carrying `'red-oak'` prices wood at 1.0
  (`Catalog.WoodLookups`).
- `estimated_price` uses `Math.round`, which rounds ties up. Rounding half
  away from zero would differ on negative ties (`Numerals.RoundNegativeTie`).
  The two agree on every non-negative price (`Numerals.RoundNonNegative`).
- `validateDimensions` checks length, seat height and seat depth only. The
  number of segments is not checked, and its input field has no minimum. A
  segment count of −6 or less therefore passes validation and makes the
  price negative. For example, −6.5 segments on the first template price at
  −72.5, which `Math.round` writes as −72 and rounding half away from zero
  would write as −73 (`Configurator.UnvalidatedNegativePrice`). A count
  below 1 also passes, and prices below the same configuration with one
  segment. With the default materials and height that is below the base
  price; with walnut, zero segments still price above it
  (`Configurator.ZeroSegmentsScenario`).

## Model

| member | source | states |
|---|---|---|
| Catalog.FindOption | pages/index.js:78-80 | `find` returns nothing exactly when no option has the value; otherwise it returns the first option whose value matches |
| Catalog.MultiplierSpec | pages/index.js:78-80 | the material multiplier is 1.0 when the value is missing from the table; otherwise it is the first match's multiplier, or 1.0 when that multiplier is zero (the `\|\| 1.0` fallback) |
| Catalog.MultiplierAtLeastOne | pages/index.js:78-80 | when every option in a table is at least 1.0, the looked-up multiplier, fallback included, is at least 1.0 |
| Catalog.MultiplierOfListed | pages/index.js:51-69 | in a table with distinct values, a listed value with a non-zero multiplier is priced at exactly that multiplier |
| Catalog.CatalogBounds | pages/index.js:27-69 | every catalog multiplier is at least 1.0, and every template's base price is positive |
| Catalog.CatalogKeysDistinct | pages/index.js:27-69 | option values are unique within each material table, and template ids are unique |
| Catalog.WoodLookups | pages/index.js:52-57 | maple costs 1.0, oak 1.1 and walnut 1.4; the value `red-oak` is not in the table and falls back to 1.0 |
| Validator.Validate | pages/index.js:144-156 | returns at most three messages; each rule's message appears if and only if its dimension is outside its inclusive range; only those three messages appear, in the order length, seat height, seat depth |
| Validator.ValidIffInRange | pages/index.js:144-156 | the message list is empty if and only if length is in [24, 144], seat height in [16, 20] and seat depth in [16, 22] |
| Validator.LengthBoundaries | pages/index.js:146-148 | lengths 24 and 144 are accepted; 23.999 and 144.001 are rejected |
| Validator.SeatBoundaries | pages/index.js:149-154 | seat heights 16 and 20 and seat depths 16 and 22 are accepted |
| Validator.DefaultIsValid | pages/index.js:8-25 | the starting configuration passes validation with no messages |
| Validator.ValidateCanonical | pages/index.js:144-156 | validation depends only on the numbers' values, not on how they are written |
| Pricing.Price | pages/index.js:71-72 | with no template selected, the price is 0 whatever the configuration |
| Pricing.PriceFactors | pages/index.js:74-86 | with a template, the price is the base price (per-foot price × length/12) times the product of the three material multipliers, the segment multiplier and the height multiplier |
| Pricing.AdjustmentAtLeastOne | pages/index.js:78-86 | with at least one segment and tables that offer no discount, the combined multiplier is at least 1 |
| Pricing.PriceAtLeastBase | pages/index.js:74-86 | with at least one segment, a non-negative length and tables without discounts, the price is at least the base price, which is non-negative; the "material adjustments" percentage price/base − 1 is never negative |
| Pricing.HeightStep | pages/index.js:84 | any height up to 48 prices the same as 48; any height above 48 prices at exactly 1.1 times that |
| Pricing.SegmentStep | pages/index.js:83 | each extra segment adds exactly 15% of the one-segment price (linear, not compounding) |
| Pricing.UnknownMaterialFallback | pages/index.js:78 | a wood value missing from the table prices exactly like a listed wood whose multiplier is 1.0 |
| Pricing.DefaultPrice | pages/index.js:71-87 | the default configuration on the 145-per-foot template costs exactly 580, written as 580 |
| Pricing.FabricLookup | pages/index.js:58-63 | fabric grade 5 costs 1.5 |
| Pricing.CompoundingScenario | pages/index.js:71-87 | three segments, walnut, grade-5 fabric and a 50-inch back on the first template cost exactly 1741.74, written as 1742 |
| Pricing.PriceCanonical | pages/index.js:71-87 | the price depends only on the numbers' values, not on how they are written |
| Configurator.UnvalidatedNegativePrice | pages/index.js:83 | the segment count is not validated: the default configuration with −6.5 segments passes validation, prices at −72.5 on the first template, and there `Math.round` gives −72 where rounding half away from zero gives −73 |
| Configurator.ZeroSegmentsScenario | pages/index.js:83 | zero segments pass validation; with the default materials the first template then costs 493, below the one-segment 580, but with walnut it costs 690.2, above the base price of 580 |
| Numerals.Round | pages/index.js:118 | `Math.round(x)` is an integer within half a unit of x; a tie goes up |
| Numerals.RoundNonNegative | pages/index.js:118 | for x ≥ 0, `Math.round` equals rounding half away from zero and is non-negative |
| Numerals.RoundNegativeTie | pages/index.js:118 | `Math.round(-2.5)` is −2, while rounding half away from zero gives −3 |
| Numerals.IntRoundTrip | pages/index.js:118 | the text of an integer price reads back as that integer |
| Numerals.DecimalRoundTrip | pages/index.js:101-110 | a number printed into the file reads back as its canonical numeral, so with the same value |
| Numerals.Hundredths | pages/index.js:119 | `toFixed(2)` picks a whole number of hundredths within half a hundredth of the magnitude |
| Numerals.ToFixed2RoundTrip | pages/index.js:119 | the `toFixed(2)` text reads back as a numeral with exactly two places, within half a hundredth of x |
| ParameterFile.Entries | pages/index.js:90-120 | the file has exactly twenty fields, keyed `template_id` … `linear_feet` in insertion order |
| ParameterFile.KeysDistinct | pages/index.js:90-120 | no key is used twice |
| ParameterFile.Serialize | pages/index.js:122-130 | the file starts with the title line, the `# Generated:` line and a blank line, and ends with a newline |
| ParameterFile.BodyRoundTrip | pages/index.js:126-128 | `key=value` lines written from entries with no `=` or newline in a key and no newline in a value parse back to exactly those entries |
| ParameterFile.FileRoundTrip | pages/index.js:122-130 | a file written from such entries and a one-line time text parses back to that time text and exactly those entries |
| ParameterFile.EntriesWellFormed | pages/index.js:90-120 | when no free-text input spans lines, every written field survives being written as a line |
| ParameterFile.LinearFeetRoundTrip | pages/index.js:119 | `linear_feet` reads back with two places, within half a hundredth of length/12 |
| ParameterFile.DecodeConfigRoundTrip | pages/index.js:101-115 | reading the configuration fields back by key gives every number with the same value (canonical form) and every material string unchanged |
| ParameterFile.DecodeRoundTrip | pages/index.js:90-120 | reading the fields back by key recovers the template id and name, the customer and the date unchanged, the configuration, the price as `Math.round`, and the length in feet to within half a hundredth |
| ParameterFile.SerializeRoundTrip | pages/index.js:89-131 | the whole file parses back to the time text and exactly the twenty fields written, priced from the catalog |
| ParameterFile.SerializeDecode | pages/index.js:89-131 | end to end: a reader of the written file recovers the template, customer, date and configuration, and the estimate as `Math.round` of the catalog price |
| ParameterFile.DemoFile | pages/index.js:7 | the demo customer's file for the default booth on the first template reads back with that customer, that template id and an estimate of 580 |

## Left out

- Rendering, React state, step navigation, the progress indicator and the submit `alert`: these are user interface, not logic.
- `downloadParameterFile`: Blob, object URLs and anchor clicks are browser I/O.
- The clock. The order date (`toISOString` date part) and the `# Generated:` text (`toLocaleString`) are string parameters.
- IEEE-754 doubles. Prices are exact rationals, so the model does not reproduce floating-point rounding in the product or in `toFixed(2)`, or values such as NaN.
- Numerals.DecimalRoundTrip: JavaScript's number-to-text conversion is modelled as the shortest exact decimal numeral. Exponent notation, which JavaScript uses for very large or very small magnitudes, is not modelled.
- Numerals.Hundredths: ties are decided on exact values. JavaScript decides them on the binary double, which can fall on either side of the tie.
- ParameterFile.Serialize: takes a selected template. The source throws a TypeError when no template is selected; that path is not modelled.
- Pricing.Price: the material tables are a parameter (`Catalog.Standard` is the configurator's own tables), so that the properties hold for any tables with the stated bounds.
- The template `image` field, the option labels' use on screen, and the display roundings and percentages on the review page: presentation only.
- Text a number field cannot parse. The fields are number inputs, so the browser hands such text over as the empty string, and `Number("")` makes the field 0. The model takes numbers as numerals and covers a field set to 0, but not the conversion from text.
