/**
 * The parameter file handed to fabrication: a title comment, a comment with the
 * generation timestamp, a blank line, then one `key=value` line per field in a
 * fixed order. Values are written as-is, without quoting or escaping.
 *
 * The reader half (`ParseFile`, `Lookup`, `Decode`) is a reader for this
 * format; the round-trip lemmas show it recovers what was written.
 */
module ParameterFile {
  import opened Wrappers
  import opened Numerals
  import opened Catalog
  import opened Booth
  import opened Pricing
  import Text

  /** A `key=value` line, as (key, value). */
  type Entry = (string, string)

  const Title := "# Custom Booth Configuration\n"
  const GeneratedPrefix := "# Generated: "

  /** The keys, in the order their lines appear. */
  const Keys: seq<string> := [
    "template_id", "template_name", "customer_name", "customer_email", "order_date",
    "overall_length", "overall_height", "overall_depth", "seat_height", "seat_depth",
    "back_angle", "toe_kick_height", "toe_kick_depth", "number_of_segments", "cushion_thickness",
    "wood_type", "fabric_type", "wood_finish", "estimated_price", "linear_feet"
  ]

  /** The lengths in inches as the file states them in feet: `(overallLength / 12).toFixed(2)`. */
  function LinearFeetText(c: Config): string {
    ToFixed2(c.overallLength.Value() / 12.0)
  }

  /** Pairs each key with the value at the same position. */
  function Zip(keys: seq<string>, values: seq<string>): (es: seq<Entry>)
    requires |keys| == |values|
    ensures |es| == |keys|
    ensures forall i :: 0 <= i < |es| ==> es[i] == (keys[i], values[i])
  {
    if keys == [] then [] else [(keys[0], values[0])] + Zip(keys[1..], values[1..])
  }

  /** The configuration's ten numeric fields, in the order the file lists them. */
  function Numbers(c: Config): (ds: seq<Decimal>)
    ensures |ds| == 10
  {
    [ c.overallLength, c.overallHeight, c.overallDepth, c.seatHeight, c.seatDepth,
      c.backAngle, c.toeKickHeight, c.toeKickDepth, c.numberOfSegments, c.cushionThickness ]
  }

  /** Each number as JavaScript writes it into a template string. */
  function FormatAll(ds: seq<Decimal>): (ss: seq<string>)
    ensures |ss| == |ds|
    ensures forall k :: 0 <= k < |ds| ==> ss[k] == FormatDecimal(ds[k])
  {
    if ds == [] then [] else [FormatDecimal(ds[0])] + FormatAll(ds[1..])
  }

  /**
   * The values of the file's fields, in key order. `price` is the estimate
   * (written rounded with `Math.round`); `orderDate` is the ISO date part of
   * the clock.
   */
  function Values(t: Template, customer: Customer, c: Config, price: real, orderDate: string): (vs: seq<string>)
    ensures |vs| == |Keys|
  {
    [t.id, t.name, customer.name, customer.email, orderDate]
    + FormatAll(Numbers(c))
    + [c.woodType, c.fabricType, c.woodFinish, IntToString(Round(price)), LinearFeetText(c)]
  }

  /** The fields of the file, in order. */
  function Entries(t: Template, customer: Customer, c: Config, price: real, orderDate: string): (es: seq<Entry>)
    ensures |es| == |Keys|
    ensures forall i :: 0 <= i < |es| ==> es[i].0 == Keys[i]
  {
    Zip(Keys, Values(t, customer, c, price, orderDate))
  }

  function Line(e: Entry): string {
    e.0 + "=" + e.1 + "\n"
  }

  function Body(es: seq<Entry>): (s: string)
    ensures es != [] ==> |s| > 0 && s[|s| - 1] == '\n'
  {
    if es == [] then "" else Line(es[0]) + Body(es[1..])
  }

  function Header(generated: string): string {
    Title + GeneratedPrefix + generated + "\n\n"
  }

  function Render(generated: string, es: seq<Entry>): string {
    Header(generated) + Body(es)
  }

  /**
   * The parameter file for a selected template, with the price computed from
   * the configurator's catalog. `generated` is the locale-rendered time text.
   */
  function Serialize(t: Template, customer: Customer, c: Config, orderDate: string, generated: string): (text: string)
    ensures |Header(generated)| < |text|
    ensures text[..|Header(generated)|] == Header(generated)
    ensures text[|text| - 1] == '\n'
  {
    Render(generated, Entries(t, customer, c, Price(Standard, Some(t), c), orderDate))
  }

  // ---------------------------------------------------------------- reading the file back

  datatype ParsedFile = ParsedFile(generated: string, entries: seq<Entry>)

  /** A line split at its first '='. */
  function ParseLine(line: string): Option<Entry> {
    match Text.IndexOf(line, '=')
    case None => None
    case Some(j) => Some((line[..j], line[j + 1..]))
  }

  /** Newline-terminated `key=value` lines. */
  function ParseBody(s: string): Option<seq<Entry>>
    decreases |s|
  {
    if s == [] then Some([])
    else
      match Text.IndexOf(s, '\n')
      case None => None
      case Some(i) =>
        var e :- ParseLine(s[..i]);
        var rest :- ParseBody(s[i + 1..]);
        Some([e] + rest)
  }

  /** The title line, the generated line, a blank line, then the body. */
  function ParseFile(text: string): Option<ParsedFile> {
    var head := Title + GeneratedPrefix;
    if |text| < |head| || text[..|head|] != head then None
    else
      var rest := text[|head|..];
      match Text.IndexOf(rest, '\n')
      case None => None
      case Some(i) =>
        var after := rest[i + 1..];
        if |after| == 0 || after[0] != '\n' then None
        else
          var es :- ParseBody(after[1..]);
          Some(ParsedFile(rest[..i], es))
  }

  /** Entries that survive being written as lines: no '=' or newline in a key, no newline in a value. */
  predicate WellFormed(es: seq<Entry>) {
    forall i :: 0 <= i < |es| ==> '=' !in es[i].0 && '\n' !in es[i].0 && '\n' !in es[i].1
  }

  /** A line splits back at its separator when the key holds no '='. */
  lemma ParseLineRoundTrip(e: Entry)
    requires '=' !in e.0
    ensures ParseLine(e.0 + "=" + e.1) == Some(e)
  {
    var line := e.0 + "=" + e.1;
    Text.IndexOfAfterPrefix(e.0, '=', e.1);
    assert line == e.0 + ['='] + e.1;
    assert line[..|e.0|] == e.0;
    assert line[|e.0| + 1..] == e.1;
  }

  /** A newline-free line that parses, followed by a body that parses, parses as the two together. */
  lemma ParseBodyStep(line: string, rest: string, e: Entry, tail: seq<Entry>)
    requires '\n' !in line
    requires ParseLine(line) == Some(e) && ParseBody(rest) == Some(tail)
    ensures ParseBody(line + ['\n'] + rest) == Some([e] + tail)
  {
    var s := line + ['\n'] + rest;
    Text.IndexOfAfterPrefix(line, '\n', rest);
    assert s[..|line|] == line;
    assert s[|line| + 1..] == rest;
  }

  lemma WellFormedTail(es: seq<Entry>)
    requires es != [] && WellFormed(es)
    ensures WellFormed(es[1..])
  {
    forall i | 0 <= i < |es[1..]| ensures '=' !in es[1..][i].0 && '\n' !in es[1..][i].0 && '\n' !in es[1..][i].1 {
      assert es[1..][i] == es[i + 1];
    }
  }

  lemma {:induction false} BodyRoundTrip(es: seq<Entry>)
    requires WellFormed(es)
    ensures ParseBody(Body(es)) == Some(es)
  {
    if es != [] {
      var line := es[0].0 + "=" + es[0].1;
      assert Body(es) == line + ['\n'] + Body(es[1..]);
      ParseLineRoundTrip(es[0]);
      WellFormedTail(es);
      BodyRoundTrip(es[1..]);
      ParseBodyStep(line, Body(es[1..]), es[0], es[1..]);
      assert [es[0]] + es[1..] == es;
    }
  }

  /** A file written from well-formed entries and a one-line timestamp reads back as exactly those. */
  lemma FileRoundTrip(generated: string, es: seq<Entry>)
    requires '\n' !in generated
    requires WellFormed(es)
    ensures ParseFile(Render(generated, es)) == Some(ParsedFile(generated, es))
  {
    var head := Title + GeneratedPrefix;
    var body := Body(es);
    var text := Render(generated, es);
    assert text == head + (generated + ['\n'] + (['\n'] + body));
    assert text[..|head|] == head;
    var rest := text[|head|..];
    assert rest == generated + ['\n'] + (['\n'] + body);
    Text.IndexOfAfterPrefix(generated, '\n', ['\n'] + body);
    assert rest[..|generated|] == generated;
    var after := rest[|generated| + 1..];
    assert after == ['\n'] + body;
    assert after[1..] == body;
    BodyRoundTrip(es);
  }

  // ---------------------------------------------------------------- decoding by key

  /** The value of the first line with this key. */
  function Lookup(es: seq<Entry>, key: string): Option<string> {
    if es == [] then None
    else if es[0].0 == key then Some(es[0].1)
    else Lookup(es[1..], key)
  }

  lemma {:induction false} LookupFirst(es: seq<Entry>, i: nat)
    requires i < |es|
    requires forall j :: 0 <= j < i ==> es[j].0 != es[i].0
    ensures Lookup(es, es[i].0) == Some(es[i].1)
  {
    if i > 0 {
      assert es[0].0 != es[i].0;
      assert es[1..][i - 1] == es[i];
      LookupFirst(es[1..], i - 1);
    }
  }

  /** No key is used twice. */
  lemma KeysDistinct()
    ensures forall i, j :: 0 <= i < j < |Keys| ==> Keys[i] != Keys[j]
  {
  }

  /** What a reader recovers from the file's fields. */
  datatype Record = Record(
    templateId: string,
    templateName: string,
    customer: Customer,
    orderDate: string,
    config: Config,
    estimatedPrice: int,
    linearFeet: Decimal)

  function NumberField(es: seq<Entry>, key: string): Option<Decimal> {
    var text :- Lookup(es, key);
    ParseDecimal(text)
  }

  /** The keys of the ten numeric configuration fields. */
  const NumberKeys: seq<string> := Keys[5..15]

  /** The numbers under these keys, in order; None when one is missing or does not parse. */
  function ReadNumbers(es: seq<Entry>, keys: seq<string>): (r: Option<seq<Decimal>>)
    ensures r.Some? ==> |r.value| == |keys|
  {
    if keys == [] then Some([])
    else
      var d :- NumberField(es, keys[0]);
      var rest :- ReadNumbers(es, keys[1..]);
      Some([d] + rest)
  }

  /** The configuration fields, read by key. */
  function DecodeConfig(es: seq<Entry>): Option<Config> {
    var ns :- ReadNumbers(es, NumberKeys);
    var woodType :- Lookup(es, "wood_type");
    var fabricType :- Lookup(es, "fabric_type");
    var woodFinish :- Lookup(es, "wood_finish");
    Some(Config(ns[0], ns[1], ns[2], ns[3], ns[4], ns[5], ns[6], ns[7], ns[8], ns[9],
                woodType, fabricType, woodFinish))
  }

  /** Read every field by key; None when a key is missing or a number does not parse. */
  function Decode(es: seq<Entry>): Option<Record> {
    var templateId :- Lookup(es, "template_id");
    var templateName :- Lookup(es, "template_name");
    var customerName :- Lookup(es, "customer_name");
    var customerEmail :- Lookup(es, "customer_email");
    var orderDate :- Lookup(es, "order_date");
    var config :- DecodeConfig(es);
    var priceText :- Lookup(es, "estimated_price");
    var estimatedPrice :- ParseInt(priceText);
    var linearFeet :- NumberField(es, "linear_feet");
    Some(Record(templateId, templateName, Customer(customerName, customerEmail), orderDate,
                config, estimatedPrice, linearFeet))
  }

  /** In a list keyed like the file, looking a key up finds that key's own line. */
  lemma LookupKey(es: seq<Entry>, i: nat)
    requires |es| == |Keys| && forall j :: 0 <= j < |es| ==> es[j].0 == Keys[j]
    requires i < |Keys|
    ensures Lookup(es, Keys[i]) == Some(es[i].1)
  {
    KeysDistinct();
    LookupFirst(es, i);
  }

  lemma NumberFieldKey(es: seq<Entry>, i: nat, d: Decimal)
    requires |es| == |Keys| && forall j :: 0 <= j < |es| ==> es[j].0 == Keys[j]
    requires i < |Keys| && es[i].1 == FormatDecimal(d)
    ensures NumberField(es, Keys[i]) == Some(Normalize(d))
  {
    LookupKey(es, i);
    DecimalRoundTrip(d);
  }

  /** The configuration's numbers as the file writes them, at positions 5 to 14. */
  predicate HoldsNumbers(es: seq<Entry>, c: Config)
    requires |es| == |Keys|
  {
    forall k :: 0 <= k < 10 ==> es[5 + k].1 == FormatDecimal(Numbers(c)[k])
  }

  /** The written entries carry the configuration's numbers in the expected places. */
  lemma EntriesHoldNumbers(t: Template, customer: Customer, c: Config, price: real, orderDate: string)
    ensures HoldsNumbers(Entries(t, customer, c, price, orderDate), c)
  {
    var vs := Values(t, customer, c, price, orderDate);
    forall k | 0 <= k < 10 ensures vs[5 + k] == FormatDecimal(Numbers(c)[k]) {
      assert vs[5 + k] == FormatAll(Numbers(c))[k];
    }
  }

  /** Each numeric key reads back its number in canonical form. */
  lemma NumberFields(es: seq<Entry>, c: Config)
    requires |es| == |Keys| && forall j :: 0 <= j < |es| ==> es[j].0 == Keys[j]
    requires HoldsNumbers(es, c)
    ensures forall k :: 0 <= k < 10 ==> NumberField(es, NumberKeys[k]) == Some(Normalize(Numbers(c)[k]))
  {
    forall k | 0 <= k < 10 ensures NumberField(es, NumberKeys[k]) == Some(Normalize(Numbers(c)[k])) {
      NumberFieldKey(es, 5 + k, Numbers(c)[k]);
    }
  }

  /** Each number in canonical form. */
  function NormalizeAll(ds: seq<Decimal>): (ns: seq<Decimal>)
    ensures |ns| == |ds|
    ensures forall k :: 0 <= k < |ds| ==> ns[k] == Normalize(ds[k])
  {
    if ds == [] then [] else [Normalize(ds[0])] + NormalizeAll(ds[1..])
  }

  lemma {:induction false} ReadNumbersAll(es: seq<Entry>, keys: seq<string>, ds: seq<Decimal>)
    requires |keys| == |ds|
    requires forall k :: 0 <= k < |keys| ==> NumberField(es, keys[k]) == Some(Normalize(ds[k]))
    ensures ReadNumbers(es, keys) == Some(NormalizeAll(ds))
  {
    if keys != [] {
      assert NumberField(es, keys[0]) == Some(Normalize(ds[0]));
      forall k | 0 <= k < |keys[1..]| ensures NumberField(es, keys[1..][k]) == Some(Normalize(ds[1..][k])) {
        assert NumberField(es, keys[k + 1]) == Some(Normalize(ds[k + 1]));
      }
      ReadNumbersAll(es, keys[1..], ds[1..]);
    }
  }

  /** The customer and template keys find their own lines. */
  lemma HeaderFields(es: seq<Entry>)
    requires |es| == |Keys| && forall j :: 0 <= j < |es| ==> es[j].0 == Keys[j]
    ensures Lookup(es, "template_id") == Some(es[0].1)
    ensures Lookup(es, "template_name") == Some(es[1].1)
    ensures Lookup(es, "customer_name") == Some(es[2].1)
    ensures Lookup(es, "customer_email") == Some(es[3].1)
    ensures Lookup(es, "order_date") == Some(es[4].1)
  {
    LookupKey(es, 0);
    LookupKey(es, 1);
    LookupKey(es, 2);
    LookupKey(es, 3);
    LookupKey(es, 4);
  }

  /** The material keys find their own lines. */
  lemma MaterialFields(es: seq<Entry>)
    requires |es| == |Keys| && forall j :: 0 <= j < |es| ==> es[j].0 == Keys[j]
    ensures Lookup(es, "wood_type") == Some(es[15].1)
    ensures Lookup(es, "fabric_type") == Some(es[16].1)
    ensures Lookup(es, "wood_finish") == Some(es[17].1)
  {
    LookupKey(es, 15);
    LookupKey(es, 16);
    LookupKey(es, 17);
  }

  /** The pricing keys find their own lines. */
  lemma PricingFields(es: seq<Entry>)
    requires |es| == |Keys| && forall j :: 0 <= j < |es| ==> es[j].0 == Keys[j]
    ensures Lookup(es, "estimated_price") == Some(es[18].1)
    ensures Lookup(es, "linear_feet") == Some(es[19].1)
  {
    LookupKey(es, 18);
    LookupKey(es, 19);
  }

  /** The canonical configuration, assembled from its canonical numbers and its material strings. */
  lemma CanonicalAssembled(c: Config)
    ensures var ns := NormalizeAll(Numbers(c));
      Config(ns[0], ns[1], ns[2], ns[3], ns[4], ns[5], ns[6], ns[7], ns[8], ns[9],
             c.woodType, c.fabricType, c.woodFinish) == Canonical(c)
  {
  }

  /** Entries keyed like the file and holding the configuration read back as its canonical form. */
  lemma DecodeConfigOf(es: seq<Entry>, c: Config)
    requires |es| == |Keys| && forall j :: 0 <= j < |es| ==> es[j].0 == Keys[j]
    requires HoldsNumbers(es, c)
    requires es[15].1 == c.woodType && es[16].1 == c.fabricType && es[17].1 == c.woodFinish
    ensures DecodeConfig(es) == Some(Canonical(c))
  {
    NumberFields(es, c);
    ReadNumbersAll(es, NumberKeys, Numbers(c));
    MaterialFields(es);
    CanonicalAssembled(c);
  }

  /** Reading the written fields back by key gives the configuration in canonical form. */
  lemma DecodeConfigRoundTrip(t: Template, customer: Customer, c: Config, price: real, orderDate: string)
    ensures DecodeConfig(Entries(t, customer, c, price, orderDate)) == Some(Canonical(c))
  {
    EntriesHoldNumbers(t, customer, c, price, orderDate);
    EntriesHoldText(t, customer, c, price, orderDate);
    DecodeConfigOf(Entries(t, customer, c, price, orderDate), c);
  }

  /** The written entries carry the text fields, the price and the length in feet in their places. */
  lemma EntriesHoldText(t: Template, customer: Customer, c: Config, price: real, orderDate: string)
    ensures var es := Entries(t, customer, c, price, orderDate);
      && es[0].1 == t.id && es[1].1 == t.name
      && es[2].1 == customer.name && es[3].1 == customer.email && es[4].1 == orderDate
      && es[15].1 == c.woodType && es[16].1 == c.fabricType && es[17].1 == c.woodFinish
      && es[18].1 == IntToString(Round(price)) && es[19].1 == LinearFeetText(c)
  {
  }

  /** The length in feet parses back to two places, within half a hundredth of the exact quotient. */
  lemma LinearFeetRoundTrip(c: Config)
    ensures var r := ParseDecimal(LinearFeetText(c));
      && r.Some? && r.value.places == 2
      && -0.005 <= r.value.Value() - c.overallLength.Value() / 12.0 <= 0.005
  {
    ToFixed2RoundTrip(c.overallLength.Value() / 12.0);
  }

  /**
   * Reading the written fields back by key recovers the template, customer and
   * date text unchanged, the configuration (in canonical form, so with the same
   * values), the price rounded by `Math.round`, and the length in feet to
   * within half a hundredth.
   */
  lemma DecodeRoundTrip(t: Template, customer: Customer, c: Config, price: real, orderDate: string)
    ensures var r := Decode(Entries(t, customer, c, price, orderDate));
      && r.Some?
      && r.value.templateId == t.id
      && r.value.templateName == t.name
      && r.value.customer == customer
      && r.value.orderDate == orderDate
      && r.value.config == Canonical(c)
      && r.value.estimatedPrice == Round(price)
      && r.value.linearFeet.places == 2
      && -0.005 <= r.value.linearFeet.Value() - c.overallLength.Value() / 12.0 <= 0.005
  {
    HeaderFields(Entries(t, customer, c, price, orderDate));
    PricingFields(Entries(t, customer, c, price, orderDate));
    EntriesHoldText(t, customer, c, price, orderDate);
    DecodeConfigRoundTrip(t, customer, c, price, orderDate);
    IntRoundTrip(Round(price));
    LinearFeetRoundTrip(c);
  }

  // ---------------------------------------------------------------- the whole file

  /** A key written on a line: no separator, no line break. */
  predicate PlainKey(key: string) {
    '=' !in key && '\n' !in key
  }

  lemma KeysPlainFront()
    ensures forall i :: 0 <= i < 10 ==> PlainKey(Keys[i])
  {
  }

  lemma KeysPlainBack()
    ensures forall i :: 10 <= i < |Keys| ==> PlainKey(Keys[i])
  {
  }

  /** No key contains the separator or a line break. */
  lemma KeysPlain()
    ensures forall i :: 0 <= i < |Keys| ==> PlainKey(Keys[i])
  {
    KeysPlainFront();
    KeysPlainBack();
  }

  /** Text made of digits, '.' and '-' holds no line break. */
  lemma NumeralOneLine(s: string)
    requires forall k :: 0 <= k < |s| ==> IsDigit(s[k]) || s[k] == '.' || s[k] == '-'
    ensures '\n' !in s
  {
  }

  /** The free-text inputs the file copies verbatim. */
  predicate OneLineInputs(t: Template, customer: Customer, c: Config, orderDate: string) {
    && '\n' !in t.id && '\n' !in t.name
    && '\n' !in customer.name && '\n' !in customer.email && '\n' !in orderDate
    && '\n' !in c.woodType && '\n' !in c.fabricType && '\n' !in c.woodFinish
  }

  /** When no free-text input spans lines, every field survives being written as a line. */
  lemma EntriesWellFormed(t: Template, customer: Customer, c: Config, price: real, orderDate: string)
    requires OneLineInputs(t, customer, c, orderDate)
    ensures WellFormed(Entries(t, customer, c, price, orderDate))
  {
    var es := Entries(t, customer, c, price, orderDate);
    var vs := Values(t, customer, c, price, orderDate);
    KeysPlain();
    EntriesHoldNumbers(t, customer, c, price, orderDate);
    EntriesHoldText(t, customer, c, price, orderDate);
    forall i | 0 <= i < |es| ensures '\n' !in es[i].1 {
      if 5 <= i < 15 {
        NumeralOneLine(FormatDecimal(Numbers(c)[i - 5]));
      } else if i == 18 {
        NumeralOneLine(IntToString(Round(price)));
      } else if i == 19 {
        NumeralOneLine(LinearFeetText(c));
      } else {
        assert es[i].1 == vs[i];
      }
    }
  }

  /**
   * The parameter file for a selected template reads back as the generated
   * time text and exactly the fields that were written, priced from the catalog.
   */
  lemma SerializeRoundTrip(t: Template, customer: Customer, c: Config, orderDate: string, generated: string)
    requires '\n' !in generated
    requires OneLineInputs(t, customer, c, orderDate)
    ensures ParseFile(Serialize(t, customer, c, orderDate, generated))
         == Some(ParsedFile(generated, Entries(t, customer, c, Price(Standard, Some(t), c), orderDate)))
  {
    var es := Entries(t, customer, c, Price(Standard, Some(t), c), orderDate);
    EntriesWellFormed(t, customer, c, Price(Standard, Some(t), c), orderDate);
    FileRoundTrip(generated, es);
  }

  /**
   * End to end: a reader of the written file recovers the template, customer,
   * date and configuration, and the estimate as `Math.round` of the catalog price.
   */
  lemma SerializeDecode(t: Template, customer: Customer, c: Config, orderDate: string, generated: string)
    requires '\n' !in generated
    requires OneLineInputs(t, customer, c, orderDate)
    ensures var f := ParseFile(Serialize(t, customer, c, orderDate, generated));
      && f.Some? && f.value.generated == generated
      && var r := Decode(f.value.entries);
      && r.Some?
      && r.value.templateId == t.id && r.value.templateName == t.name
      && r.value.customer == customer && r.value.orderDate == orderDate
      && r.value.config == Canonical(c)
      && r.value.estimatedPrice == Round(Price(Standard, Some(t), c))
  {
    SerializeRoundTrip(t, customer, c, orderDate, generated);
    DecodeRoundTrip(t, customer, c, Price(Standard, Some(t), c), orderDate);
  }

  /**
   * Worked example: the demo customer's order of the default booth on the
   * first template reads back with that customer and an estimate of 580.
   */
  lemma DemoFile(orderDate: string, generated: string)
    requires '\n' !in orderDate && '\n' !in generated
    ensures var f := ParseFile(Serialize(Templates[0], DemoCustomer, Default, orderDate, generated));
      && f.Some?
      && var r := Decode(f.value.entries);
      && r.Some? && r.value.customer == DemoCustomer
      && r.value.templateId == "straight-full-upholstered" && r.value.estimatedPrice == 580
  {
    DemoInputs(orderDate);
    SerializeDecode(Templates[0], DemoCustomer, Default, orderDate, generated);
    DefaultPrice();
  }

  /** The demo order's free-text inputs are single lines. */
  lemma DemoInputs(orderDate: string)
    requires '\n' !in orderDate
    ensures OneLineInputs(Templates[0], DemoCustomer, Default, orderDate)
  {
    FirstTemplateIdOneLine();
    FirstTemplateNameOneLine();
    DemoCustomerOneLine();
    DefaultMaterialsOneLine();
  }

  lemma FirstTemplateIdOneLine()
    ensures '\n' !in Templates[0].id
  {
  }

  lemma FirstTemplateNameOneLine()
    ensures '\n' !in Templates[0].name
  {
  }

  lemma DemoCustomerOneLine()
    ensures '\n' !in DemoCustomer.name && '\n' !in DemoCustomer.email
  {
  }

  lemma DefaultMaterialsOneLine()
    ensures '\n' !in Default.woodType && '\n' !in Default.fabricType && '\n' !in Default.woodFinish
  {
  }
}
