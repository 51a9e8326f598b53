/**
  A credit card: its name, the value of one reward point in cents, a
  multiplier per spending category and a default multiplier, together with
  the conversions between a card and its dictionary form (`card_data` on the
  way in, `to_dict` on the way out).
 */
module Cards {
  import opened Wrappers

  /** The JSON-shaped values a `card_data` dictionary and the store hold. */
  datatype Json = JStr(s: string) | JNum(x: real) | JObj(fields: map<string, Json>)

  /** One credit card. `pointValue` is in cents; every multiplier scales it. */
  datatype Card = Card(
    name: string,
    pointValue: real,
    multipliers: map<string, real>,
    defaultMultiplier: real)

  /** The conditions the wallet raises. */
  datatype Error =
    | ValidationError(field: string)  // a field is missing or cannot be converted
    | DuplicateName(name: string)     // another card already has this name
    | NotFound(name: string)          // no card has this name

  const CardNameKey := "card_name"
  const PointValueKey := "point_value"
  const MultipliersKey := "multipliers"
  const DefaultMultiplierKey := "default_multiplier"

  /** The synthetic category under which the default multiplier is ranked. */
  const DefaultCategory := "default"

  /**
    The cash-back value in dollars of one point spent in `category`: the
    category's own multiplier when the card has one, otherwise the default
    multiplier, times the point value, converted from cents.
   */
  function CalculateValue(c: Card, category: string): (v: real)
    ensures category in c.multipliers ==> 100.0 * v == c.multipliers[category] * c.pointValue
    ensures category !in c.multipliers ==> 100.0 * v == c.defaultMultiplier * c.pointValue
  {
    var multiplier := if category in c.multipliers then c.multipliers[category] else c.defaultMultiplier;
    (multiplier * c.pointValue) / 100.0
  }

  /** Every category a card has no multiplier for is worth the same: its default. */
  lemma UnknownCategoriesAgree(c: Card, a: string, b: string)
    requires a !in c.multipliers && b !in c.multipliers
    ensures CalculateValue(c, a) == CalculateValue(c, b)
    ensures CalculateValue(c, a) == CalculateValue(c.(multipliers := map[]), DefaultCategory)
  {
  }

  // ---------------------------------------------------------------------
  // The dictionary form
  // ---------------------------------------------------------------------

  /** `card_data["card_name"]`: raises when the key is missing (or is not a string). */
  function NameField(data: map<string, Json>): Result<string, Error>
  {
    if CardNameKey in data && data[CardNameKey].JStr? then Success(data[CardNameKey].s)
    else Failure(ValidationError(CardNameKey))
  }

  /** `float(card_data[key])`: raises when the key is missing or its value is not a number. */
  function NumberField(data: map<string, Json>, key: string): Result<real, Error>
  {
    if key in data && data[key].JNum? then Success(data[key].x)
    else Failure(ValidationError(key))
  }

  /** All values of a JSON object are numbers. */
  predicate AllNumbers(fields: map<string, Json>)
  {
    forall k :: k in fields ==> fields[k].JNum?
  }

  /**
    `{k: float(v) for k, v in card_data.get("multipliers", {}).items()}`:
    an absent key gives no multipliers; otherwise it must be an object of numbers.
   */
  function MultipliersField(data: map<string, Json>): Result<map<string, real>, Error>
  {
    if MultipliersKey !in data then Success(map[])
    else if data[MultipliersKey].JObj? && AllNumbers(data[MultipliersKey].fields) then
      var fields := data[MultipliersKey].fields;
      Success(map k | k in fields :: fields[k].x)
    else Failure(ValidationError(MultipliersKey))
  }

  /**
    The constructor `CreditCard(card_data)`: reads the name, the point value,
    the multipliers and the default multiplier, in that order, and fails on
    the first one that is missing or cannot be converted.
   */
  function FromDict(data: map<string, Json>): (r: Result<Card, Error>)
    ensures r.Success? <==>
      NameField(data).Success? && NumberField(data, PointValueKey).Success?
      && MultipliersField(data).Success? && NumberField(data, DefaultMultiplierKey).Success?
    ensures r.Success? ==> NameField(data) == Success(r.value.name)
    ensures r.Success? && MultipliersKey !in data ==> r.value.multipliers == map[]
    ensures r.Failure? ==> r.error.ValidationError?
  {
    match NameField(data)
    case Failure(e) => Failure(e)
    case Success(name) =>
      match NumberField(data, PointValueKey)
      case Failure(e) => Failure(e)
      case Success(pointValue) =>
        match MultipliersField(data)
        case Failure(e) => Failure(e)
        case Success(multipliers) =>
          match NumberField(data, DefaultMultiplierKey)
          case Failure(e) => Failure(e)
          case Success(defaultMultiplier) =>
            Success(Card(name, pointValue, multipliers, defaultMultiplier))
  }

  /** `to_dict`: the dictionary that is written to the store for a card. */
  function ToDict(c: Card): (d: map<string, Json>)
    ensures d.Keys == {CardNameKey, PointValueKey, MultipliersKey, DefaultMultiplierKey}
  {
    map[
      CardNameKey := JStr(c.name),
      PointValueKey := JNum(c.pointValue),
      MultipliersKey := JObj(map k | k in c.multipliers :: JNum(c.multipliers[k])),
      DefaultMultiplierKey := JNum(c.defaultMultiplier)
    ]
  }

  /** Building a card from its own dictionary form gives the card back. */
  lemma FromDictToDict(c: Card)
    ensures FromDict(ToDict(c)) == Success(c)
  {
    var d := ToDict(c);
    var fields := d[MultipliersKey].fields;
    assert AllNumbers(fields);
    assert (map k | k in fields :: fields[k].x) == c.multipliers;
  }

  /**
    A card built from `data` has, under each of the four keys `data` holds,
    exactly the value `data` had: `to_dict` restores what the constructor read.
   */
  lemma ToDictFromDict(data: map<string, Json>, c: Card)
    requires FromDict(data) == Success(c)
    ensures forall k :: k in data && k in ToDict(c) ==> ToDict(c)[k] == data[k]
  {
  }

  // ---------------------------------------------------------------------
  // The in-place edit of `update_card`
  // ---------------------------------------------------------------------

  /** A card after an in-place edit, and the error that interrupted the edit, if any. */
  datatype Assignment = Assignment(card: Card, error: Option<Error>)

  /**
    The field assignments `update_card` performs on the card it found: the
    name first, then the point value, the multipliers and the default
    multiplier, each converted from `data`. A conversion that fails stops
    the sequence, and the fields assigned before it keep their new values.
   */
  function AssignFields(c: Card, newName: string, data: map<string, Json>): (a: Assignment)
    requires NameField(data) == Success(newName)
    ensures a.card.name == newName
    ensures a.error.None? <==> FromDict(data).Success?
    ensures a.error.None? ==> a.card == FromDict(data).value
    ensures a.error.Some? ==> a.error.value == FromDict(data).error
    ensures a.error.Some? ==> a.card.defaultMultiplier == c.defaultMultiplier
    ensures NumberField(data, PointValueKey).Failure? ==> a.card == c.(name := newName)
    ensures MultipliersField(data).Failure? ==> a.card.multipliers == c.multipliers
  {
    var renamed := c.(name := newName);
    match NumberField(data, PointValueKey)
    case Failure(e) => Assignment(renamed, Some(e))
    case Success(pointValue) =>
      var revalued := renamed.(pointValue := pointValue);
      match MultipliersField(data)
      case Failure(e) => Assignment(revalued, Some(e))
      case Success(multipliers) =>
        var remapped := revalued.(multipliers := multipliers);
        match NumberField(data, DefaultMultiplierKey)
        case Failure(e) => Assignment(remapped, Some(e))
        case Success(defaultMultiplier) => Assignment(remapped.(defaultMultiplier := defaultMultiplier), None)
  }
}
