/** The litter record both litter forms insert, and the normalisation they
    share: empty text becomes null, counts are parsed as base-10 integers,
    prices are sent as the text the breeder typed. */
module LitterRecords {
  import opened Common

  /** The detail fields of a litter form, all text as the inputs hold them. */
  datatype LitterFields = LitterFields(
    breed: string,
    expected_date: string,
    born_date: string,
    puppy_count: string,
    available_count: string,
    price_min: string,
    price_max: string,
    description: string,
    status: string)

  /** The fields as a fresh form holds them: everything empty, status "upcoming". */
  const InitialFields: LitterFields := LitterFields("", "", "", "", "", "", "", "", "upcoming")

  /** One row sent to the `litters` table; None is JSON null. */
  datatype LitterRow = LitterRow(
    breeder_id: string,
    sire_id: Option<string>,
    dam_id: Option<string>,
    breed: string,
    expected_date: Option<string>,
    born_date: Option<string>,
    puppy_count: Option<int>,
    available_count: Option<int>,
    price_min: Option<string>,
    price_max: Option<string>,
    description: Option<string>,
    status: string)

  /** What the store answers to a litter insert: the new row's id, or an
      error with its (possibly empty) message. */
  datatype InsertAnswer = Created(id: string) | Failed(message: string)

  /** The toast a form shows after its insert. */
  datatype Toast = SuccessToast(text: string) | ErrorToast(text: string)

  /** The error toast's text: the store's message, or the page's fallback
      when the message is empty (`error.message || fallback`). */
  function ErrorText(message: string, fallback: string): (t: string)
    ensures message != "" ==> t == message
    ensures message == "" ==> t == fallback
  {
    if Truthy(message) then message else fallback
  }

  /** `v ? parseInt(v, 10) : null`.  Text parseInt cannot read gives NaN,
      which the request body carries as null. */
  function ParsedCount(v: string): Option<int>
  {
    if v == "" then None else ParseInt(v)
  }

  /** An empty count is null and a count typed as a number is that number. */
  lemma ParsedCountMeaning(v: string, n: int)
    ensures ParsedCount("") == None
    ensures v == IntToString(n) ==> ParsedCount(v) == Some(n)
  {
    ParseIntRoundTrip(n);
  }

  /** The row built from the detail fields and the chosen parents. */
  function Row(breederId: string, sire: Option<string>, dam: Option<string>, f: LitterFields): LitterRow
  {
    LitterRow(
      breederId, sire, dam, f.breed,
      OrNull(f.expected_date), OrNull(f.born_date),
      ParsedCount(f.puppy_count), ParsedCount(f.available_count),
      OrNull(f.price_min), OrNull(f.price_max),
      OrNull(f.description), f.status)
  }

  /** What the normalisation does to each field: the breeder, parents,
      breed and status are copied; each optional text is null exactly when
      it is empty and copied otherwise; counts are null when empty and read
      back as the number typed. */
  lemma RowNormalises(breederId: string, sire: Option<string>, dam: Option<string>, f: LitterFields)
    ensures var r := Row(breederId, sire, dam, f);
      && r.breeder_id == breederId && r.sire_id == sire && r.dam_id == dam
      && r.breed == f.breed && r.status == f.status
      && (r.expected_date.None? <==> f.expected_date == "")
      && (r.born_date.None? <==> f.born_date == "")
      && (r.description.None? <==> f.description == "")
      && (r.price_min.None? <==> f.price_min == "")
      && (r.price_max.None? <==> f.price_max == "")
      && (r.expected_date.Some? ==> r.expected_date.value == f.expected_date)
      && (r.born_date.Some? ==> r.born_date.value == f.born_date)
      && (r.description.Some? ==> r.description.value == f.description)
      && (r.price_min.Some? ==> r.price_min.value == f.price_min)
      && (r.price_max.Some? ==> r.price_max.value == f.price_max)
      && (f.puppy_count == "" ==> r.puppy_count.None?)
      && (f.available_count == "" ==> r.available_count.None?)
  {
  }

  /** Counts typed as numbers arrive as those numbers. */
  lemma RowCounts(breederId: string, sire: Option<string>, dam: Option<string>, f: LitterFields, puppies: int, available: int)
    requires f.puppy_count == IntToString(puppies) && f.available_count == IntToString(available)
    ensures Row(breederId, sire, dam, f).puppy_count == Some(puppies)
    ensures Row(breederId, sire, dam, f).available_count == Some(available)
  {
    ParsedCountMeaning(f.puppy_count, puppies);
    ParsedCountMeaning(f.available_count, available);
  }

  /** The names `handleChange` and `set(field)` write to. */
  const FieldNames: set<string> := {"breed", "expected_date", "born_date", "puppy_count",
    "available_count", "price_min", "price_max", "description", "status"}

  /** The value of a named field. */
  function Get(f: LitterFields, name: string): Option<string>
  {
    match name
    case "breed" => Some(f.breed)
    case "expected_date" => Some(f.expected_date)
    case "born_date" => Some(f.born_date)
    case "puppy_count" => Some(f.puppy_count)
    case "available_count" => Some(f.available_count)
    case "price_min" => Some(f.price_min)
    case "price_max" => Some(f.price_max)
    case "description" => Some(f.description)
    case "status" => Some(f.status)
    case _ => None
  }

  /** `{ ...prev, [name]: value }`.  A name that is not a field adds a key the
      payload never reads, so the fields stay as they were. */
  function WithField(f: LitterFields, name: string, value: string): LitterFields
  {
    match name
    case "breed" => f.(breed := value)
    case "expected_date" => f.(expected_date := value)
    case "born_date" => f.(born_date := value)
    case "puppy_count" => f.(puppy_count := value)
    case "available_count" => f.(available_count := value)
    case "price_min" => f.(price_min := value)
    case "price_max" => f.(price_max := value)
    case "description" => f.(description := value)
    case "status" => f.(status := value)
    case _ => f
  }

  /** Writing a field is read back, and no other field changes. */
  lemma SetThenGet(f: LitterFields, name: string, value: string, other: string)
    requires other != name
    ensures name in FieldNames <==> Get(f, name).Some?
    ensures name in FieldNames ==> Get(WithField(f, name, value), name) == Some(value)
    ensures name !in FieldNames ==> WithField(f, name, value) == f
    ensures Get(WithField(f, name, value), other) == Get(f, other)
  {
  }
}
