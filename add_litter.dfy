/** The single-page litter form: its initial state, the two required-field
    checks in their order, and the row it inserts.  Sire and dam are chosen
    from drop-downs whose "no parent" entry is the literal "none". */
module AddLitter {
  import opened Common
  import opened LitterRecords

  /** The form: the two parent drop-downs and the shared detail fields. */
  datatype LitterForm = LitterForm(sire_id: string, dam_id: string, fields: LitterFields)

  const InitialForm: LitterForm := LitterForm("none", "none", InitialFields)

  /** `v !== 'none' ? v : null`: only the sentinel means "no parent". */
  function ParentId(v: string): (r: Option<string>)
    ensures r.None? <==> v == "none"
    ensures r.Some? ==> r.value == v
  {
    if v != "none" then Some(v) else None
  }

  /** The row `handleSubmit` builds for the signed-in breeder. */
  function Payload(form: LitterForm, userId: string): LitterRow
  {
    Row(userId, ParentId(form.sire_id), ParentId(form.dam_id), form.fields)
  }

  datatype Outcome =
    | Rejected(message: string)
    | Inserted(row: LitterRow, toast: Toast, navigateTo: Option<string>)

  /** `handleSubmit`: breed is checked first, then status; a form passing both
      is inserted.  On success the page shows a success toast and moves to
      the dashboard; on failure it shows the store's error (or a fallback)
      and stays.  `answer` stands for the store's answer. */
  method HandleSubmit(form: LitterForm, userId: string, answer: InsertAnswer) returns (o: Outcome)
    ensures form.fields.breed == "" ==> o == Rejected("Please select a breed")
    ensures form.fields.breed != "" && form.fields.status == "" ==> o == Rejected("Please select a status")
    ensures form.fields.breed != "" && form.fields.status != "" ==>
      && o.Inserted?
      && o.row == Payload(form, userId)
      && (o.navigateTo == if answer.Created? then Some("/dashboard/breeder") else None)
    ensures o.Inserted? && answer.Created? ==> o.toast == SuccessToast("Litter added successfully!")
    ensures o.Inserted? && answer.Failed? ==>
      o.toast == ErrorToast(if answer.message != "" then answer.message else "Failed to add litter. Please try again.")
  {
    if !Truthy(form.fields.breed) {
      return Rejected("Please select a breed");
    }
    if !Truthy(form.fields.status) {
      return Rejected("Please select a status");
    }
    var payload := Payload(form, userId);
    match answer
    case Created(_) =>
      o := Inserted(payload, SuccessToast("Litter added successfully!"), Some("/dashboard/breeder"));
    case Failed(message) =>
      o := Inserted(payload, ErrorToast(ErrorText(message, "Failed to add litter. Please try again.")), None);
  }

  /** Submitting the untouched form is refused for the missing breed, and
      once a breed is picked its parents, dates, counts, prices and
      description are all null. */
  lemma InitialFormMeaning(userId: string, breed: string)
    ensures InitialForm.fields.breed == "" && InitialForm.fields.status == "upcoming"
    ensures var r := Payload(InitialForm.(fields := InitialForm.fields.(breed := breed)), userId);
      r.sire_id.None? && r.dam_id.None? && r.status == "upcoming" && r.breed == breed
      && r.expected_date.None? && r.born_date.None?
      && r.puppy_count.None? && r.available_count.None?
      && r.price_min.None? && r.price_max.None? && r.description.None?
  {
  }

  /** The parent ids: "none" becomes null and every other value, the empty
      text of the "None" item included, is sent unchanged; the rest of the
      row is the shared normalisation with the breeder as owner. */
  lemma PayloadMeaning(form: LitterForm, userId: string)
    ensures Payload(form, userId).sire_id == (if form.sire_id == "none" then None else Some(form.sire_id))
    ensures Payload(form, userId).dam_id == (if form.dam_id == "none" then None else Some(form.dam_id))
    ensures form.sire_id == "" ==> Payload(form, userId).sire_id == Some("")
    ensures Payload(form, userId).breeder_id == userId
    ensures Payload(form, userId).status == form.fields.status
  {
    RowNormalises(userId, ParentId(form.sire_id), ParentId(form.dam_id), form.fields);
  }
}
