/** The add-dog form: its three checks in order (sex, required names, a
    session) and the row it sends.  The sex is lower-cased on the way out,
    which is what lets the litter wizard find the dog among the sires or
    the dams. */
module AddDog {
  import opened Common
  import CreateLitter

  /** The form, all text as the inputs hold it. */
  datatype DogForm = DogForm(
    registered_name: string,
    call_name: string,
    breed: string,
    sex: string,
    dob: string,
    color: string,
    weight: string,
    height: string,
    registration_number: string)

  const InitialForm: DogForm := DogForm("", "", "", "", "", "", "", "", "")

  /** The sex options the form offers. */
  const SexOptions: seq<string> := ["Male", "Female"]

  /** The row sent to the `dogs` table (weight and height are left out). */
  datatype DogRow = DogRow(
    owner_id: string,
    registered_name: string,
    call_name: Option<string>,
    breed: string,
    sex: string,
    dob: Option<string>,
    color: Option<string>,
    registration_number: Option<string>)

  function Payload(form: DogForm, userId: string): DogRow
  {
    DogRow(userId, form.registered_name, OrNull(form.call_name), form.breed, ToLower(form.sex),
           OrNull(form.dob), OrNull(form.color), OrNull(form.registration_number))
  }

  /** What the row holds: owner, names and breed copied; the optional texts
      null exactly when empty and copied otherwise; the sex lower-cased, so
      it holds no capital. */
  lemma PayloadMeaning(form: DogForm, userId: string)
    ensures var r := Payload(form, userId);
      && r.owner_id == userId && r.registered_name == form.registered_name && r.breed == form.breed
      && (r.call_name.None? <==> form.call_name == "")
      && (r.dob.None? <==> form.dob == "")
      && (r.color.None? <==> form.color == "")
      && (r.registration_number.None? <==> form.registration_number == "")
      && (r.call_name.Some? ==> r.call_name.value == form.call_name)
      && (r.dob.Some? ==> r.dob.value == form.dob)
      && (r.color.Some? ==> r.color.value == form.color)
      && (r.registration_number.Some? ==> r.registration_number.value == form.registration_number)
      && r.sex == ToLower(form.sex)
      && (forall i :: 0 <= i < |r.sex| ==> !IsUpper(r.sex[i]))
  {
  }

  datatype Outcome =
    | Alert(message: string)
    | Redirect(message: string, to: string)
    | Send(row: DogRow)

  /** `handleSubmit` up to the request: sex first, then the two required
      names, then the session; `hasSession` stands for the session lookup. */
  method HandleSubmit(form: DogForm, hasSession: bool, userId: string) returns (o: Outcome)
    ensures form.sex == "" ==> o == Alert("Please select a sex")
    ensures form.sex != "" && (form.registered_name == "" || form.breed == "") ==>
      o == Alert("Please fill in all required fields")
    ensures form.sex != "" && form.registered_name != "" && form.breed != "" && !hasSession ==>
      o == Redirect("Not authenticated. Please login again.", "/login")
    ensures o.Send? <==> form.sex != "" && form.registered_name != "" && form.breed != "" && hasSession
    ensures o.Send? ==> o.row == Payload(form, userId)
  {
    if !Truthy(form.sex) {
      return Alert("Please select a sex");
    }
    if !Truthy(form.registered_name) || !Truthy(form.breed) {
      return Alert("Please fill in all required fields");
    }
    if !hasSession {
      return Redirect("Not authenticated. Please login again.", "/login");
    }
    o := Send(Payload(form, userId));
  }

  /** The two offered sexes become "male" and "female". */
  lemma SexOptionsLowercase()
    ensures ToLower(SexOptions[0]) == "male"
    ensures ToLower(SexOptions[1]) == "female"
  {
    assert LowerChar('M') == 'm';
    assert LowerChar('F') == 'f';
    assert ToLower("Male") == "male" by {
      assert forall i :: 0 <= i < 4 ==> ToLower("Male")[i] == "male"[i];
    }
    assert ToLower("Female") == "female" by {
      assert forall i :: 0 <= i < 6 ==> ToLower("Female")[i] == "female"[i];
    }
  }

  /** The dog as the litter wizard later loads it. */
  function AsLoaded(r: DogRow, id: string): CreateLitter.Dog
  {
    CreateLitter.Dog(id, r.registered_name, Some(r.breed), r.sex, r.registration_number)
  }

  /** A dog added as "Male" is offered as a sire and not as a dam, and one
      added as "Female" the other way round. */
  lemma AddedDogJoinsPartition(form: DogForm, userId: string, id: string, before: seq<CreateLitter.Dog>)
    requires form.sex in SexOptions
    ensures var d := AsLoaded(Payload(form, userId), id);
      && (form.sex == "Male" ==> d in CreateLitter.MaleDogs(before + [d]) && d !in CreateLitter.FemaleDogs(before + [d]))
      && (form.sex == "Female" ==> d in CreateLitter.FemaleDogs(before + [d]) && d !in CreateLitter.MaleDogs(before + [d]))
  {
    SexOptionsLowercase();
    var d := AsLoaded(Payload(form, userId), id);
    assert d in before + [d];
  }
}
