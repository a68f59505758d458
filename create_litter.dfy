/** The three-step litter wizard: pick a sire, pick a dam, fill in the
    details.  The breeder's dogs are loaded once and split by sex; the
    wizard's step counter and selections change as the breeder clicks. */
module CreateLitter {
  import opened Common
  import opened LitterRecords

  /** A dog as the wizard loads it from the `dogs` table. */
  datatype Dog = Dog(id: string, registered_name: string, breed: Option<string>, sex: string, registration_number: Option<string>)

  predicate IsMale(d: Dog) { d.sex == "male" }
  predicate IsFemale(d: Dog) { d.sex == "female" }

  /** The sire candidates, in load order. */
  function MaleDogs(dogs: seq<Dog>): (r: seq<Dog>)
    ensures forall d :: d in r <==> d in dogs && d.sex == "male"
  {
    Filter(dogs, IsMale)
  }

  /** The dam candidates, in load order. */
  function FemaleDogs(dogs: seq<Dog>): (r: seq<Dog>)
    ensures forall d :: d in r <==> d in dogs && d.sex == "female"
  {
    Filter(dogs, IsFemale)
  }

  /** Both lists keep the load order and no dog is offered as both parents;
      a dog whose sex is neither value is offered as neither. */
  lemma PartitionMeaning(dogs: seq<Dog>)
    ensures IsSubsequence(MaleDogs(dogs), dogs) && IsSubsequence(FemaleDogs(dogs), dogs)
    ensures forall d :: !(d in MaleDogs(dogs) && d in FemaleDogs(dogs))
    ensures forall d :: d in dogs && d.sex != "male" && d.sex != "female" ==> d !in MaleDogs(dogs) + FemaleDogs(dogs)
  {
    FilterIsSubsequence(dogs, IsMale);
    FilterIsSubsequence(dogs, IsFemale);
  }

  /** `!!(sire?.registration_number && dam?.registration_number)`. */
  function PapersVerified(sire: Option<Dog>, dam: Option<Dog>): (b: bool)
    ensures b <==> sire.Some? && dam.Some? && Present(sire.value.registration_number) && Present(dam.value.registration_number)
  {
    match (sire, dam)
    case (Some(s), Some(d)) => Present(s.registration_number) && Present(d.registration_number)
    case _ => false
  }

  /** `healthChecked`: false unless both parents are chosen; then each
      parent's one-row health-record query must have returned a row.  A
      query answer is None when the store returned no data. */
  function HealthChecked(sire: Option<Dog>, dam: Option<Dog>, sireRows: Option<nat>, damRows: Option<nat>): (b: bool)
    ensures b <==> sire.Some? && dam.Some? && sireRows.Some? && sireRows.value > 0 && damRows.Some? && damRows.value > 0
  {
    if sire.Some? && dam.Some? then
      (match sireRows case None => false case Some(n) => n > 0)
      && (match damRows case None => false case Some(n) => n > 0)
    else false
  }

  /** The id sent for a selected parent: `parent?.id || null`. */
  function ParentId(parent: Option<Dog>): (r: Option<string>)
    ensures parent.None? ==> r.None?
    ensures parent.Some? && parent.value.id != "" ==> r == Some(parent.value.id)
    ensures parent.Some? && parent.value.id == "" ==> r.None?
  {
    match parent
    case None => None
    case Some(p) => OrNull(p.id)
  }

  /** The row the wizard inserts: the shared litter row plus the two flags. */
  datatype CreatedLitter = CreatedLitter(row: LitterRow, papers_verified: bool, health_checked: bool)

  function Payload(userId: string, sire: Option<Dog>, dam: Option<Dog>, f: LitterFields,
                   sireRows: Option<nat>, damRows: Option<nat>): CreatedLitter
  {
    CreatedLitter(
      Row(userId, ParentId(sire), ParentId(dam), f),
      PapersVerified(sire, dam),
      HealthChecked(sire, dam, sireRows, damRows))
  }

  /** A flag set on the new litter always names both parents. */
  lemma FlagsNeedBothParents(userId: string, sire: Option<Dog>, dam: Option<Dog>, f: LitterFields,
                             sireRows: Option<nat>, damRows: Option<nat>)
    requires sire.Some? ==> sire.value.id != ""
    requires dam.Some? ==> dam.value.id != ""
    ensures var c := Payload(userId, sire, dam, f, sireRows, damRows);
      (c.papers_verified || c.health_checked) ==> c.row.sire_id.Some? && c.row.dam_id.Some?
  {
  }

  datatype SubmitOutcome =
    | NoInsert(message: string)
    | Insert(litter: CreatedLitter, toast: Toast, navigateTo: Option<string>)

  /** The dog a card click names: the first loaded dog with that id. */
  function HasId(id: string): Dog -> bool { (d: Dog) => d.id == id }

  /** The wizard's state. */
  class Wizard {
    const dogs: seq<Dog>
    var step: int
    var selectedSire: Option<Dog>
    var selectedDam: Option<Dog>
    var fields: LitterFields

    /** The step stays in 1..3, step 2 is reached only with a sire chosen
        and step 3 only with a dam chosen as well. */
    predicate Valid()
      reads this
    {
      && 1 <= step <= 3
      && (step >= 2 ==> selectedSire.Some?)
      && (step == 3 ==> selectedDam.Some?)
    }

    constructor(dogs: seq<Dog>)
      ensures this.dogs == dogs
      ensures step == 1 && selectedSire.None? && selectedDam.None? && fields == InitialFields
      ensures Valid()
    {
      this.dogs := dogs;
      step := 1;
      selectedSire := None;
      selectedDam := None;
      fields := InitialFields;
    }

    /** The Next button's `disabled` condition. */
    predicate NextDisabled()
      reads this
    {
      (step == 1 && selectedSire.None?) || (step == 2 && selectedDam.None?)
    }

    /** A click on Previous: the button exists only after step 1. */
    method Previous()
      requires Valid()
      modifies this
      ensures Valid()
      ensures step == if old(step) > 1 then old(step) - 1 else old(step)
      ensures selectedSire == old(selectedSire) && selectedDam == old(selectedDam) && fields == old(fields)
    {
      if step > 1 {
        step := step - 1;
      }
    }

    /** A click on Next: the button exists before step 3 and does nothing
        while disabled. */
    method Next()
      requires Valid()
      modifies this
      ensures Valid()
      ensures step == if old(step) < 3 && !old(NextDisabled()) then old(step) + 1 else old(step)
      ensures selectedSire == old(selectedSire) && selectedDam == old(selectedDam) && fields == old(fields)
    {
      if step < 3 && !NextDisabled() {
        step := step + 1;
      }
    }

    /** `handleSireSelect`, reached from a sire card (shown only at step 1).
        The breed is filled from the sire only while it is still empty. */
    method SelectSire(id: string)
      requires Valid() && step == 1
      requires exists d :: d in MaleDogs(dogs) && d.id == id
      modifies this
      ensures Valid()
      ensures selectedSire == Find(dogs, HasId(id)) && selectedSire.Some? && selectedSire.value.id == id
      ensures old(fields.breed) != "" ==> fields == old(fields)
      ensures old(fields.breed) == "" && Present(selectedSire.value.breed) ==> fields == old(fields).(breed := selectedSire.value.breed.value)
      ensures old(fields.breed) == "" && !Present(selectedSire.value.breed) ==> fields == old(fields)
      ensures step == old(step) && selectedDam == old(selectedDam)
    {
      var dog := Find(dogs, HasId(id));
      selectedSire := dog;
      if dog.Some? && Present(dog.value.breed) && !Truthy(fields.breed) {
        fields := fields.(breed := dog.value.breed.value);
      }
    }

    /** `handleDamSelect`, reached from a dam card (shown only at step 2). */
    method SelectDam(id: string)
      requires Valid() && step == 2
      requires exists d :: d in FemaleDogs(dogs) && d.id == id
      modifies this
      ensures Valid()
      ensures selectedDam == Find(dogs, HasId(id)) && selectedDam.Some? && selectedDam.value.id == id
      ensures step == old(step) && selectedSire == old(selectedSire) && fields == old(fields)
    {
      selectedDam := Find(dogs, HasId(id));
    }

    /** An edit of one detail field (step 3's inputs and selects). */
    method SetField(name: string, value: string)
      requires Valid()
      modifies this
      ensures Valid()
      ensures fields == WithField(old(fields), name, value)
      ensures step == old(step) && selectedSire == old(selectedSire) && selectedDam == old(selectedDam)
    {
      fields := WithField(fields, name, value);
    }

    /** `handleSubmit` from step 3, given the two health-record queries'
        answers and the store's answer to the insert.  Without a breed nothing
        is inserted; otherwise the litter names both selected parents, and
        the page opens the new litter on success or shows the store's error
        on failure. */
    method Submit(userId: string, sireRows: Option<nat>, damRows: Option<nat>, answer: InsertAnswer)
      returns (o: SubmitOutcome)
      requires Valid() && step == 3
      ensures fields.breed == "" <==> o.NoInsert?
      ensures o.NoInsert? ==> o.message == "Please select a breed"
      ensures o.Insert? ==> o.litter == Payload(userId, selectedSire, selectedDam, fields, sireRows, damRows)
      ensures o.Insert? ==> o.litter.row.breed != "" && o.litter.row.breeder_id == userId
      ensures o.Insert? && selectedSire.value.id != "" && selectedDam.value.id != "" ==>
        o.litter.row.sire_id == Some(selectedSire.value.id) && o.litter.row.dam_id == Some(selectedDam.value.id)
      ensures o.Insert? && answer.Created? ==>
        o.toast == SuccessToast("Litter created successfully!") && o.navigateTo == Some("/litter/" + answer.id)
      ensures o.Insert? && answer.Failed? ==>
        && o.navigateTo == None
        && o.toast == ErrorToast(if answer.message != "" then answer.message else "Failed to create litter")
    {
      if !Truthy(fields.breed) {
        return NoInsert("Please select a breed");
      }
      var litter := Payload(userId, selectedSire, selectedDam, fields, sireRows, damRows);
      match answer
      case Created(id) =>
        o := Insert(litter, SuccessToast("Litter created successfully!"), Some("/litter/" + id));
      case Failed(message) =>
        o := Insert(litter, ErrorToast(ErrorText(message, "Failed to create litter")), None);
    }
  }

  /** The sire chosen from the candidates is male, so the same dog is never
      both sire and dam. */
  lemma ChosenSireIsMale(dogs: seq<Dog>, id: string)
    requires forall i, j :: 0 <= i < j < |dogs| ==> dogs[i].id != dogs[j].id
    requires exists d :: d in MaleDogs(dogs) && d.id == id
    ensures Find(dogs, HasId(id)).Some? && Find(dogs, HasId(id)).value.sex == "male"
  {
    var d :| d in MaleDogs(dogs) && d.id == id;
    var k :| 0 <= k < |dogs| && dogs[k] == d;
    FindIsEarliest(dogs, HasId(id), k);
  }
}
