/** The derivations of the dog profile page: the Gold/Silver trust badge,
    the six-test health table built from a dog's health records, and the
    age label.  The records arrive from the store as a sequence, already
    ordered by test date, newest first. */
module DogProfile {
  import opened Common

  // ---------------------------------------------------------------------
  // Trust-score badge

  datatype Badge = GoldBadge | SilverBadge
  {
    function Text(): string
    {
      match this
      case GoldBadge => "Gold Badge"
      case SilverBadge => "Silver Badge"
    }

    function Color(): string
    {
      match this
      case GoldBadge => "#C5A55A"
      case SilverBadge => "#94A3B8"
    }
  }

  /** The badge for a stored trust score; an absent score, 0 and anything
      below 60 earn none. */
  function TrustScoreBadge(score: Option<int>): (r: Option<Badge>)
    ensures r == Some(GoldBadge) <==> score.Some? && score.value >= 80
    ensures r == Some(SilverBadge) <==> score.Some? && 60 <= score.value < 80
    ensures r == None <==> score.None? || score.value < 60
  {
    if score.None? || score.value == 0 then None
    else if score.value >= 80 then Some(GoldBadge)
    else if score.value >= 60 then Some(SilverBadge)
    else None
  }

  function BadgeRank(b: Option<Badge>): nat
  {
    match b
    case None => 0
    case Some(SilverBadge) => 1
    case Some(GoldBadge) => 2
  }

  /** A higher score never earns a lesser badge. */
  lemma TrustScoreBadgeMonotone(a: int, b: int)
    requires a <= b
    ensures BadgeRank(TrustScoreBadge(Some(a))) <= BadgeRank(TrustScoreBadge(Some(b)))
  {
  }

  // ---------------------------------------------------------------------
  // Health tests

  /** One row of the `health_records` table. */
  datatype HealthRecord = HealthRecord(test_type: string, verified: bool, result: Option<string>, test_date: Option<Date>)

  /** One entry of the table the page renders (one card per entry). */
  datatype HealthTest = HealthTest(name: string, status: string, result: Option<string>, date: Option<Date>)

  /** The fixed registry of tests the page shows, in display order. */
  const TestTypes: seq<string> := ["OFA Hips", "OFA Elbows", "Cardiac", "Eyes", "DNA Panel", "Patella"]

  function OfType(testType: string): HealthRecord -> bool
  {
    (r: HealthRecord) => r.test_type == testType
  }

  /** The entry for one registry test: the first record of that type, or a
      "missing" placeholder. */
  function FormatHealthTest(records: seq<HealthRecord>, testType: string): HealthTest
  {
    match Find(records, OfType(testType))
    case Some(record) =>
      HealthTest(record.test_type, if record.verified then "verified" else "pending", record.result, record.test_date)
    case None =>
      HealthTest(testType, "missing", Some("Not Done"), None)
  }

  /** The six entries, one per registry test, in registry order; every status
      is one of verified, pending, missing (never uploaded). */
  function FormatHealthTests(records: seq<HealthRecord>): (tests: seq<HealthTest>)
    ensures |tests| == |TestTypes| == 6
    ensures forall i :: 0 <= i < 6 ==> tests[i].name == TestTypes[i]
    ensures forall i :: 0 <= i < 6 ==> tests[i].status in {"verified", "pending", "missing"}
  {
    seq(|TestTypes|, i requires 0 <= i < |TestTypes| => FormatHealthTest(records, TestTypes[i]))
  }

  /** An entry is missing, with result "Not Done" and no date, exactly when
      no record carries its test type. */
  lemma MissingIffNoRecord(records: seq<HealthRecord>, i: nat)
    requires i < 6
    ensures FormatHealthTests(records)[i].status == "missing"
        <==> forall k :: 0 <= k < |records| ==> records[k].test_type != TestTypes[i]
    ensures FormatHealthTests(records)[i].status == "missing"
        ==> FormatHealthTests(records)[i].result == Some("Not Done") && FormatHealthTests(records)[i].date == None
  {
    var t := TestTypes[i];
    assert forall k :: 0 <= k < |records| ==> (OfType(t)(records[k]) <==> records[k].test_type == t);
  }

  /** The first record of a registry type decides its entry: verified or
      pending by its flag, result and date copied from it. */
  lemma FirstRecordDecides(records: seq<HealthRecord>, i: nat, k: nat)
    requires i < 6 && k < |records|
    requires records[k].test_type == TestTypes[i]
    requires forall j :: 0 <= j < k ==> records[j].test_type != TestTypes[i]
    ensures FormatHealthTests(records)[i]
         == HealthTest(TestTypes[i], if records[k].verified then "verified" else "pending",
                       records[k].result, records[k].test_date)
  {
    FindIsEarliest(records, OfType(TestTypes[i]), k);
  }

  predicate InRegistry(r: HealthRecord)
  {
    r.test_type in TestTypes
  }

  /** Records whose test type is not in the registry never affect the table. */
  lemma {:induction false} UnregisteredRecordsIgnored(records: seq<HealthRecord>)
    ensures FormatHealthTests(records) == FormatHealthTests(Filter(records, InRegistry))
  {
    var kept := Filter(records, InRegistry);
    forall i | 0 <= i < 6
      ensures FormatHealthTests(records)[i] == FormatHealthTests(kept)[i]
    {
      var p := OfType(TestTypes[i]);
      assert forall x :: p(x) ==> InRegistry(x);
      FindThroughFilter(records, p, InRegistry);
    }
  }

  /** `a` is at least as recent as `b` in the store's descending order, where
      a missing date sorts first. */
  predicate NewerOrSame(a: Option<Date>, b: Option<Date>)
  {
    a.None? || (b.Some? && DateLe(b.value, a.value))
  }

  /** The order in which the store returns the records (test date descending). */
  predicate NewestFirst(records: seq<HealthRecord>)
  {
    forall j, k :: 0 <= j < k < |records| ==> NewerOrSame(records[j].test_date, records[k].test_date)
  }

  /** With the store's ordering, each entry shows the most recent record of
      its type, so older duplicates never win. */
  lemma MostRecentRecordWins(records: seq<HealthRecord>, i: nat, k: nat)
    requires NewestFirst(records)
    requires i < 6 && k < |records| && records[k].test_type == TestTypes[i]
    ensures FormatHealthTests(records)[i].status != "missing"
    ensures NewerOrSame(FormatHealthTests(records)[i].date, records[k].test_date)
  {
    var p := OfType(TestTypes[i]);
    assert p(records[k]);
    var f := FindIndex(records, p).value;
    FirstRecordDecides(records, i, f);
    if f != k {
      assert f < k;
    } else if records[k].test_date.Some? {
      assert DateLe(records[k].test_date.value, records[k].test_date.value);
    }
  }

  // ---------------------------------------------------------------------
  // Age

  /** The label for a date of birth given the current calendar year and month:
      the difference of calendar years when positive, else the difference of
      months; the unit gets an 's' only above 1. */
  function CalculateAge(dob: Option<Date>, today: Date): string
  {
    match dob
    case None => "N/A"
    case Some(birth) =>
      var years := today.year - birth.year;
      var months := today.month - birth.month;
      if years > 0 then IntToString(years) + " year" + (if years > 1 then "s" else "")
      else IntToString(months) + " month" + (if months > 1 then "s" else "")
  }

  /** What the age label says: "N/A" without a date of birth; otherwise its
      number is read back by `parseInt`, its unit is years exactly when the
      calendar years differ by more than 0, and it is plural exactly when
      that number exceeds 1. */
  lemma AgeLabelMeaning(birth: Date, today: Date)
    ensures CalculateAge(None, today) == "N/A"
    ensures var text := CalculateAge(Some(birth), today);
            var years := today.year - birth.year;
            var n := if years > 0 then years else today.month - birth.month;
            && ParseInt(text) == Some(n)
            && text == IntToString(n) + (if years > 0 then " year" else " month") + (if n > 1 then "s" else "")
  {
    var years := today.year - birth.year;
    var n := if years > 0 then years else today.month - birth.month;
    var unit := (if years > 0 then " year" else " month") + (if n > 1 then "s" else "");
    ParseIntReadsPrefix(n, unit);
    assert IntToString(n) + unit == IntToString(n) + (if years > 0 then " year" else " month") + (if n > 1 then "s" else "");
  }

  /** A dog born in December is labelled one year old in the next January. */
  lemma CalendarYearAgeOverstates()
    ensures CalculateAge(Some(Date(2023, 12, 1)), Date(2024, 1, 15)) == "1 year"
    ensures CalculateAgeInMonths(Some(Date(2023, 12, 1)), Date(2024, 1, 15)) == "1 month"
  {
  }

  /** The number of whole calendar months from `birth` to `today`: the month
      difference, less one while the day of the month has not come round. */
  function MonthsElapsed(birth: Date, today: Date): int
  {
    (today.year - birth.year) * 12 + (today.month - birth.month) - (if today.day < birth.day then 1 else 0)
  }

  /** Months counted from year 0, for dates whose month is 1..12. */
  function MonthIndex(d: Date): int
  {
    d.year * 12 + d.month - 1
  }

  /** `d` moved `k` months on, keeping its day of the month. */
  function AddMonths(d: Date, k: int): Date
  {
    var total := MonthIndex(d) + k;
    Date(total / 12, total % 12 + 1, d.day)
  }

  lemma AddMonthsIndex(d: Date, k: int)
    ensures 1 <= AddMonths(d, k).month <= 12
    ensures MonthIndex(AddMonths(d, k)) == MonthIndex(d) + k
    ensures AddMonths(d, k).day == d.day
  {
  }

  /** For dates with months in 1..12, date order is month-index order, then day order. */
  lemma DateLeByIndex(a: Date, b: Date)
    requires 1 <= a.month <= 12 && 1 <= b.month <= 12
    ensures DateLe(a, b) <==> MonthIndex(a) < MonthIndex(b) || (MonthIndex(a) == MonthIndex(b) && a.day <= b.day)
  {
  }

  /** The elapsed count is exact: that many months after the birth date is
      on or before today, and one more month is after it. */
  lemma MonthsElapsedIsWhole(birth: Date, today: Date)
    requires 1 <= birth.month <= 12 && 1 <= today.month <= 12
    ensures DateLe(AddMonths(birth, MonthsElapsed(birth, today)), today)
    ensures !DateLe(AddMonths(birth, MonthsElapsed(birth, today) + 1), today)
  {
    var m := MonthsElapsed(birth, today);
    AddMonthsIndex(birth, m);
    AddMonthsIndex(birth, m + 1);
    DateLeByIndex(AddMonths(birth, m), today);
    DateLeByIndex(AddMonths(birth, m + 1), today);
  }

  /** Age from the number of whole calendar months elapsed: whole years once
      that reaches 12, otherwise months. */
  function CalculateAgeInMonths(dob: Option<Date>, today: Date): string
  {
    match dob
    case None => "N/A"
    case Some(birth) =>
      var elapsed := MonthsElapsed(birth, today);
      if elapsed >= 12 then
        var years := elapsed / 12;
        IntToString(years) + " year" + (if years > 1 then "s" else "")
      else IntToString(elapsed) + " month" + (if elapsed > 1 then "s" else "")
  }

  /** The corrected label: "N/A" without a date of birth; from 12 whole
      months on, the whole years elapsed with the unit " year"; below that,
      the whole months with the unit " month"; plural exactly above 1, and
      the number read back by `parseInt`. */
  lemma AgeInMonthsMeaning(birth: Date, today: Date)
    ensures CalculateAgeInMonths(None, today) == "N/A"
    ensures var text := CalculateAgeInMonths(Some(birth), today);
            var elapsed := MonthsElapsed(birth, today);
            var n := if elapsed >= 12 then elapsed / 12 else elapsed;
            && ParseInt(text) == Some(n)
            && text == IntToString(n) + (if elapsed >= 12 then " year" else " month") + (if n > 1 then "s" else "")
  {
    var elapsed := MonthsElapsed(birth, today);
    var n := if elapsed >= 12 then elapsed / 12 else elapsed;
    var unit := (if elapsed >= 12 then " year" else " month") + (if n > 1 then "s" else "");
    ParseIntReadsPrefix(n, unit);
    assert CalculateAgeInMonths(Some(birth), today) == IntToString(n) + unit;
  }
}
