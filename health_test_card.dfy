/** One card of the dog profile's health table: a test id derived from the
    test name, the status badge, and result and date lines shown only when
    there is something to show. */
module HealthTestCard {
  import opened Common
  import DogProfile
  import VerifiedBadge

  /** `replace(/\s+/g, '-')`: every maximal run of white space becomes one '-'. */
  function CollapseSpaces(s: string): (r: string)
    ensures |r| <= |s|
    decreases |s|
  {
    if s == [] then []
    else if IsSpace(s[0]) then "-" + CollapseSpaces(TrimStart(s))
    else [s[0]] + CollapseSpaces(s[1..])
  }

  /** No white space survives collapsing. */
  lemma {:induction false} CollapseSpacesNoSpace(s: string)
    ensures forall i :: 0 <= i < |CollapseSpaces(s)| ==> !IsSpace(CollapseSpaces(s)[i])
    decreases |s|
  {
    if s == [] {
    } else if IsSpace(s[0]) {
      CollapseSpacesNoSpace(TrimStart(s));
      assert CollapseSpaces(s) == "-" + CollapseSpaces(TrimStart(s));
    } else {
      CollapseSpacesNoSpace(s[1..]);
      assert CollapseSpaces(s) == [s[0]] + CollapseSpaces(s[1..]);
    }
  }

  /** The card's `data-testid`. */
  function TestId(name: string): string
  {
    "health-test-" + CollapseSpaces(ToLower(name))
  }

  /** The part of the test id after the fixed prefix never holds white space. */
  lemma {:induction false} TestIdSlugHasNoSpace(name: string)
    ensures var id := TestId(name);
            |id| >= 12 && id[..12] == "health-test-"
            && forall i :: 12 <= i < |id| ==> !IsSpace(id[i])
  {
    var slug := CollapseSpaces(ToLower(name));
    CollapseSpacesNoSpace(ToLower(name));
    assert forall i :: 12 <= i < |TestId(name)| ==> TestId(name)[i] == slug[i - 12];
  }

  /** A name without white space is only lower-cased. */
  lemma {:induction false} CollapseSpacesIdentity(s: string)
    requires forall i :: 0 <= i < |s| ==> !IsSpace(s[i])
    ensures CollapseSpaces(s) == s
  {
    if s != [] {
      CollapseSpacesIdentity(s[1..]);
    }
  }

  /** Collapsing is idempotent: a slug is its own slug. */
  lemma {:induction false} CollapseSpacesIdempotent(s: string)
    ensures CollapseSpaces(CollapseSpaces(s)) == CollapseSpaces(s)
  {
    CollapseSpacesNoSpace(s);
    CollapseSpacesIdentity(CollapseSpaces(s));
  }

  lemma {:induction false} TrimStartAppend(a: string, b: string)
    requires a != [] && !IsSpace(a[|a| - 1])
    ensures TrimStart(a + b) == TrimStart(a) + b
    ensures TrimStart(a) != [] && TrimStart(a)[|TrimStart(a)| - 1] == a[|a| - 1]
    decreases |a|
  {
    assert (a + b)[0] == a[0];
    if IsSpace(a[0]) {
      TrimStartAppend(a[1..], b);
      assert (a + b)[1..] == a[1..] + b;
    }
  }

  lemma {:induction false} TrimStartRun(run: string, b: string)
    requires forall i :: 0 <= i < |run| ==> IsSpace(run[i])
    requires b == [] || !IsSpace(b[0])
    ensures TrimStart(run + b) == b
    decreases |run|
  {
    if run != [] {
      assert (run + b)[0] == run[0];
      assert (run + b)[1..] == run[1..] + b;
      assert TrimStart(run[1..] + b) == b by { TrimStartRun(run[1..], b); }
    }
  }

  lemma {:induction false} RunAtStart(run: string, b: string)
    requires run != [] && forall i :: 0 <= i < |run| ==> IsSpace(run[i])
    requires b == [] || !IsSpace(b[0])
    ensures CollapseSpaces(run + b) == "-" + CollapseSpaces(b)
  {
    assert (run + b)[0] == run[0];
    TrimStartRun(run, b);
  }

  lemma {:induction false} CollapseAtSpace(s: string)
    requires s != [] && IsSpace(s[0])
    ensures CollapseSpaces(s) == "-" + CollapseSpaces(TrimStart(s))
  {
  }

  lemma {:induction false} CollapseAtWord(s: string)
    requires s != [] && !IsSpace(s[0])
    ensures CollapseSpaces(s) == [s[0]] + CollapseSpaces(s[1..])
  {
  }

  lemma {:induction false} ConcatAssoc3(h: string, x: string, y: string)
    ensures h + (x + "-" + y) == h + x + "-" + y
  {
  }

  lemma {:induction false} SplitHead(a: string, run: string, b: string)
    requires a != []
    ensures (a + run + b)[0] == a[0] && (a + run + b)[1..] == a[1..] + run + b
  {
  }

  lemma {:induction false} RunAfterSpace(a: string, run: string, b: string)
    requires a != [] && IsSpace(a[0]) && !IsSpace(a[|a| - 1])
    requires CollapseSpaces(TrimStart(a) + run + b) == CollapseSpaces(TrimStart(a)) + "-" + CollapseSpaces(b)
    ensures CollapseSpaces(a + run + b) == CollapseSpaces(a) + "-" + CollapseSpaces(b)
  {
    var s := a + run + b;
    var t := TrimStart(a);
    assert TrimStart(s) == t + run + b by {
      TrimStartAppend(a, run + b);
      assert s == a + (run + b);
    }
    assert s[0] == a[0];
    CollapseAtSpace(s);
    CollapseAtSpace(a);
    ConcatAssoc3("-", CollapseSpaces(t), CollapseSpaces(b));
  }

  lemma {:induction false} RunAfterWord(a: string, run: string, b: string)
    requires a != [] && !IsSpace(a[0])
    requires CollapseSpaces(a[1..] + run + b) == CollapseSpaces(a[1..]) + "-" + CollapseSpaces(b)
    ensures CollapseSpaces(a + run + b) == CollapseSpaces(a) + "-" + CollapseSpaces(b)
  {
    var s := a + run + b;
    SplitHead(a, run, b);
    CollapseAtWord(s);
    CollapseAtWord(a);
    ConcatAssoc3([a[0]], CollapseSpaces(a[1..]), CollapseSpaces(b));
  }

  /** A white-space run between two words becomes a single '-' between the
      slugs of the words. */
  lemma {:induction false} CollapseSpacesRun(a: string, run: string, b: string)
    requires a == [] || !IsSpace(a[|a| - 1])
    requires run != [] && forall i :: 0 <= i < |run| ==> IsSpace(run[i])
    requires b == [] || !IsSpace(b[0])
    ensures CollapseSpaces(a + run + b) == CollapseSpaces(a) + "-" + CollapseSpaces(b)
    decreases |a|
  {
    if a == [] {
      RunAtStart(run, b);
      assert a + run + b == run + b;
    } else if IsSpace(a[0]) {
      TrimStartAppend(a, []);
      CollapseSpacesRun(TrimStart(a), run, b);
      RunAfterSpace(a, run, b);
    } else {
      CollapseSpacesRun(a[1..], run, b);
      RunAfterWord(a, run, b);
    }
  }

  lemma {:induction false} LowerKeepsNoSpace(s: string)
    requires forall i :: 0 <= i < |s| ==> !IsSpace(s[i])
    ensures forall i :: 0 <= i < |s| ==> !IsSpace(ToLower(s)[i])
  {
  }

  /** A one-word name's id is the prefix and the lower-cased name. */
  lemma {:induction false} OneWordId(w: string)
    requires forall i :: 0 <= i < |w| ==> !IsSpace(w[i])
    ensures TestId(w) == "health-test-" + ToLower(w)
  {
    LowerKeepsNoSpace(w);
    CollapseSpacesIdentity(ToLower(w));
  }

  lemma {:induction false} LowerTwoWords(a: string, b: string)
    ensures ToLower(a + " " + b) == ToLower(a) + " " + ToLower(b)
  {
    ToLowerAppend(a, " ");
    ToLowerAppend(a + " ", b);
    assert ToLower(" ") == " ";
  }

  lemma {:induction false} CollapseTwoWords(a: string, b: string)
    requires a != [] && forall i :: 0 <= i < |a| ==> !IsSpace(a[i])
    requires b != [] && forall i :: 0 <= i < |b| ==> !IsSpace(b[i])
    ensures CollapseSpaces(a + " " + b) == a + "-" + b
  {
    CollapseSpacesRun(a, " ", b);
    CollapseSpacesIdentity(a);
    CollapseSpacesIdentity(b);
  }

  /** A two-word name's id joins the lower-cased words with one '-'. */
  lemma {:induction false} TwoWordId(a: string, b: string)
    requires a != [] && forall i :: 0 <= i < |a| ==> !IsSpace(a[i])
    requires b != [] && forall i :: 0 <= i < |b| ==> !IsSpace(b[i])
    ensures TestId(a + " " + b) == "health-test-" + ToLower(a) + "-" + ToLower(b)
  {
    LowerKeepsNoSpace(a);
    LowerKeepsNoSpace(b);
    LowerTwoWords(a, b);
    CollapseTwoWords(ToLower(a), ToLower(b));
  }

  /** What a card renders. */
  datatype Card = Card(testId: string, title: string, badge: VerifiedBadge.Props,
                       resultLine: Option<string>, dateLine: Option<Date>)

  function Render(test: DogProfile.HealthTest): (c: Card)
    ensures c.testId == TestId(test.name) && c.title == test.name
    ensures c.badge.status == Some(test.status) && c.badge.text == None && c.badge.size == Some("small")
    ensures c.resultLine.Some? <==> Present(test.result)
    ensures c.resultLine.Some? ==> c.resultLine == test.result
    ensures c.dateLine == test.date
  {
    Card(TestId(test.name), test.name, VerifiedBadge.Props(Some(test.status), None, Some("small")),
         if Present(test.result) then test.result else None,
         test.date)
  }

  /** A test with no record shows the "Not Done" badge and result line and no date. */
  lemma MissingTestCard(records: seq<DogProfile.HealthRecord>, i: nat)
    requires i < 6
    requires forall k :: 0 <= k < |records| ==> records[k].test_type != DogProfile.TestTypes[i]
    ensures var c := Render(DogProfile.FormatHealthTests(records)[i]);
            VerifiedBadge.Render(c.badge).text == "Not Done"
            && c.resultLine == Some("Not Done") && c.dateLine.None?
  {
    DogProfile.MissingIffNoRecord(records, i);
  }

  /** Every card of the health table uses its status's own badge, never the fallback. */
  lemma TableBadgesAreKnown(records: seq<DogProfile.HealthRecord>, i: nat)
    requires i < 6
    ensures DogProfile.FormatHealthTests(records)[i].status in VerifiedBadge.Configs
  {
  }
}
