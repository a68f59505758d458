/** The derivations of the litter detail page: the status pill style, the
    four-case price label, the birth/expected date tile, the count tiles,
    the flag badges and the parents' trust-score ring.  Amounts and dates are
    printed by locale formatters, which are parameters here. */
module LitterDetail {
  import opened Common

  // ---------------------------------------------------------------------
  // Status pill

  datatype StatusStyle = StatusStyle(bg: string, text: string, border: string)

  const StatusStyles: map<string, StatusStyle> := map[
    "upcoming" := StatusStyle("bg-yellow-500/20", "text-yellow-400", "border-yellow-500/30"),
    "available" := StatusStyle("bg-[#2ECC71]/20", "text-[#2ECC71]", "border-[#2ECC71]/30"),
    "sold" := StatusStyle("bg-slate-500/20", "text-slate-400", "border-slate-500/30")
  ]

  /** `getStatusBadge`: the style of a known status, else the sold style. */
  function StatusBadge(status: string): (s: StatusStyle)
    ensures status in StatusStyles ==> s == StatusStyles[status]
    ensures status !in StatusStyles ==> s == StatusStyles["sold"]
  {
    if status in StatusStyles then StatusStyles[status] else StatusStyles["sold"]
  }

  /** Only "upcoming" and "available" look different from a sold litter. */
  lemma LooksSoldIffNotListed(status: string)
    ensures StatusBadge(status) == StatusStyles["sold"] <==> status != "upcoming" && status != "available"
  {
  }

  // ---------------------------------------------------------------------
  // Price label

  /** A stored price counts only when it is present and not 0 (0 is falsy). */
  predicate PricePresent(p: Option<int>)
  {
    p.Some? && p.value != 0
  }

  datatype PriceCase = ContactForPrice | Range | From | UpTo

  /** Which of the four labels a pair of prices gets. */
  function CaseOf(min: Option<int>, max: Option<int>): PriceCase
  {
    if !PricePresent(min) && !PricePresent(max) then ContactForPrice
    else if PricePresent(min) && PricePresent(max) then Range
    else if PricePresent(min) then From
    else UpTo
  }

  /** `formatPrice`, with `toLocaleString` as the parameter `fmt`. */
  function FormatPrice(min: Option<int>, max: Option<int>, fmt: int -> string): (r: string)
    ensures !PricePresent(min) && !PricePresent(max) ==> r == "Contact for price"
    ensures PricePresent(min) && PricePresent(max) ==> r == "$" + fmt(min.value) + " - $" + fmt(max.value)
    ensures PricePresent(min) && !PricePresent(max) ==> r == "From $" + fmt(min.value)
    ensures !PricePresent(min) && PricePresent(max) ==> r == "Up to $" + fmt(max.value)
  {
    if !PricePresent(min) && !PricePresent(max) then "Contact for price"
    else if PricePresent(min) && PricePresent(max) then "$" + fmt(min.value) + " - $" + fmt(max.value)
    else if PricePresent(min) then "From $" + fmt(min.value)
    else "Up to $" + fmt(max.value)
  }

  /** Reading a label back: its first character tells the case. */
  function CaseOfLabel(text: string): Option<PriceCase>
  {
    if text == [] then None
    else if text[0] == 'C' then Some(ContactForPrice)
    else if text[0] == '$' then Some(Range)
    else if text[0] == 'F' then Some(From)
    else if text[0] == 'U' then Some(UpTo)
    else None
  }

  /** Whatever the formatter prints, the label tells which prices were set. */
  lemma LabelTellsCase(min: Option<int>, max: Option<int>, fmt: int -> string)
    ensures CaseOfLabel(FormatPrice(min, max, fmt)) == Some(CaseOf(min, max))
  {
    var r := FormatPrice(min, max, fmt);
    match CaseOf(min, max)
    case ContactForPrice => assert r[0] == 'C';
    case Range => assert r[0] == '$';
    case From => assert r[0] == 'F';
    case UpTo => assert r[0] == 'U';
  }

  /** A price of 0 is shown exactly like a missing one. */
  lemma ZeroPriceIsAbsent(min: Option<int>, max: Option<int>, fmt: int -> string)
    ensures FormatPrice(Some(0), max, fmt) == FormatPrice(None, max, fmt)
    ensures FormatPrice(min, Some(0), fmt) == FormatPrice(min, None, fmt)
  {
  }

  // ---------------------------------------------------------------------
  // Dates

  /** `formatDate`: nothing for a missing or empty date, else the formatter's text. */
  function FormatDate(date: Option<string>, fmt: string -> string): (r: Option<string>)
    ensures r.None? <==> !Present(date)
    ensures r.Some? ==> r.value == fmt(date.value)
  {
    if !Present(date) then None else Some(fmt(date.value))
  }

  datatype DateTile = DateTile(caption: string, value: string)

  /** The third stats tile: "Born" with the birth date when one is set, else
      "Expected" with the expected date; "—" when the chosen date is missing
      (or formats to nothing). */
  function BirthTile(born: Option<string>, expected: Option<string>, fmt: string -> string): (t: DateTile)
    ensures t.caption == (if Present(born) then "Born" else "Expected")
    ensures Present(born) ==> t.value == (if fmt(born.value) == "" then "—" else fmt(born.value))
    ensures !Present(born) && !Present(expected) ==> t.value == "—"
    ensures !Present(born) && Present(expected) ==> t.value == (if fmt(expected.value) == "" then "—" else fmt(expected.value))
  {
    var shown := if Present(born) then born else expected;
    var text := match FormatDate(shown, fmt) case None => "" case Some(s) => s;
    DateTile(if Present(born) then "Born" else "Expected", if text == "" then "—" else text)
  }

  // ---------------------------------------------------------------------
  // Count tiles

  /** `puppy_count || '—'`: a missing or zero count shows a dash. */
  function PuppiesText(count: Option<int>): (s: string)
    ensures s == "—" <==> count.None? || count.value == 0
    ensures count.Some? && count.value != 0 ==> ParseInt(s) == Some(count.value)
  {
    match count
    case None => "—"
    case Some(n) =>
      if n == 0 then "—"
      else
        ParseIntRoundTrip(n);
        IntToString(n)
  }

  /** `available_count || 0`: a missing count shows 0, so the tile always
      reads as a number. */
  function AvailableText(count: Option<int>): (s: string)
    ensures ParseInt(s) == Some(match count case None => 0 case Some(n) => n)
  {
    var n := match count case None => 0 case Some(n) => n;
    ParseIntRoundTrip(n);
    IntToString(n)
  }

  // ---------------------------------------------------------------------
  // Badges

  /** The badges under the stats, in page order. */
  function Badges(papersVerified: bool, healthChecked: bool): (bs: seq<string>)
    ensures "Papers Verified" in bs <==> papersVerified
    ensures "Health Checked" in bs <==> healthChecked
    ensures |bs| == (if papersVerified then 1 else 0) + (if healthChecked then 1 else 0)
    ensures papersVerified ==> bs[0] == "Papers Verified"
  {
    (if papersVerified then ["Papers Verified"] else []) + (if healthChecked then ["Health Checked"] else [])
  }

  // ---------------------------------------------------------------------
  // Trust-score ring of a parent card

  /** The ring colour: green from 60, gold from 30, red below; a missing
      score compares false with both and is red. */
  function RingColor(score: Option<int>): (c: string)
    ensures c == "#2ECC71" <==> score.Some? && score.value >= 60
    ensures c == "#C5A55A" <==> score.Some? && 30 <= score.value < 60
    ensures c == "#EF4444" <==> score.None? || score.value < 30
  {
    if score.Some? && score.value >= 60 then "#2ECC71"
    else if score.Some? && score.value >= 30 then "#C5A55A"
    else "#EF4444"
  }

  /** `score || 0`: the number printed in the ring. */
  function ScoreShown(score: Option<int>): int
  {
    match score
    case None => 0
    case Some(s) => s
  }

  /** The ring's colour always agrees with the number printed inside it. */
  lemma RingMatchesShownScore(score: Option<int>)
    ensures RingColor(score) == RingColor(Some(ScoreShown(score)))
  {
  }
}
