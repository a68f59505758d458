# Breeder marketplace front end: a verified model of its derivations

The front end of a dog-breeding marketplace (React pages over a hosted
Postgres store) mostly renders rows. What it decides for itself is modelled
here:

- the Gold/Silver trust badge and the six-entry health-test table of a dog's
  profile, with the dog's age label;
- the verified-badge status pill and the health-test card with its test id;
- the trust-score gauge: its colour and its four-category breakdown;
- the litter detail page: the status pill, the four-case price label, the
  date tile, the count tiles, the flag badges and the parents' score ring;
- the litter listing: the filter-to-query construction, Clear Filters, the
  results line and the litter cards;
- the breeder search: its breed and minimum-score filter and its reset;
- the two litter forms and the add-dog form: their checks in order and the
  rows they insert. The three-step litter wizard is a class whose step
  counter and parent selections change click by click;
- the mock session: login and sign-up write three keys into the browser's
  local storage, and the route guard reads them back to decide between the
  page and a redirect.

Store queries, inserts and the session lookup are inputs or outputs of the
model: a query result is a sequence, an insert is the row returned, and
"the insert succeeded" or "there is a session" is a boolean parameter.
Locale formatters (`toLocaleString`, `toLocaleDateString`) are function
parameters. The clock (`Date.now()`, today's date) is a parameter.

One Dafny module per source file, plus `Common` (options, filtering,
finding, ASCII lower-casing, and `parseInt`/number printing with their round
trip) and `LitterRecords` (the litter row both litter forms insert).

## Model

| member | source | states |
|---|---|---|
| DogProfile.TrustScoreBadge | frontend/src/pages/DogProfile.jsx:92-97 | Gold exactly when the score is at least 80, Silver exactly when it is 60 to 79, no badge exactly when the score is absent or below 60 (0 included) |
| DogProfile.TrustScoreBadgeMonotone | frontend/src/pages/DogProfile.jsx:92-97 | a higher score never earns a lesser badge |
| DogProfile.FormatHealthTests | frontend/src/pages/DogProfile.jsx:100-122 | always six entries, named OFA Hips, OFA Elbows, Cardiac, Eyes, DNA Panel, Patella in that order; every status is verified, pending or missing, never uploaded |
| DogProfile.MissingIffNoRecord | frontend/src/pages/DogProfile.jsx:104-120 | an entry is missing, with result "Not Done" and no date, exactly when no record has that test type |
| DogProfile.FirstRecordDecides | frontend/src/pages/DogProfile.jsx:104-112 | the first record of a type decides its entry: verified when the record is verified, else pending, with the record's result and date |
| DogProfile.UnregisteredRecordsIgnored | frontend/src/pages/DogProfile.jsx:101-104 | records whose test type is outside the six never change the table |
| DogProfile.MostRecentRecordWins | frontend/src/pages/DogProfile.jsx:51-56 | with the records in test-date descending order, as the query returns them, each entry shows a record at least as recent as every record of its type |
| DogProfile.AgeLabelMeaning | frontend/src/pages/DogProfile.jsx:80-89 | as written: no birth date gives "N/A"; otherwise the number in the label is the calendar-year difference when positive, else the month difference, and parseInt reads it back; years or months; plural exactly above 1 |
| DogProfile.CalendarYearAgeOverstates | frontend/src/pages/DogProfile.jsx:84-87 | a dog born in December 2023 is labelled "1 year" in January 2024; the corrected label says "1 month" |
| DogProfile.AgeInMonthsMeaning | frontend/src/pages/DogProfile.jsx:80-89 | corrected: no birth date gives "N/A"; otherwise, with m the whole months elapsed (one fewer when today's day of the month is before the birth day), the label is m div 12 followed by " year" from 12 months on, else m followed by " month", with an "s" exactly when the number is above 1, and parseInt reads the number back |
| DogProfile.MonthsElapsedIsWhole | frontend/src/pages/DogProfile.jsx:80-89 | the months counted have fully elapsed: the birth date moved forward by that many months is on or before today, and moved forward by one more month is after today |
| VerifiedBadge.ConfigFor | frontend/src/components/VerifiedBadge.jsx:17-40 | a known status gets its own configuration, any other the verified one |
| VerifiedBadge.DefaultProps | frontend/src/components/VerifiedBadge.jsx:4 | with no props the badge is the default-size verified badge reading "Auto-Verified" |
| VerifiedBadge.DefaultTexts | frontend/src/components/VerifiedBadge.jsx:17-38 | verified, uploaded, pending and missing read Auto-Verified, Uploaded, Pending and Not Done |
| VerifiedBadge.UnknownStatusLooksVerified | frontend/src/components/VerifiedBadge.jsx:40 | an unrecognised status renders like verified, apart from its test id |
| VerifiedBadge.TextOverrides | frontend/src/components/VerifiedBadge.jsx:49 | a non-empty text replaces the default text whatever the status |
| VerifiedBadge.KnownStatusesDistinct | frontend/src/components/VerifiedBadge.jsx:17-38 | two different known statuses never share an icon |
| HealthTestCard.CollapseSpacesNoSpace | frontend/src/components/HealthTestCard.jsx:9 | after replacing whitespace runs no whitespace is left |
| HealthTestCard.TestIdSlugHasNoSpace | frontend/src/components/HealthTestCard.jsx:9 | the test id is "health-test-" followed by a slug containing no whitespace |
| HealthTestCard.CollapseSpacesIdentity | frontend/src/components/HealthTestCard.jsx:9 | a name without whitespace is left as it is |
| HealthTestCard.CollapseSpacesIdempotent | frontend/src/components/HealthTestCard.jsx:9 | replacing whitespace runs twice gives the same text as once |
| HealthTestCard.CollapseSpacesRun | frontend/src/components/HealthTestCard.jsx:9 | a maximal whitespace run between two words becomes exactly one "-" |
| HealthTestCard.OneWordId | frontend/src/components/HealthTestCard.jsx:9 | a one-word name's id is "health-test-" plus the lower-cased name |
| HealthTestCard.TwoWordId | frontend/src/components/HealthTestCard.jsx:9 | a two-word name's id is the two lower-cased words joined by "-" after "health-test-" |
| HealthTestCard.Render | frontend/src/components/HealthTestCard.jsx:9-27 | the card's test id is the name's id and its title the name; the badge gets the test's status unchanged in the small size; the result line is shown exactly when the result is non-empty; the date line exactly when there is a date |
| HealthTestCard.MissingTestCard | frontend/src/components/HealthTestCard.jsx:13-22 | a test with no record shows a "Not Done" badge, the result "Not Done" and no date |
| HealthTestCard.TableBadgesAreKnown | frontend/src/components/HealthTestCard.jsx:13 | every status the profile table passes to the badge is one the badge knows |
| TrustScoreGauge.ScoreColor | frontend/src/components/TrustScoreGauge.jsx:23-27 | green exactly from 90, yellow exactly from 60 to 89, red exactly below 60 |
| TrustScoreGauge.Breakdown | frontend/src/components/TrustScoreGauge.jsx:29-34 | four rows in category order with weights 40, 25, 20, 15; each row's points are at most its weight and at least a third of it |
| TrustScoreGauge.WeightsSumTo100 | frontend/src/components/TrustScoreGauge.jsx:29-34 | the weights add up to 100 |
| TrustScoreGauge.TotalIsStep | frontend/src/components/TrustScoreGauge.jsx:29-34 | the points total 94 from 90, 77 from 60 to 89, and 50 below 60 |
| TrustScoreGauge.PointsMonotone | frontend/src/components/TrustScoreGauge.jsx:29-34 | a higher score never shows fewer points in any category |
| TrustScoreGauge.ColorMatchesBreakdown | frontend/src/components/TrustScoreGauge.jsx:23-34 | two scores share a colour exactly when they share a breakdown, so both use the same thresholds |
| TrustScoreGauge.Render | frontend/src/components/TrustScoreGauge.jsx:95-118 | the tooltip with the "Trust Score Breakdown" rows is attached exactly when showBreakdown is not true (omitted or false); the colour is the score's |
| TrustScoreGauge.DefaultHasTooltip | frontend/src/components/TrustScoreGauge.jsx:10 | omitting showBreakdown renders the same as passing false: the gauge in the tooltip with the score's breakdown |
| LitterDetail.StatusBadge | frontend/src/pages/LitterDetailPage.jsx:40-47 | upcoming, available and sold get their own styles, any other status the sold style |
| LitterDetail.LooksSoldIffNotListed | frontend/src/pages/LitterDetailPage.jsx:40-47 | a status looks sold exactly when it is neither upcoming nor available |
| LitterDetail.FormatPrice | frontend/src/pages/LitterDetailPage.jsx:49-54 | "Contact for price" with neither price, "$min - $max" with both, "From $min" or "Up to $max" with one; 0 counts as absent |
| LitterDetail.LabelTellsCase | frontend/src/pages/LitterDetailPage.jsx:49-54 | whatever the formatter prints, the label tells which prices were set |
| LitterDetail.ZeroPriceIsAbsent | frontend/src/pages/LitterDetailPage.jsx:50-53 | a price of 0 gives the same label as a missing one |
| LitterDetail.FormatDate | frontend/src/pages/LitterDetailPage.jsx:56-63 | null exactly for a missing or empty date, else the formatter's text |
| LitterDetail.BirthTile | frontend/src/pages/LitterDetailPage.jsx:234-237 | captioned Born exactly when a birth date is set, then showing it; otherwise Expected with the expected date; "—" when the chosen date is missing or formats to empty text |
| LitterDetail.PuppiesText | frontend/src/pages/LitterDetailPage.jsx:222 | "—" exactly for a missing or zero count; otherwise text parseInt reads back as the count |
| LitterDetail.AvailableText | frontend/src/pages/LitterDetailPage.jsx:229 | always a number: the count, or 0 when it is missing |
| LitterDetail.Badges | frontend/src/pages/LitterDetailPage.jsx:253-262 | Papers Verified and Health Checked appear exactly when their stored flags are true, in that order |
| LitterDetail.RingColor | frontend/src/pages/LitterDetailPage.jsx:91 | green exactly from 60, gold exactly from 30 to 59, red exactly below 30 or without a score |
| LitterDetail.RingMatchesShownScore | frontend/src/pages/LitterDetailPage.jsx:91-100 | the ring's colour agrees with the number printed in it (0 for a missing score) |
| BrowseLitters.FetchIsConjunction | frontend/src/pages/BrowseLittersPage.jsx:52-63 | the chain of query narrowings equals one filter by the conjunction of the four conditions; "All Breeds", "all" and empty price fields add nothing |
| BrowseLitters.FetchMeaning | frontend/src/pages/BrowseLittersPage.jsx:50-65 | a litter is listed exactly when it is stored and matches every active filter; the listing is a subsequence of the store's rows, still newest first |
| BrowseLitters.MorePriceBoundNeverAdds | frontend/src/pages/BrowseLittersPage.jsx:58-60 | setting or raising the minimum price never brings a litter back |
| BrowseLitters.ClearShowsEverything | frontend/src/pages/BrowseLittersPage.jsx:177-194 | after Clear Filters every litter is listed and the empty-state panel offers no Clear Filters button |
| BrowseLitters.ClearOfferedMeaning | frontend/src/pages/BrowseLittersPage.jsx:177-194 | Clear Filters is offered exactly when the breed or status filter is set and no litter matches the filters, since the button lives in the panel shown only for an empty listing |
| BrowseLitters.ClearIgnoresPrices | frontend/src/pages/BrowseLittersPage.jsx:184-188 | price bounds never decide whether Clear Filters is offered |
| BrowseLitters.ResultsLine | frontend/src/pages/BrowseLittersPage.jsx:282-285 | the line is shown exactly when there is a result, reads "Showing " followed by a number parseInt reads back as the count, and ends in "s" exactly when the count is not 1 |
| BrowseLitters.StatusClass | frontend/src/pages/BrowseLittersPage.jsx:75-82 | a known status gets its classes, any other the sold classes |
| BrowseLitters.RenderCard | frontend/src/pages/BrowseLittersPage.jsx:91-130 | links to the litter and shows its breed; "?" puppies exactly for a missing or zero count, otherwise a text parseInt reads back as the count; an available text that reads back as the count, or 0 when it is missing; the detail page's price label and status fallback; the badges exactly for the true flags |
| Search.FilteredBreeders | frontend/src/pages/SearchPage.jsx:24-28 | a breeder is shown exactly when it is listed, offers the chosen breed (or breed is "all") and meets a positive minimum score |
| Search.ResultIsStableSubsequence | frontend/src/pages/SearchPage.jsx:24-28 | the result keeps the list order, and filtering it again changes nothing |
| Search.BreedCondition | frontend/src/pages/SearchPage.jsx:25 | with no score minimum, "all" keeps every breeder and any other breed keeps exactly those listing it |
| Search.RaisingMinimumNeverAdds | frontend/src/pages/SearchPage.jsx:26 | raising the minimum trust score never adds a breeder |
| Search.LocationAndPriceIgnored | frontend/src/pages/SearchPage.jsx:17-28 | location and price range never change the result |
| Search.ResetShowsAll | frontend/src/pages/SearchPage.jsx:112 | after Reset Filters every breeder is shown |
| LitterRecords.ParsedCountMeaning | frontend/src/pages/AddLitterPage.jsx:106-107 | an empty count is null and a count typed as a number arrives as that number |
| LitterRecords.RowNormalises | frontend/src/pages/AddLitterPage.jsx:99-112 | breeder, parents, breed and status are copied; dates, prices and description are null exactly when empty and otherwise carry the text typed; empty counts are null |
| LitterRecords.RowCounts | frontend/src/pages/CreateLitterPage.jsx:112-113 | counts typed as numbers arrive as those numbers |
| LitterRecords.SetThenGet | frontend/src/pages/CreateLitterPage.jsx:76-82 | writing a field is read back and no other field changes; an unknown name changes nothing the row reads |
| LitterRecords.ErrorText | frontend/src/pages/AddLitterPage.jsx:121 | the error toast shows the store's message when it is non-empty and the page's fallback text otherwise |
| AddLitter.ParentId | frontend/src/pages/AddLitterPage.jsx:101-102 | null exactly for the sentinel "none", any other value unchanged |
| AddLitter.HandleSubmit | frontend/src/pages/AddLitterPage.jsx:85-125 | an empty breed is refused first and an empty status second, neither inserting; otherwise the payload is inserted; on success a "Litter added successfully!" toast and the dashboard, on failure the store's message (or "Failed to add litter. Please try again.") and no navigation |
| AddLitter.InitialFormMeaning | frontend/src/pages/AddLitterPage.jsx:43-55 | the form starts with no breed and status "upcoming"; once a breed is picked both parents, both dates, both counts, both prices and the description are null |
| AddLitter.PayloadMeaning | frontend/src/pages/AddLitterPage.jsx:99-112 | only "none" makes a parent null, the empty text of the "None" item is sent as it is; the breeder is the current user and the status is copied |
| AddDog.PayloadMeaning | frontend/src/pages/AddDogPage.jsx:56-67 | owner is the current user, names and breed copied, call name, birth date, colour and registration number null exactly when empty and copied otherwise, sex the lower-cased form sex and so with no capital |
| AddDog.HandleSubmit | frontend/src/pages/AddDogPage.jsx:29-67 | a missing sex is refused first, then a missing registered name or breed, then a missing session redirects to /login; a row is sent exactly when all three pass |
| AddDog.SexOptionsLowercase | frontend/src/pages/AddDogPage.jsx:195-196 | the options "Male" and "Female" are sent as "male" and "female" |
| AddDog.AddedDogJoinsPartition | frontend/src/pages/AddDogPage.jsx:61 | a dog added as Male is offered by the litter wizard as a sire and not as a dam, and a Female one the other way round |
| CreateLitter.MaleDogs | frontend/src/pages/CreateLitterPage.jsx:60 | exactly the loaded dogs whose sex is "male" |
| CreateLitter.FemaleDogs | frontend/src/pages/CreateLitterPage.jsx:61 | exactly the loaded dogs whose sex is "female" |
| CreateLitter.PartitionMeaning | frontend/src/pages/CreateLitterPage.jsx:60-61 | both lists keep the load order, no dog is in both, and a dog of neither sex is in neither |
| CreateLitter.PapersVerified | frontend/src/pages/CreateLitterPage.jsx:93 | true exactly when both parents are selected and both have a non-empty registration number |
| CreateLitter.HealthChecked | frontend/src/pages/CreateLitterPage.jsx:96-103 | true exactly when both parents are selected and each one's health-record query returned a row |
| CreateLitter.ParentId | frontend/src/pages/CreateLitterPage.jsx:107-108 | null without a selected parent or when its id is empty, the parent's id when it is non-empty |
| CreateLitter.FlagsNeedBothParents | frontend/src/pages/CreateLitterPage.jsx:93-108 | a litter with either flag set always names both parents |
| CreateLitter.ChosenSireIsMale | frontend/src/pages/CreateLitterPage.jsx:60-69 | with distinct dog ids, the dog found for a sire card is male |
| CreateLitter.Wizard.constructor | frontend/src/pages/CreateLitterPage.jsx:29-46 | the wizard starts at step 1 with no parents and the empty detail fields with status "upcoming" |
| CreateLitter.Wizard.Previous | frontend/src/pages/CreateLitterPage.jsx:421-425 | goes back one step only after step 1, keeps the step in 1..3 and changes nothing else |
| CreateLitter.Wizard.Next | frontend/src/pages/CreateLitterPage.jsx:436-439 | goes forward one step only before step 3 and not at step 1 without a sire or step 2 without a dam; keeps the wizard's invariant |
| CreateLitter.Wizard.SelectSire | frontend/src/pages/CreateLitterPage.jsx:63-69 | selects the first dog with the card's id; fills the breed from it only while the breed is empty, so a chosen breed is never overwritten |
| CreateLitter.Wizard.SelectDam | frontend/src/pages/CreateLitterPage.jsx:71-74 | selects the first dog with the card's id and never touches the breed |
| CreateLitter.Wizard.SetField | frontend/src/pages/CreateLitterPage.jsx:76-82 | writes one detail field and keeps step and parents |
| CreateLitter.Wizard.Submit | frontend/src/pages/CreateLitterPage.jsx:84-131 | nothing is inserted exactly when the breed is empty; otherwise the litter carries the current user, both selected parents' ids and the two derived flags; on success a success toast and the new litter's page `/litter/<id>`, on failure the store's message (or "Failed to create litter") and no navigation |
| Session.Written | frontend/src/pages/LoginPage.jsx:20-22 | the three session keys hold the account's type, id and name, and every other key is kept |
| Session.ProtectedRoute | frontend/src/App.js:16-28 | no stored user goes to /login whatever the requirement; a stored user of another required type goes to /; anyone else sees the page |
| Session.TypedRoutes | frontend/src/App.js:35-91 | only the breeder dashboard (breeder) and search (buyer) ask for a type; /, /login and /signup/:userType are open |
| Session.VisitMeaning | frontend/src/App.js:16-91 | an open route shows to everyone, a guarded route without a type to any signed-in user, a typed route exactly to a stored user of that type |
| Login.AcceptedPairs | frontend/src/pages/LoginPage.jsx:19-31 | exactly the two test emails with the password "password" are accepted |
| Login.LoginLandsAdmitted | frontend/src/pages/LoginPage.jsx:19-28 | after either login the destination's guard admits the stored type |
| Login.LoginPage.HandleLogin | frontend/src/pages/LoginPage.jsx:15-32 | a match writes the account's type, id and name and navigates to its home with no error; anything else sets the error and leaves storage and location unchanged |
| Signup.SignupAccount | frontend/src/pages/SignupPage.jsx:10-31 | the URL's type is stored as it is with the submitted name; home is the dashboard for "breeder" and search for any other type |
| Signup.HandleSubmit | frontend/src/pages/SignupPage.jsx:21-32 | writes the three keys and navigates home; email and password are never stored |
| Signup.IdCarriesTimestamp | frontend/src/pages/SignupPage.jsx:24 | the id is the type, a dash and digits parseInt reads back as the timestamp |
| Signup.KnownTypeLandsAdmitted | frontend/src/pages/SignupPage.jsx:21-31 | signing up as breeder or buyer lands on a page that admits it |
| Signup.OtherTypeTurnedAway | frontend/src/pages/SignupPage.jsx:23-31 | any other type is stored anyway and sent to search, whose guard redirects it home (or to /login when empty) |

## Left out

- The hosted store and its auth: every query, insert and session lookup. Query results are input sequences, inserts are the rows returned, the session is a boolean and the insert's answer a parameter (success or failure, with the new id or the error message where the page uses them).
- The raw request of the add-dog page and what follows it (its status check, the alerts, the move to the dashboard): the model stops at the row sent.
- `parseFloat`: prices in the litter rows are the typed text (null when empty), the listing's price filter bounds and stored prices are integers, and weight and height are not in the dog row.
- Locale formatting of amounts and dates: the formatters are parameters, and `new Date` parsing and time zones are not modelled.
- The `loading` flags and the disabled states they cause while a request runs.
- JavaScript property lookups on prototype keys (a status named `constructor`, say): lookups are over the listed keys only.
- Lower-casing beyond ASCII: `toLowerCase` is modelled on the ASCII letters only (`\s` is the full JavaScript whitespace set).
- The gauge's count-up animation, its SVG arc geometry and its size table.
- Concrete test ids of the six registry names: the one-word and two-word laws are proved for all names instead.
- Rendering without a signed-in user (`user.id` of null) on the form pages.
- BrowseLitters.FetchLitters: the price filter text is taken as a number or empty; non-numeric text (parsed as NaN by the page) is not modelled.
- CreateLitter.Wizard.SelectSire: requires the id of a listed male dog at step 1, since the sire cards exist only then; likewise SelectDam at step 2 with a female dog.

## Findings

| source | as written | input that shows it | evidently intended | confidence | as-written member | corrected member |
|---|---|---|---|---|---|---|
| frontend/src/pages/DogProfile.jsx:84-87 | the age label uses the difference of calendar years, and the difference of months only when the years do not differ | born December 2023, today January 2024: "1 year" | the number of whole years elapsed, counting the day of the month, and months below one year ("1 month" here) | not executed | DogProfile.CalendarYearAgeOverstates | DogProfile.AgeInMonthsMeaning |
