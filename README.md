# Teenage-parent case management: a verified model of the client logic

This project models the statable logic of a client application that health and
social workers use to track teenage parents. The application keeps profiles,
partner rows, maternal-health records, education records, visits and user
accounts in a hosted store. The model covers:

- the **early-warning derivation**: repeated pregnancy and school dropout
  flags, inclusion, high/medium grading, the high-first sort and the three
  tallies;
- the **composite profile writer**: three inserts in order with compensating
  deletes (`saveCompleteProfile`), and the edit path's update-or-insert
  sequence;
- the **profile form**: the year-prefixed id generator, payload defaulting,
  the comma-joined medical-history encoder and its decoder, checkbox toggles
  and the region → province → municipality → barangay cascade;
- the **admin dashboard's** per-location counting and chart slicing;
- the **OAuth callback's** account reconciliation and routing;
- the **teen home page's** visit/health/profile join, its early exits and the
  name-save validation;
- the **education tab's** name search, the **education viewer's** status
  badge, the **profile viewer's** medical-history list and badges, the
  **admin shell's** role-to-tabs table, and the **add-user form's** validation
  and sign-up sequence.

The hosted store is a set of tables held as Dafny maps from primary key to
row, or as a sequence of rows for the `users` table. The tables live in
classes (`ProfileService.Store`, `Users.UserTable`) whose methods change them
in place. Every store request whose error the code checks takes a boolean saying
whether it reports an error, so each failure path is an input. The
early-warning lookups, whose error the code ignores, take the set of profiles
whose lookup fails (`EarlyWarning.LookupFaults`); such a lookup reads as
"no record". The auth service, the password hash,
the current year and the clock are parameters. React state becomes the fields
of a class per component (`AddProfileModal.ProfileForm`,
`AddUserModal.UserForm`, `UserHome.HomePage`). Pure rules are functions, each
with lemmas about it.

One module per source file: `EarlyWarning`, `ProfileService`,
`AddProfileModal`, `AdminDashboard`, `AuthCallback`, `UserHome`,
`EducationTab`, `ViewEducation`, `ViewProfileModal`, `AdminHome` and
`AddUserModal`. They share `Users` (the `users` table), `PhilRegions` (the
four geographic record shapes), `JsValues` (JavaScript values, truthiness,
`Number()` and template text), `JsObjects` (the order in which
`Object.keys` lists an object's keys), `Strings` (`split`, `join`, `trim`,
`toLowerCase`, `includes`), `Seqs` (`filter`, `map`, `find`) and `Badges`.

Three behaviours of the code worth knowing:

- On a failed health insert the code deletes the profile row twice, with two
  identical requests (`src/services/profileService.ts:71-78`). The model has
  both requests and a fault flag for each, so the row survives only when both
  fail.
- On the edit path the profile row is updated by `profileid` with no
  existence check (`src/components/AddProfileModal.tsx:388-393`). An edit of
  an id without a profile row therefore writes no profile row, and still
  inserts partner and health rows that point at it
  (`AddProfileModal.EditSuccessStoresPayloads`, `AddProfileModal.EditSucceeds`).
- The code comment says new OAuth accounts get the `user` role; the code
  inserts `teenager` (`src/utils/AuthCallBack.tsx:64,72`).

## Model

| member | source | states |
|---|---|---|
| EarlyWarning.Latest | src/services/earlyWarning.ts:49-54 | the `order(desc).limit(1)` answer: nothing exactly when no row matches, else a matching row whose key is the largest among the matches |
| EarlyWarning.Assess | src/services/earlyWarning.ts:43-89 | repeated pregnancy iff the count is ≥ 2; the count is 0 when the health lookup fails or finds no record, else it is the highest-`health_id` record's count or 0; dropout iff the education lookup succeeds and some "Dropout" education row exists, with the date of the highest-`educationid` one or `''`; high exactly when both flags hold |
| EarlyWarning.Collect | src/services/earlyWarning.ts:40-91 | the pushed list is no longer than the profiles, and every entry is flagged and graded high exactly when both flags hold |
| EarlyWarning.CollectedIff | src/services/earlyWarning.ts:76-90 | a case is in the list iff it is the assessment of a visited profile and carries at least one flag |
| EarlyWarning.CollectedSound | src/services/earlyWarning.ts:76-90 | only flagged assessments of visited profiles are pushed: every case in the list comes from some profile |
| EarlyWarning.CollectedComplete | src/services/earlyWarning.ts:76-90 | no flagged profile is skipped: the assessment of every visited profile that carries a flag is in the list |
| EarlyWarning.FailedLookupsNotReported | src/services/earlyWarning.ts:49-76 | a profile whose health and education lookups both fail is never in the list, whatever its records |
| EarlyWarning.CollectCount | src/services/earlyWarning.ts:42-91 | the list's length equals the number of profiles whose assessment is flagged |
| EarlyWarning.SortHighFirstOrders | src/services/earlyWarning.ts:94-98 | after the sort every high entry precedes every medium entry |
| EarlyWarning.SortHighFirstPermutes | src/services/earlyWarning.ts:94-98 | the sorted list is a permutation (same multiset) of the collected list |
| EarlyWarning.SortHighFirstStable | src/services/earlyWarning.ts:94-98 | the relative order within the high tier and within the medium tier is preserved |
| EarlyWarning.SortHighFirst | src/services/earlyWarning.ts:94-98 | the outcome of the stable sort with the high-before-medium comparator; SortHighFirstOrders, SortHighFirstPermutes and SortHighFirstStable state its properties |
| EarlyWarning.StatsIdentity | src/services/earlyWarning.ts:100-104 | for flagged, well-graded entries: high ≤ repeated, high ≤ dropouts, and repeated + dropouts − high = list length |
| EarlyWarning.Stats | src/services/earlyWarning.ts:100-104 | the three `filter(...).length` tallies; StatsIdentity relates them |
| EarlyWarning.FetchEarlyWarnings | src/services/earlyWarning.ts:24-107 | a failed profile query gives `[]` and three zero counts; otherwise the list is the sorted collection over the location-filtered profiles, with each failed per-profile lookup read as no record, the stats are its tallies, and the count identity holds |
| ProfileService.LatestId | src/components/AddProfileModal.tsx:316-323 | the largest id in `[lo, hi)`, or nothing exactly when the range holds no id |
| ProfileService.LatestIdIsTop | src/components/AddProfileModal.tsx:316-323 | an id at `hi − 1` is the answer |
| ProfileService.SaveOutcome | src/services/profileService.ts:47-104 | success iff all three inserts succeed; a failed profile insert changes nothing; a failed health insert deletes the profile row unless both deletes fail, and never tries the partner; a failed partner insert deletes only the health row and keeps the profile row; health and partner rows carry the profile's id |
| ProfileService.Store.LatestProfileIdIn | src/components/AddProfileModal.tsx:316-327 | the error flag, and otherwise `LatestId` over the stored profile keys |
| ProfileService.Store.InsertProfile | src/services/profileService.ts:55-60 | succeeds iff no fault and the key is free; the row is added under its key; the other tables are untouched |
| ProfileService.Store.InsertHealth | src/services/profileService.ts:65-69 | succeeds iff no fault and the key is free; only the health table changes |
| ProfileService.Store.InsertPartner | src/services/profileService.ts:83-87 | succeeds iff no fault and the key is free; only the partner table changes |
| ProfileService.Store.DeleteProfile | src/services/profileService.ts:71-78 | removes the key unless the request fails; the other tables are untouched |
| ProfileService.Store.DeleteHealth | src/services/profileService.ts:89-92 | removes the `health_id` key unless the request fails |
| ProfileService.Store.UpdateProfile | src/components/AddProfileModal.tsx:388-393 | on success every row with the `profileid` is replaced; on failure nothing changes |
| ProfileService.Store.UpdatePartners | src/components/AddProfileModal.tsx:404-409 | on success every partner row of the profile is replaced by the payload |
| ProfileService.Store.HealthExists | src/components/AddProfileModal.tsx:420-426 | found iff no fault and exactly one health row has the `profileid` (`maybeSingle`) |
| ProfileService.Store.PartnerExists | src/components/AddProfileModal.tsx:396-402 | found iff no fault and exactly one partner row has the `profileid` |
| ProfileService.Store.UpdateHealth | src/components/AddProfileModal.tsx:428-433 | on success every health row of the profile is replaced by the payload |
| ProfileService.SaveCompleteProfile | src/services/profileService.ts:47-104 | the new tables and the result are exactly `SaveOutcome` of the old tables |
| AddProfileModal.NextIdAboveRange | src/components/AddProfileModal.tsx:313-333 | the new id exceeds every id already used in the year's range; with an empty range it is `year·10000 + 1` |
| AddProfileModal.NextProfileId | src/components/AddProfileModal.tsx:329-333 | the id after the year's latest one, or `year·10000 + 1` when there is none; NextIdAboveRange, NextIdInYear and YearExhausted state what this means |
| AddProfileModal.ChosenId | src/components/AddProfileModal.tsx:308-334 | the edited profile's own id when editing one; otherwise an id above every id already used in the year's range, and `year·10000 + 1` when the range is empty |
| AddProfileModal.NextIdInYear | src/components/AddProfileModal.tsx:329-333 | the new id stays in the year's range iff the range is empty or its maximum is below `(year+1)·10000 − 1` |
| AddProfileModal.YearExhausted | src/components/AddProfileModal.tsx:329-330 | once `year·10000 + 9999` is taken, the new id is the first id of the next year's range |
| AddProfileModal.Defaulted | src/components/AddProfileModal.tsx:340-384 | exactly the listed columns; a truthy form value is kept, anything else becomes the column's default |
| AddProfileModal.DefaultedIdempotent | src/components/AddProfileModal.tsx:340-361 | defaulting a defaulted payload changes nothing |
| AddProfileModal.EncodeNothing | src/components/AddProfileModal.tsx:378-381 | nothing checked and no "others" text encode as `''` |
| AddProfileModal.EncodeMedicalHistory | src/components/AddProfileModal.tsx:378-381 | the checked items, then `" " + others` when the text is truthy, joined with commas; MedicalHistoryRoundTrip states what decoding gives back |
| AddProfileModal.DecodeList | src/components/AddProfileModal.tsx:228 | `split(',').map(trim)` of a non-empty column, `[]` for an empty one; DecodeJoin and SupportRoundTrip state its inverse |
| AddProfileModal.DecodeDropsOthers | src/components/AddProfileModal.tsx:228-236 | every decoded item is trimmed, so the `startsWith(' ')` filter removes nothing and the "others" field always loads as `''` |
| AddProfileModal.DecodeJoin | src/components/AddProfileModal.tsx:228 | a non-empty list of non-empty, comma-free items decodes to the items trimmed |
| AddProfileModal.MedicalHistoryRoundTrip | src/components/AddProfileModal.tsx:378-381 | encode then decode gives back the clean checked items, followed by the trimmed "others" text when there is one |
| AddProfileModal.OthersRoundTrip | src/components/AddProfileModal.tsx:378-381 | the items plus `" " + others` decode to the items plus `others` trimmed |
| AddProfileModal.SupportRoundTrip | src/components/AddProfileModal.tsx:382 | clean support items round-trip through their column unchanged |
| AddProfileModal.ProfilePayload | src/components/AddProfileModal.tsx:340-361 | the profile row is keyed by the chosen id |
| AddProfileModal.PartnerPayload | src/components/AddProfileModal.tsx:363-372 | `partnerid` and `profileid` both equal the chosen id |
| AddProfileModal.HealthPayload | src/components/AddProfileModal.tsx:374-384 | `health_id` and `profileid` both equal the chosen id; the row has exactly the four health columns |
| AddProfileModal.HealthReload | src/components/AddProfileModal.tsx:227-237 | reloading a saved health row moves the "others" text into the checked conditions, loads "others" as `''`, and gives back the support items |
| AddProfileModal.LoadHealthForm | src/components/AddProfileModal.tsx:227-237 | the health part of the form rebuilt from a saved row: status, checked items, "others" text, support items and stage; HealthReload states the round trip |
| AddProfileModal.ToggleEffect | src/components/AddProfileModal.tsx:532-559 | checking appends at the end, so duplicates are possible; unchecking removes every copy; the other items keep their order |
| AddProfileModal.Toggle | src/components/AddProfileModal.tsx:532-559 | a checked box appends its item, an unchecked one filters every copy out; ToggleEffect states the effect |
| AddProfileModal.Target | src/components/AddProfileModal.tsx:494-559 | which part of the form a field name routes to: a profile column, a partner column, the pregnancy status or stage, the "others" text, a `medical_` or `support_` item, or nothing; ProfileForm.HandleChange states the effect of each route |
| AddProfileModal.ProvincesOf | src/components/AddProfileModal.tsx:568-569 | exactly the provinces with the region code, in table order |
| AddProfileModal.MunicipalitiesOf | src/components/AddProfileModal.tsx:580-581 | exactly the municipalities with the province code, in table order |
| AddProfileModal.BarangaysOf | src/components/AddProfileModal.tsx:591-592 | exactly the barangays with the municipality code, in table order |
| AddProfileModal.Label | src/components/AddProfileModal.tsx:575-576 | the non-empty name of an entry with the code, or the code itself; always the code when no entry has it |
| AddProfileModal.Upsert | src/components/AddProfileModal.tsx:396-441 | when the `maybeSingle` lookup finds the one row of the profile, the row is updated by `profileid` unless the update fails; otherwise (no row, several rows or a failed lookup) it is inserted, which succeeds exactly when the insert does not fail and the key is free; a failed write leaves the table as it was; rows of other profiles are untouched |
| AddProfileModal.UpsertTwice | src/components/AddProfileModal.tsx:396-441 | writing the same row of a profile a second time, with the same lookup and write outcome, stores nothing new |
| AddProfileModal.EditOutcome | src/components/AddProfileModal.tsx:386-441 | the edit succeeds exactly when the profile update, the partner write and the health write all succeed; a failed profile update aborts before partner and health; the profile update is never rolled back; a failed partner write skips health; a failed health write keeps the partner write |
| AddProfileModal.EditSuccessStoresPayloads | src/components/AddProfileModal.tsx:386-441 | after a successful edit the partner and health payloads are stored under the profile id; the profile row is replaced only if it existed |
| AddProfileModal.EditTwiceIsOnce | src/components/AddProfileModal.tsx:386-441 | saving the same edit a second time leaves the tables as the first save did, whichever requests fail |
| AddProfileModal.EditSucceeds | src/components/AddProfileModal.tsx:396-441 | with no request failing and partner and health rows stored under their profile's id, the edit succeeds: each row is updated when it exists and inserted when it does not |
| AddProfileModal.CreateKeepsRowsUnderOwnProfile | src/services/profileService.ts:47-104 | the create path keeps partner and health rows under their profile's id, so the tables it builds are ones `EditSucceeds` applies to |
| AddProfileModal.ProfileUpdateByKey | src/components/AddProfileModal.tsx:388-391 | in a table keyed by `profileid`, updating by `profileid` replaces the row under that key, if any |
| AddProfileModal.SaveEdit | src/components/AddProfileModal.tsx:386-441 | the new tables and the failed step are exactly `EditOutcome` of the old tables |
| AddProfileModal.ProfileForm.ResetForm | src/components/AddProfileModal.tsx:247-292 | every form part goes back to its empty value, the lists are cleared and the error is cleared |
| AddProfileModal.ProfileForm.HandleChange | src/components/AddProfileModal.tsx:486-560 | exactly one part changes as the field is routed (profile or partner column, with `Number` for the ages; a health field; a checkbox toggle); an unlisted field such as `is_indigenous` changes nothing |
| AddProfileModal.ProfileForm.HandleRegionChange | src/components/AddProfileModal.tsx:567-577 | the province list becomes the region's provinces, the lower lists are cleared, and the region's name (or the code) is stored |
| AddProfileModal.ProfileForm.HandleProvinceChange | src/components/AddProfileModal.tsx:579-588 | the municipality list becomes the province's municipalities, the barangay list is cleared, and the name from the current province list (or the code) is stored |
| AddProfileModal.ProfileForm.HandleMunicipalityChange | src/components/AddProfileModal.tsx:590-598 | the barangay list becomes the municipality's barangays, and the name from the current municipality list (or the code) is stored |
| AddProfileModal.ProfileForm.HandleBarangayChange | src/components/AddProfileModal.tsx:600-603 | the barangay is stored by name; nothing else changes |
| AddProfileModal.ProfileForm.HandleSave | src/components/AddProfileModal.tsx:295-484 | no session means no write and the "No user logged in" error; a failed id query means no write and its message; otherwise the payloads go under the chosen id (the edited id, else the next id of the year) through the edit or the create path, and the form resets on success or keeps its fields with the error on failure |
| AddProfileModal.ProfileForm.Submit | src/components/AddProfileModal.tsx:336-472 | the store writes of the edit or the create path, then a reset form on success or the error on failure |
| AdminDashboard.Counted | src/pages/admin/Tabs/AdminDashboard.tsx:90-100 | no more rows are counted at a level than there are rows |
| AdminDashboard.FirstSeen | src/pages/admin/Tabs/AdminDashboard.tsx:90-100 | the dictionary's keys are exactly the values with a positive count |
| AdminDashboard.FirstSeenDistinct | src/pages/admin/Tabs/AdminDashboard.tsx:90-100 | no key is listed twice |
| AdminDashboard.Bump | src/pages/admin/Tabs/AdminDashboard.tsx:92-98 | `t[k] = t[k] ? t[k] + 1 : 1`: a present key's count goes up by one, a new key is added with count 1 |
| AdminDashboard.TallyFor | src/pages/admin/Tabs/AdminDashboard.tsx:90-100 | the `forEach` counting pass, one row at a time; TallyForIsTally states that it yields the exact tally |
| AdminDashboard.TallyForIsTally | src/pages/admin/Tabs/AdminDashboard.tsx:90-100 | the counting pass yields keys in first-seen order, each holding the number of rows with that value, summing to the number of counted rows |
| AdminDashboard.TallyBounds | src/pages/admin/Tabs/AdminDashboard.tsx:86-100 | every stored count is ≥ 1, the empty value is never a key, and the counts sum to at most the number of profiles |
| AdminDashboard.EmptyNeverCounted | src/pages/admin/Tabs/AdminDashboard.tsx:91-98 | a profile with an empty or absent field counts for no key |
| AdminDashboard.FetchDashboardStats | src/pages/admin/Tabs/AdminDashboard.tsx:69-115 | a missing total or enrolled count becomes 0; the three dictionaries are the exact tallies of the fetched rows (none when the fetch fails) |
| AdminDashboard.Values | src/pages/admin/Tabs/AdminDashboard.tsx:122 | `Object.values`: one count per key, in `Object.keys` order |
| AdminDashboard.ProvinceChart | src/pages/admin/Tabs/AdminDashboard.tsx:117-132 | the keys in `Object.keys` order as labels and `Object.values` as data; ProvinceChartAligned states the pairing |
| AdminDashboard.MunicipalityChart | src/pages/admin/Tabs/AdminDashboard.tsx:134-149 | every key as a label but only the first ten values as data; MunicipalityChartMismatch states the mismatch |
| AdminDashboard.BarangayChart | src/pages/admin/Tabs/AdminDashboard.tsx:151-156 | the first ten keys and the first ten values; BarangayChartFirstTen states what is shown |
| AdminDashboard.ProvinceChartAligned | src/pages/admin/Tabs/AdminDashboard.tsx:117-132 | the province chart pairs every key with its own count |
| AdminDashboard.MunicipalityChartMismatch | src/pages/admin/Tabs/AdminDashboard.tsx:134-139 | the municipality chart's labels and data differ in length exactly when there are more than 10 municipalities |
| AdminDashboard.BarangayChartFirstTen | src/pages/admin/Tabs/AdminDashboard.tsx:151-156 | the barangay chart shows the first ten keys in `Object.keys` order (integer-like names first, then first-seen order), each paired with its own count |
| AdminDashboard.BarangayChartNamedPlaces | src/pages/admin/Tabs/AdminDashboard.tsx:151-156 | when no barangay name is integer-like, the chart shows the first ten names in the order they first appear in the rows |
| JsObjects.OwnKeys | src/pages/admin/Tabs/AdminDashboard.tsx:118 | `Object.keys` lists every key once per insertion, so the labels are a permutation of the inserted keys |
| JsObjects.OwnKeysOrder | src/pages/admin/Tabs/AdminDashboard.tsx:118 | `Object.keys` lists the integer-like keys first, in ascending numeric order, then every other key in insertion order |
| JsObjects.NamedKeysInInsertionOrder | src/pages/admin/Tabs/AdminDashboard.tsx:118 | with no integer-like key, `Object.keys` is the insertion order |
| JsObjects.OwnKeysDistinct | src/pages/admin/Tabs/AdminDashboard.tsx:118 | keys inserted once are listed once |
| JsObjects.IntegerLikeKeyFirst | src/pages/admin/Tabs/AdminDashboard.tsx:152 | barangays seen in the order `Poblacion`, `12` are labelled `12`, `Poblacion` |
| AdminDashboard.BarangayChartIgnoresCounts | src/pages/admin/Tabs/AdminDashboard.tsx:151-156 | every key after the tenth is left off, whatever its count |
| AuthCallback.RouteFor | src/utils/AuthCallBack.tsx:106-121 | teenager goes to `/home`; every other role, known or not, goes to `/admin`; the inner teenager branch is unreachable |
| AuthCallback.NewUsername | src/utils/AuthCallBack.tsx:67-70 | the provider's full name if there is one, else the e-mail text before `@`, else `New User`; never empty |
| AuthCallback.OAuthOutcome | src/utils/AuthCallBack.tsx:11-123 | no user or a lookup error: redirect to `/` with no write; a new account is one active teenager row that agreed to the privacy terms, routed to `/home`; an account without `auth_id` gets it before the deactivation check; only `active === false` signs out; otherwise routing follows the role whatever the privacy update did; rows with another e-mail are untouched, and the account's row changes only in `auth_id` (when it had none) and in the two privacy columns (when an active account had not agreed and the update went through) |
| AuthCallback.NewAccount | src/utils/AuthCallBack.tsx:66-77 | the row inserted for a first sign-in: the auth id, the derived username, the e-mail, role `teenager`, active, privacy agreed at the current time; OAuthOutcome states when it is inserted |
| AuthCallback.PrivacyRecorded | src/utils/AuthCallBack.tsx:88-103 | after an active existing account is reconciled, every row with its e-mail has agreed to the privacy terms, unless that update failed |
| AuthCallback.HandleOAuth | src/utils/AuthCallBack.tsx:11-123 | the new table and the redirect are exactly `OAuthOutcome` of the old table |
| Users.MaybeSingle | src/utils/AuthCallBack.tsx:24-28 | a row iff no error and exactly one match; not found iff no error and no match |
| Users.UpdateWhere | src/utils/AuthCallBack.tsx:38-41 | every row satisfying the filter is rewritten; the others are kept, in place |
| Users.UserTable.FindByEmail | src/utils/AuthCallBack.tsx:24-28 | the `maybeSingle` answer over the rows with the e-mail |
| Users.UserTable.FindByAuthId | src/pages/users/UserHome.tsx:96-100 | a row iff no error and exactly one row has the auth id (`single`) |
| Users.UserTable.Update | src/pages/users/UserHome.tsx:215-222 | on success the matching rows are rewritten and their number is returned; on failure nothing changes |
| Users.UserTable.Insert | src/components/AddUserModal.tsx:62-73 | on success the row is appended; on failure nothing changes |
| AddUserModal.AllFilled | src/components/AddUserModal.tsx:32 | true iff every required field is non-empty |
| AddUserModal.PasswordNotRequired | src/components/AddUserModal.tsx:32 | the password takes no part in the required-field check |
| AddUserModal.EmptyForm | src/components/AddUserModal.tsx:84-91 | all six fields and only them, each `''`; the blank form fails the check |
| AddUserModal.NewUserRow | src/components/AddUserModal.tsx:59-72 | the row stores the auth id, the hash of the password (never the plaintext) and the form's other fields |
| AddUserModal.UserForm.HandleChange | src/components/AddUserModal.tsx:22-24 | one key is set and the rest are kept |
| AddUserModal.UserForm.HandleSave | src/components/AddUserModal.tsx:26-97 | sign-up is reached iff all required fields are filled; a missing field, a sign-up error or a missing auth id stop with their messages and no insert; a failed insert shows its message; a successful one appends the row and blanks all six fields |
| UserHome.NameMatches | src/pages/users/UserHome.tsx:117-122 | exactly the profiles whose first and last names both equal the user's, in table order |
| UserHome.HealthFor | src/pages/users/UserHome.tsx:134-140 | exactly the health records of the matched profiles |
| UserHome.SortDescending | src/pages/users/UserHome.tsx:167 | ordered by `visitid`, largest first, and a permutation of the input |
| UserHome.VisitsFor | src/pages/users/UserHome.tsx:151-167 | exactly the visits of the found health records, ordered by `visitid` descending |
| UserHome.ProfileOf | src/pages/users/UserHome.tsx:175-182 | undefined when no health record has the visit's `health_id`; otherwise the names of a profile linked through such a record |
| UserHome.ProfileOfKeyed | src/pages/users/UserHome.tsx:175-182 | with key-unique tables, the join finds exactly the profile linked through the visit's health record |
| UserHome.Schedules | src/pages/users/UserHome.tsx:174-184 | one schedule per visit, in the visits' order, each with its joined profile |
| UserHome.SchedulesCarryUserName | src/pages/users/UserHome.tsx:174-184 | every schedule with a profile carries the user's own name |
| UserHome.FetchByName | src/pages/users/UserHome.tsx:117-187 | stops with the no-profile message exactly when the profile query fails or matches nothing, and with the no-health-record message exactly when the profiles were found but the health query fails or finds nothing; otherwise a visits error fails with its message (or the default one); otherwise one schedule per sorted visit, each with the profile joined through the visit's health record |
| UserHome.PrenatalLabelNumber | src/pages/users/UserHome.tsx:429-439 | a shown prenatal label reads the count plus one, so at least 2 |
| UserHome.ShowsPrenatal | src/pages/users/UserHome.tsx:429 | the prenatal line shows when the visit number is positive and a next date is set; PrenatalLabelNumber and LabelsDisagree state what it reads |
| UserHome.ShowsPostnatal | src/pages/users/UserHome.tsx:462 | the postnatal line shows when the visit number is positive and a next date is set; PostnatalLabelNumber states what it reads |
| UserHome.PostnatalLabelNumber | src/pages/users/UserHome.tsx:462-471 | a shown postnatal label reads the count itself |
| UserHome.LabelsDisagree | src/pages/users/UserHome.tsx:439-471 | with equal counts the two labels of one card differ by one |
| UserHome.CardTitle | src/pages/users/UserHome.tsx:421-423 | the title is `Schedule` exactly when the visit has no profile |
| UserHome.ComplianceColor | src/pages/users/UserHome.tsx:494-502 | no colour iff the compliance text is empty; green iff `Compliant`; red iff `Non-Compliant`; orange otherwise |
| UserHome.HomePage.FetchUserSchedules | src/pages/users/UserHome.tsx:81-195 | each early exit sets its own message (no user, no user row, missing names, no profile, no health record) and clears the schedules where the source does; a visits error keeps them; otherwise the joined schedules are set and the error cleared |
| UserHome.HomePage.SaveProfile | src/pages/users/UserHome.tsx:196-236 | blank names are rejected with no update; otherwise the trimmed names are written to the user's rows, an update touching no row is an error, and on success the greeting uses the names as typed |
| EducationTab.Flatten | src/pages/admin/Tabs/Education.tsx:74-78 | the fetched row is kept; the names come from the joined profile, `''` when it or the name is missing |
| EducationTab.FlattenAll | src/pages/admin/Tabs/Education.tsx:73-79 | one flattened record per fetched row, in order |
| EducationTab.FilteredEducation | src/pages/admin/Tabs/Education.tsx:91-94 | a record is kept iff the lower-cased full name includes the lower-cased query; the result is an order-preserving subsequence |
| EducationTab.EmptyQueryKeepsAll | src/pages/admin/Tabs/Education.tsx:93 | the empty query keeps every record, in order |
| EducationTab.OnlyNamesMatter | src/pages/admin/Tabs/Education.tsx:92 | two records with the same names are both kept or both dropped, whatever their program, course and status |
| EducationTab.UnlinkedRowFound | src/pages/admin/Tabs/Education.tsx:91-94 | a row without a linked profile has full name `" "`, so it is found only by the query `''` or `" "` |
| ViewEducation.StatusColor | src/components/view/ViewEducation.tsx:90-103 | success, danger, primary and warning exactly for lower-cased enrolled, dropout, graduated and on hold; anything else, null included, is medium |
| ViewEducation.StatusColorIgnoresCase | src/components/view/ViewEducation.tsx:91 | the badge does not depend on letter case |
| ViewEducation.CardsFollowBadge | src/components/view/ViewEducation.tsx:248-266 | the dropout alert shows iff the badge is danger, the graduated card iff it is primary, never both |
| ViewEducation.ShowsDropoutAlert | src/components/view/ViewEducation.tsx:248 | the dropout alert shows for a status that is `dropout` in any letter case; CardsFollowBadge ties it to the badge |
| ViewEducation.ShowsGraduatedCard | src/components/view/ViewEducation.tsx:266 | the congratulations card shows for a status that is `graduated` in any letter case; CardsFollowBadge ties it to the badge |
| ViewEducation.Address | src/components/view/ViewEducation.tsx:189 | the address is the three parts plus four characters of separators |
| ViewEducation.AddressSplits | src/components/view/ViewEducation.tsx:189 | splitting the address on commas gives back the barangay and the other two parts behind their blank, when the parts are comma-free |
| ViewEducation.InfoText | src/components/view/ViewEducation.tsx:114 | a falsy value shows `N/A`; any other shows its text |
| ViewEducation.ZeroShowsMissing | src/components/view/ViewEducation.tsx:114 | a recorded 0 shows `N/A`, like an empty value |
| ViewProfileModal.FormatMedicalHistory | src/components/view/ViewProfileModal.tsx:63-66 | `['N/A']` for an absent or empty column; otherwise one trimmed item per comma-separated piece, commas + 1 of them; never empty |
| ViewProfileModal.SavedHistoryShown | src/components/view/ViewProfileModal.tsx:446-462 | a saved history lists the checked conditions and the "others" text as one more condition, or `N/A` when nothing was saved; the "No medical history recorded" branch is unreachable |
| ViewProfileModal.Shown | src/components/view/ViewProfileModal.tsx:184 | `value \|\| 'N/A'` for a stored column |
| ViewProfileModal.MaritalBadge | src/components/view/ViewProfileModal.tsx:183 | primary exactly for `Single`, success otherwise |
| ViewProfileModal.MaritalBadgeNeverPrimary | src/components/view/ViewProfileModal.tsx:183 | whatever the form saved, the stored marital status never makes the badge primary |
| ViewProfileModal.MaritalBadgeCaseless | src/components/view/ViewProfileModal.tsx:183 | primary exactly when the status lower-cases to `single` |
| ViewProfileModal.MaritalBadgeCaselessSingle | src/components/AddProfileModal.tsx:774-780 | with the case-free test, a profile saved as single gets the primary badge and no other saved value does |
| ViewProfileModal.PartnerBirthdayNeverShown | src/components/view/ViewProfileModal.tsx:374 | reading `pBirthday` from a saved partner row always shows `N/A` |
| ViewProfileModal.PartnerBirthday | src/components/view/ViewProfileModal.tsx:374 | the partner birthday line reads the `pBirthday` column, as written; PartnerBirthdayNeverShown shows the consequence |
| ViewProfileModal.PartnerBirthdateShown | src/components/AddProfileModal.tsx:369 | reading `pBirthdate` shows the birthdate entered in the form |
| ViewProfileModal.PregnancyBadge | src/components/view/ViewProfileModal.tsx:425 | success exactly for `Pregnant`, medium otherwise |
| ViewProfileModal.PregnancyBadgeOfSaved | src/components/view/ViewProfileModal.tsx:425 | a saved health row shows success exactly when the form's status was `Pregnant` |
| AdminHome.TabsToRender | src/pages/admin/AdminHome.tsx:71-97 | tabs exist iff the role is one of admin, healthworker, socialworker and school; a non-empty list starts with Dashboard |
| AdminHome.RoleTabs | src/pages/admin/AdminHome.tsx:71-95 | the `roleTabs` record: seven tabs for admin, three for healthworker, two for socialworker and school, none for any other key; TabsToRender and AdminOnlyTabs state what each role sees |
| AdminHome.AllTabs | src/pages/admin/AdminHome.tsx:102 | `Object.values(roleTabs).flat()`, the admin tabs first; TitleOfEveryTab states that each rendered tab titles its own page |
| AdminHome.AdminOnlyTabs | src/pages/admin/AdminHome.tsx:71-95 | only admin sees User Management and Reports & Analytics |
| AdminHome.CurrentTitle | src/pages/admin/AdminHome.tsx:100-105 | the name of a tab with the path's url, or `Dashboard` when none has it |
| AdminHome.TitleOfEveryTab | src/pages/admin/AdminHome.tsx:71-105 | whichever role shows a tab, opening it titles the page with that tab's name |
| AdminHome.SearchPlaceholder | src/pages/admin/AdminHome.tsx:107-123 | a specific text exactly for the five known paths, `Search...` otherwise |
| AdminHome.TabsWithSearch | src/pages/admin/AdminHome.tsx:107-123 | every tab except Dashboard and Reports & Analytics has its own search text |
| AdminHome.FetchedRole | src/pages/admin/AdminHome.tsx:125-155 | no lookup for an empty id; a successful lookup returns the role of the first row with the auth id (`data[0].role`), a failed one or one without a matching row returns `''`, and a non-empty role always comes from a matching row |
| AdminHome.StaffSeesRoleTabs | src/pages/admin/AdminHome.tsx:71-145 | a user whose first `users` row carries one of the four staff roles sees exactly that role's tabs |
| AdminHome.UnknownUserSeesNothing | src/pages/admin/AdminHome.tsx:125-145 | a user with no matching row, or with a role outside the four staff roles, sees no tabs |
| Strings.Split | src/components/view/ViewProfileModal.tsx:65 | `split(',')` gives one comma-free piece per comma plus one |
| Strings.SplitJoin | src/components/AddProfileModal.tsx:228 | splitting undoes joining when no piece holds the separator |
| Strings.ContainsIff | src/pages/admin/Tabs/Education.tsx:93 | `includes` holds exactly when the text occurs at some position |

## Left out

- PDF report generation (`generateEarlyWarningReport`) goes through jsPDF and autotable, foreign libraries outside the model.
- The location filter's query builder (`buildLocationQuery`) is not part of this model. `EarlyWarning.FetchEarlyWarnings` takes the filter as an abstract predicate on profiles.
- The hosted store's query language, transactions and network behaviour are left out. Each request is a table operation that may report an error, chosen by a fault flag (for the early-warning lookups, by the set of profiles whose lookup fails).
- The auth service (`getUser`, `signUp`, `signOut`) and bcrypt are parameters: a session value, a sign-up answer and a hash function.
- React and Ionic rendering, hooks, effects, styling, Chart.js drawing, loading flags and toasts' timing are left out. The components' state is kept as class fields.
- The 3-second `setTimeout` before the redirect of a deactivated account is left out; the redirect is the outcome.
- Dates and locale are left out: `isUpcoming`, `formatDate` and `toLocaleDateString`. The current year and the `privacy_agreed_at` timestamp are parameters.
- The read-then-insert race between two callers generating the same profile id is left out; one sequential caller is modelled.
- The edit form's preload of the address dropdowns and of the partner fields (`loadEditingData`, the part before the health data) is left out. Only its health-data decode is modelled (`AddProfileModal.LoadHealthForm`).
- `fetchUserName` on the home page is left out; it only fills the greeting and the edit fields.
- The profile-form `onSave` callback and `onClose` are left out; they belong to the parent page.
- The thrown-exception paths (`catch` blocks with "unexpected error" messages) are left out, except where a store error surfaces as a message.
- UserHome.HomePage.SaveProfile: stops before the schedule refresh that follows a successful save, which is the same `FetchUserSchedules` step.
- EarlyWarning.SortHighFirst: describes the outcome of the in-place `Array.prototype.sort` (stable since ES2019) as a function, not an in-place algorithm.
- UserHome.SortDescending: the order among visits with equal `visitid` is not fixed by the store, so the model proves sortedness and permutation, not one particular tie order.
- Strings.Lower: lower-cases ASCII letters only; JavaScript's full Unicode case mapping is not modelled.
- Form values hold integer numbers only (`JsValues`): fractional numbers are outside the model.
- JsValues.StringToNumber: reads only an optionally signed run of decimal digits (after trimming; the empty text is 0). A numeric text written with a decimal point (`17.0`, `17.5`), an exponent (`1e1`), a `0x`/`0b`/`0o` prefix, or `Infinity` becomes `NaN`, where JavaScript's `Number()` reads a number. So an age typed as `17.0` or `1e1` is saved as 17 or 10 by the code and as 0 by the model (`age || 0`).
- EarlyWarning.Profile: the name and place columns are plain texts. A null column, which the code's template literals would render as `null`, is not modelled.
- AddProfileModal.Upsert: a key conflict raised by an update is not modelled; an update by `profileid` replaces the matching rows with the payload under the payload's key.

## Findings

| source | as written | input that shows it | evidently intended | confidence | as-written member | corrected member |
|---|---|---|---|---|---|---|
| src/components/view/ViewProfileModal.tsx:183 | the marital badge is `primary` only for exactly `Single` | a profile saved with the form's option `single` (src/components/AddProfileModal.tsx:775) shows `success` | `primary` for a single person, whatever the letter case | high; not executed | ViewProfileModal.MaritalBadgeNeverPrimary | ViewProfileModal.MaritalBadgeCaselessSingle |
| src/components/view/ViewProfileModal.tsx:374 | the partner's birthday is read from `pBirthday` | a partner saved with `pBirthdate = "2005-01-01"` (src/components/AddProfileModal.tsx:369) shows `N/A` | show the saved `pBirthdate` | high; not executed | ViewProfileModal.PartnerBirthdayNeverShown | ViewProfileModal.PartnerBirthdateShown |
