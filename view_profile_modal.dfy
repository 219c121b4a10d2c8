/** The profile viewer: how it lists the stored medical history and which
  * badge colours and texts it shows for the saved profile, partner and
  * health rows. */
module ViewProfileModal {
  import opened Wrappers
  import opened Strings
  import opened JsValues
  import opened Badges
  import opened ProfileService
  import opened AddProfileModal

  /** `formatMedicalHistory`: `['N/A']` for an absent or empty column, else
    * the comma-separated items, trimmed. */
  function FormatMedicalHistory(medicalHistory: Option<string>): (r: seq<string>)
    ensures |r| >= 1
    ensures medicalHistory.None? || medicalHistory.value == "" ==> r == ["N/A"]
    ensures medicalHistory.Some? && medicalHistory.value != "" ==>
              |r| == Occurrences(medicalHistory.value, ',') + 1 &&
              forall i :: 0 <= i < |r| ==> r[i] == Trim(Split(medicalHistory.value, ',')[i])
  {
    if medicalHistory.None? || medicalHistory.value == "" then ["N/A"]
    else DecodeList(medicalHistory.value)
  }

  /** What the viewer lists for a medical history saved by the profile form:
    * the checked conditions and the "others" text as one more condition, or
    * `N/A` when nothing was saved. */
  lemma SavedHistoryShown(items: seq<string>, others: Value)
    requires forall i :: 0 <= i < |items| ==> CleanItem(items[i])
    requires ',' !in Text(others)
    ensures var shown := FormatMedicalHistory(Some(EncodeMedicalHistory(items, others)));
            if items == [] && !Truthy(others) then shown == ["N/A"]
            else shown == items + (if Truthy(others) then [Trim(Text(others))] else [])
  {
    var all := items + (if Truthy(others) then [" " + Text(others)] else []);
    if items == [] && !Truthy(others) {
      EncodeNothing(others);
    } else {
      assert |all| > 0 && all[0] != "";
      if EncodeMedicalHistory(items, others) == "" {
        JoinEmpty(all, ',');
      }
      MedicalHistoryRoundTrip(items, others);
    }
  }

  /** `value || 'N/A'` for a column of a stored row. */
  function Shown(columns: map<string, Value>, name: string): (r: string)
    ensures !(name in columns && Truthy(columns[name])) ==> r == "N/A"
    ensures name in columns && Truthy(columns[name]) ==> r == Text(columns[name])
  {
    if name in columns && Truthy(columns[name]) then Text(columns[name]) else "N/A"
  }

  // ---------------------------------------------------------- marital status

  /** The values the profile form offers for the marital status. */
  const WriterMaritalStatuses: seq<string> :=
    ["married", "single", "live-in", "separated", "widowed", "divorced", "annulled"]

  /** The marital badge as written: `primary` only for exactly `Single`. */
  function MaritalBadge(status: Value): (c: Color)
    ensures c == Primary <==> status == Str("Single")
    ensures c != Primary ==> c == Success
  {
    if status == Str("Single") then Primary else Success
  }

  /** No value the form can save makes the badge `primary`: the form stores
    * lower-case `single`, and an unset status is saved as the empty text. */
  lemma MaritalBadgeNeverPrimary(id: int, profileData: map<string, Value>)
    requires "marital_status" in profileData ==>
               profileData["marital_status"] == Str("") || exists s :: s in WriterMaritalStatuses && profileData["marital_status"] == Str(s)
    ensures MaritalBadge(ProfilePayload(id, profileData).columns["marital_status"]) == Success
  {
    assert "marital_status" in ProfileColumns;
  }

  /** The marital badge as evidently intended: `primary` for single whatever
    * the letter case. */
  function MaritalBadgeCaseless(status: Value): (c: Color)
    ensures c == Primary <==> status.Str? && Lower(status.s) == "single"
    ensures c != Primary ==> c == Success
  {
    if status.Str? && Lower(status.s) == "single" then Primary else Success
  }

  /** With the case-insensitive test, a profile saved as single gets the
    * `primary` badge and the other saved values keep `success`. */
  lemma MaritalBadgeCaselessSingle(id: int, profileData: map<string, Value>, status: string)
    requires status in WriterMaritalStatuses
    requires "marital_status" in profileData && profileData["marital_status"] == Str(status)
    ensures MaritalBadgeCaseless(ProfilePayload(id, profileData).columns["marital_status"]) == Primary <==>
            status == "single"
  {
    StoredAsEntered(id, profileData, "marital_status");
    WriterMaritalStatusesLower(status);
  }

  /** A truthy form value of a profile column is stored as entered. */
  lemma StoredAsEntered(id: int, profileData: map<string, Value>, column: string)
    requires column in ProfileColumns
    requires column in profileData && Truthy(profileData[column])
    ensures ProfilePayload(id, profileData).columns[column] == profileData[column]
  {
  }

  /** The form's marital values are all lower case already. */
  lemma WriterMaritalStatusesLower(status: string)
    requires status in WriterMaritalStatuses
    ensures Lower(status) == status
  {
    assert NoUpperCase(status);
    LowerUnchanged(status);
  }

  predicate NoUpperCase(s: string)
  {
    forall i :: 0 <= i < |s| ==> !('A' <= s[i] <= 'Z')
  }

  /** Lower-casing leaves a text without capitals as it is. */
  lemma LowerUnchanged(s: string)
    requires NoUpperCase(s)
    ensures Lower(s) == s
  {
  }

  // -------------------------------------------------------- partner birthday

  /** The partner's birthday as written: the viewer reads `pBirthday`. */
  function PartnerBirthday(partner: PartnerRow): string
  {
    Shown(partner.columns, "pBirthday")
  }

  /** The partner row the profile form saves has `pBirthdate` and no
    * `pBirthday`, so the viewer always shows `N/A` for the birthday. */
  lemma PartnerBirthdayNeverShown(id: int, partnersData: map<string, Value>)
    ensures PartnerBirthday(PartnerPayload(id, partnersData)) == "N/A"
  {
    assert "pBirthday" !in PartnerColumns;
  }

  /** The partner's birthday as evidently intended: read from the column the
    * form writes. */
  function PartnerBirthdate(partner: PartnerRow): string
  {
    Shown(partner.columns, "pBirthdate")
  }

  /** Reading `pBirthdate` shows the birthdate entered in the form. */
  lemma PartnerBirthdateShown(id: int, partnersData: map<string, Value>)
    requires "pBirthdate" in partnersData && Truthy(partnersData["pBirthdate"])
    ensures PartnerBirthdate(PartnerPayload(id, partnersData)) == Text(partnersData["pBirthdate"])
  {
    assert "pBirthdate" in PartnerColumns;
  }

  // -------------------------------------------------------- pregnancy status

  /** The pregnancy badge: `success` exactly for `Pregnant`. */
  function PregnancyBadge(status: Value): (c: Color)
    ensures c == Success <==> status == Str("Pregnant")
    ensures c != Success ==> c == Medium
  {
    if status == Str("Pregnant") then Success else Medium
  }

  /** The saved health row shows `success` exactly when the form's status was
    * `Pregnant`. */
  lemma PregnancyBadgeOfSaved(id: int, h: HealthForm)
    ensures PregnancyBadge(HealthPayload(id, h).columns["pregnancy_status"]) == Success <==>
            h.pregnancy_status == Str("Pregnant")
  {
  }
}
