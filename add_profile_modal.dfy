/** The profile form: year-prefixed id generation, payload defaulting, the
  * comma-joined medical-history encoding and its decoder, checkbox toggles,
  * the region → province → municipality → barangay cascade, and the save
  * procedure with its create and edit paths. */
module AddProfileModal {
  import opened Wrappers
  import opened Seqs
  import opened Strings
  import opened JsValues
  import opened PhilRegions
  import opened ProfileService

  // ---------------------------------------------------------------------
  // Profile identifiers

  /** The new profile id given the year and the largest id found in that
    * year's range; a falsy (absent or zero) answer starts the sequence at 1. */
  function NextProfileId(year: int, latest: Option<int>): int
  {
    if latest.Some? && latest.value != 0 then latest.value + 1 else year * 10000 + 1
  }

  /** The new id is above every id already used in the year's range, and is
    * `year * 10000 + 1` when the range is empty. */
  lemma NextIdAboveRange(ids: set<int>, year: int)
    ensures var id := NextProfileId(year, LatestId(ids, year * 10000, (year + 1) * 10000));
            && (forall k :: k in ids && year * 10000 <= k < (year + 1) * 10000 ==> k < id)
            && ((forall k :: k in ids ==> !(year * 10000 <= k < (year + 1) * 10000)) ==> id == year * 10000 + 1)
  {
    var latest := LatestId(ids, year * 10000, (year + 1) * 10000);
    if latest.Some? && latest.value == 0 {
      // only for year 0, where 0 itself is the largest id in range
      assert forall k :: k in ids && year * 10000 <= k < (year + 1) * 10000 ==> k <= 0;
    }
  }

  /** The new id stays in the year's range exactly when the range is empty or
    * its largest id is below `(year + 1) * 10000 - 1`. */
  lemma NextIdInYear(ids: set<int>, year: int)
    ensures var latest := LatestId(ids, year * 10000, (year + 1) * 10000);
            var id := NextProfileId(year, latest);
            year * 10000 <= id < (year + 1) * 10000 <==>
              latest.None? || latest.value < (year + 1) * 10000 - 1
  {
  }

  /** Once `year * 10000 + 9999` is taken, the new id is the first id of the
    * next year's range, and storing it leaves the answer of the range query
    * unchanged: every later save in the same year computes the same id. */
  lemma YearExhausted(ids: set<int>, year: int)
    requires year * 10000 + 9999 in ids
    ensures var id := NextProfileId(year, LatestId(ids, year * 10000, (year + 1) * 10000));
            && id == (year + 1) * 10000
            && NextProfileId(year, LatestId(ids + {id}, year * 10000, (year + 1) * 10000)) == id
  {
    LatestIdIsTop(ids, year * 10000, (year + 1) * 10000);
    LatestIdIsTop(ids + {(year + 1) * 10000}, year * 10000, (year + 1) * 10000);
  }

  /** The id a save uses: the edited profile's own id when editing a given
    * profile, otherwise a new one. */
  function ChosenId(isEditing: bool, editingProfile: Option<int>, year: int, ids: set<int>): (id: int)
    ensures isEditing && editingProfile.Some? ==> id == editingProfile.value
    ensures !(isEditing && editingProfile.Some?) ==>
              forall k :: k in ids && year * 10000 <= k < (year + 1) * 10000 ==> k < id
    ensures !(isEditing && editingProfile.Some?) && (forall k :: k in ids ==> !(year * 10000 <= k < (year + 1) * 10000)) ==>
              id == year * 10000 + 1
  {
    if isEditing && editingProfile.Some? then editingProfile.value
    else
      NextIdAboveRange(ids, year);
      NextProfileId(year, LatestId(ids, year * 10000, (year + 1) * 10000))
  }

  // ---------------------------------------------------------------------
  // Form state and payloads

  /** The columns of the profile form and of the `profile` row; `age` is a
    * number, the others are text. */
  const ProfileColumns: seq<string> := [
    "firstName", "lastName", "age", "birthdate", "contactnum", "barangay",
    "municipality", "province", "region", "zipcode", "marital_status",
    "religion", "living_with", "family_income", "current_year_level",
    "highest_educational_attainment", "fathers_occupation",
    "mothers_occupation", "indigenous_ethnicity"]

  /** The fields `handleChange` writes into the profile form: the columns plus
    * `partner_occupation`, which no payload reads. */
  const ProfileFields: seq<string> := ProfileColumns + ["partner_occupation"]

  const PartnerColumns: seq<string> := [
    "pFirstname", "pLastname", "pAge", "pBirthdate", "pOccupation", "pIncome"]

  /** The value a column falls back to when the form holds a falsy one. */
  function DefaultFor(column: string): Value
  {
    if column == "age" || column == "pAge" then Num(0) else Str("")
  }

  /** `{ c: data.c || default, ... }` over the given columns. */
  function Defaulted(columns: seq<string>, data: map<string, Value>): (r: map<string, Value>)
    ensures r.Keys == set c | c in columns
    ensures forall c :: c in columns && c in data && Truthy(data[c]) ==> r[c] == data[c]
    ensures forall c :: c in columns && !(c in data && Truthy(data[c])) ==> r[c] == DefaultFor(c)
  {
    map c | c in columns :: OrDefault(data, c, DefaultFor(c))
  }

  /** Defaulting twice is defaulting once: reloading a saved row into the
    * form yields the saved columns. */
  lemma DefaultedIdempotent(columns: seq<string>, data: map<string, Value>)
    ensures Defaulted(columns, Defaulted(columns, data)) == Defaulted(columns, data)
  {
    var once := Defaulted(columns, data);
    forall c | c in columns
      ensures Defaulted(columns, once)[c] == once[c]
    {
      if !Truthy(once[c]) {
        assert once[c] == DefaultFor(c);
      }
    }
  }

  /** The health part of the form. */
  datatype HealthForm = HealthForm(
    pregnancy_status: Value,
    medical_history: seq<string>,
    types_of_support: seq<string>,
    stage_of_pregnancy: Value,
    medical_history_others: Value)

  const EmptyHealthForm := HealthForm(Str(""), [], [], Str(""), Str(""))

  /** The medical-history column: the checked conditions, then the "others"
    * text behind a blank when it is truthy, joined by commas. */
  function EncodeMedicalHistory(items: seq<string>, others: Value): string
  {
    Join(items + (if Truthy(others) then [" " + Text(others)] else []), ',')
  }

  /** Nothing checked and no "others" text encode as the empty string. */
  lemma EncodeNothing(others: Value)
    requires !Truthy(others)
    ensures EncodeMedicalHistory([], others) == ""
  {
  }

  /** `column ? column.split(',').map(trim) : []`. */
  function DecodeList(column: string): seq<string>
  {
    if column == "" then [] else TrimAll(Split(column, ','))
  }

  predicate StartsWithBlank(item: string)
  {
    StartsWith(item, " ")
  }

  /** The text of a column that holds a string, `""` otherwise. */
  function TextColumn(columns: map<string, Value>, name: string): string
  {
    if name in columns && columns[name].Str? then columns[name].s else ""
  }

  function ColumnOr(columns: map<string, Value>, name: string, d: Value): Value
  {
    OrDefault(columns, name, d)
  }

  /** The checked items `loadEditingData` keeps: those not starting with a
    * blank. */
  function CheckedItems(decoded: seq<string>): seq<string>
  {
    Filter(decoded, (item: string) => !StartsWithBlank(item))
  }

  /** The "others" text `loadEditingData` looks for: the first item starting
    * with a blank, trimmed. */
  function OthersItem(decoded: seq<string>): Value
  {
    match Find(decoded, StartsWithBlank)
    case Some(item) => Or(Str(Trim(item)), Str(""))
    case None => Str("")
  }

  /** The health form `loadEditingData` builds from a stored health row. */
  function LoadHealthForm(columns: map<string, Value>): HealthForm
  {
    var medicalHistory := DecodeList(TextColumn(columns, "medical_history"));
    var typesOfSupport := DecodeList(TextColumn(columns, "types_of_support"));
    HealthForm(
      ColumnOr(columns, "pregnancy_status", Str("")),
      CheckedItems(medicalHistory),
      typesOfSupport,
      ColumnOr(columns, "stage_of_pregnancy", Str("")),
      OthersItem(medicalHistory))
  }

  /** Every decoded item is trimmed, so none starts with a blank: the
    * "others" filter removes nothing and the "others" field is never
    * recovered. */
  lemma DecodeDropsOthers(column: string)
    ensures CheckedItems(DecodeList(column)) == DecodeList(column)
    ensures OthersItem(DecodeList(column)) == Str("")
  {
    var decoded := DecodeList(column);
    TrimmedNotBlank(decoded);
    FilterAll(decoded, (item: string) => !StartsWithBlank(item));
  }

  lemma TrimmedNotBlank(decoded: seq<string>)
    requires forall i :: 0 <= i < |decoded| ==> Trim(decoded[i]) == decoded[i]
    ensures forall i :: 0 <= i < |decoded| ==> !StartsWithBlank(decoded[i])
  {
    forall i | 0 <= i < |decoded|
      ensures !StartsWithBlank(decoded[i])
    {
      var r := Trim(decoded[i]);
      assert |r| == 0 || !IsSpace(r[0]);
    }
  }

  /** A list of non-empty, comma-free items decodes to the items trimmed. */
  lemma DecodeJoin(xs: seq<string>)
    requires forall i :: 0 <= i < |xs| ==> xs[i] != "" && ',' !in xs[i]
    ensures DecodeList(Join(xs, ',')) == TrimAll(xs)
  {
    if |xs| > 0 {
      if Join(xs, ',') == "" {
        JoinEmpty(xs, ',');
      }
      SplitJoin(xs, ',');
    }
  }

  /** An item the checkboxes can produce: non-empty, comma-free and without
    * surrounding white space. */
  predicate CleanItem(item: string)
  {
    item != "" && ',' !in item && Trim(item) == item
  }

  /** Saving then reloading the health form: clean checked items come back
    * unchanged, and a comma-free "others" text comes back trimmed as one more
    * checked item, never in the "others" field. */
  lemma MedicalHistoryRoundTrip(items: seq<string>, others: Value)
    requires forall i :: 0 <= i < |items| ==> CleanItem(items[i])
    requires ',' !in Text(others)
    ensures DecodeList(EncodeMedicalHistory(items, others)) ==
              items + (if Truthy(others) then [Trim(Text(others))] else [])
  {
    if Truthy(others) {
      assert EncodeMedicalHistory(items, others) == Join(items + [" " + Text(others)], ',');
      OthersRoundTrip(items, Text(others));
    } else {
      assert items + [] == items;
      assert EncodeMedicalHistory(items, others) == Join(items, ',');
      SupportRoundTrip(items);
    }
  }

  /** The "others" half of `MedicalHistoryRoundTrip`. */
  lemma OthersRoundTrip(items: seq<string>, t: string)
    requires forall i :: 0 <= i < |items| ==> CleanItem(items[i])
    requires ',' !in t
    ensures DecodeList(Join(items + [" " + t], ',')) == items + [Trim(t)]
  {
    var extra := [" " + t];
    BlankPrefixKeepsCommaFree(t);
    TrimAfterSpace(t);
    CommaFreeItems(items, extra);
    DecodeJoin(items + extra);
    TrimAllAppend(items, extra);
    TrimAllClean(items);
    assert TrimAll(extra) == [Trim(t)];
  }

  /** Clean items followed by a non-empty comma-free extra are a list the
    * decoder can split back. */
  lemma CommaFreeItems(items: seq<string>, extra: seq<string>)
    requires forall i :: 0 <= i < |items| ==> CleanItem(items[i])
    requires forall i :: 0 <= i < |extra| ==> extra[i] != "" && ',' !in extra[i]
    ensures forall i :: 0 <= i < |items + extra| ==> (items + extra)[i] != "" && ',' !in (items + extra)[i]
  {
  }

  /** Trimming clean items changes nothing. */
  lemma TrimAllClean(items: seq<string>)
    requires forall i :: 0 <= i < |items| ==> CleanItem(items[i])
    ensures TrimAll(items) == items
  {
  }

  /** The blank put before the "others" text adds no comma. */
  lemma BlankPrefixKeepsCommaFree(t: string)
    requires ',' !in t
    ensures ',' !in " " + t
  {
    assert forall i :: 0 < i < |" " + t| ==> (" " + t)[i] == t[i - 1];
  }

  /** Clean items round-trip through the types-of-support column. */
  lemma SupportRoundTrip(items: seq<string>)
    requires forall i :: 0 <= i < |items| ==> CleanItem(items[i])
    ensures DecodeList(Join(items, ',')) == items
  {
    DecodeJoin(items);
  }

  function ProfilePayload(id: int, profileData: map<string, Value>): (r: ProfileRow)
    ensures r.profileid == id
  {
    ProfileRow(id, Defaulted(ProfileColumns, profileData))
  }

  /** The partner payload: keyed by the profile id and pointing at it. */
  function PartnerPayload(id: int, partnersData: map<string, Value>): (r: PartnerRow)
    ensures r.partnerid == id && r.profileid == id
  {
    PartnerRow(id, id, Defaulted(PartnerColumns, partnersData))
  }

  /** The health payload: keyed by the profile id and pointing at it. */
  function HealthPayload(id: int, healthData: HealthForm): (r: HealthRow)
    ensures r.health_id == id && r.profileid == id
    ensures r.columns.Keys == {"pregnancy_status", "medical_history", "types_of_support", "stage_of_pregnancy"}
  {
    HealthRow(id, id, map[
      "pregnancy_status" := Or(healthData.pregnancy_status, Str("")),
      "medical_history" := Str(EncodeMedicalHistory(healthData.medical_history, healthData.medical_history_others)),
      "types_of_support" := Str(Join(healthData.types_of_support, ',')),
      "stage_of_pregnancy" := Or(healthData.stage_of_pregnancy, Str(""))])
  }

  /** The two list columns of a health payload hold the encoded lists. */
  lemma HealthPayloadColumns(id: int, h: HealthForm)
    ensures TextColumn(HealthPayload(id, h).columns, "medical_history") ==
            EncodeMedicalHistory(h.medical_history, h.medical_history_others)
    ensures TextColumn(HealthPayload(id, h).columns, "types_of_support") == Join(h.types_of_support, ',')
  {
    HealthColumnsDistinct();
  }

  /** The four health column names differ (already in their first letter). */
  lemma HealthColumnsDistinct()
    ensures "medical_history" != "pregnancy_status" && "medical_history" != "types_of_support"
    ensures "medical_history" != "stage_of_pregnancy"
    ensures "types_of_support" != "pregnancy_status" && "types_of_support" != "stage_of_pregnancy"
  {
    assert "medical_history"[0] == 'm' && "pregnancy_status"[0] == 'p';
    assert "types_of_support"[0] == 't' && "stage_of_pregnancy"[0] == 's';
  }

  /** Reloading a saved health row: the "others" text ends up among the
    * checked conditions and the "others" field comes back empty. */
  lemma HealthReload(id: int, h: HealthForm)
    requires forall i :: 0 <= i < |h.medical_history| ==> CleanItem(h.medical_history[i])
    requires forall i :: 0 <= i < |h.types_of_support| ==> CleanItem(h.types_of_support[i])
    requires ',' !in Text(h.medical_history_others)
    ensures var loaded := LoadHealthForm(HealthPayload(id, h).columns);
            && loaded.medical_history ==
                 h.medical_history + (if Truthy(h.medical_history_others) then [Trim(Text(h.medical_history_others))] else [])
            && loaded.medical_history_others == Str("")
            && loaded.types_of_support == h.types_of_support
  {
    HealthPayloadColumns(id, h);
    DecodeDropsOthers(EncodeMedicalHistory(h.medical_history, h.medical_history_others));
    MedicalHistoryRoundTrip(h.medical_history, h.medical_history_others);
    SupportRoundTrip(h.types_of_support);
  }

  // ---------------------------------------------------------------------
  // Checkbox toggles

  /** A checked box appends its item; an unchecked one removes every copy. */
  function Toggle(list: seq<string>, item: string, checked: bool): seq<string>
  {
    if checked then list + [item] else Filter(list, (x: string) => x != item)
  }

  function Other(item: string): string -> bool
  {
    (x: string) => x != item
  }

  /** Checking appends at the end (a second check adds a duplicate);
    * unchecking leaves no copy; in both cases the other items are kept in
    * their order. */
  lemma ToggleEffect(list: seq<string>, item: string, checked: bool)
    ensures checked ==> Toggle(list, item, checked) == list + [item]
    ensures !checked ==> item !in Toggle(list, item, checked)
    ensures Filter(Toggle(list, item, checked), Other(item)) == Filter(list, Other(item))
  {
    var r := Toggle(list, item, checked);
    if checked {
      FilterAppend(list, [item], Other(item));
      assert Filter([item], Other(item)) == [] by {
        assert [item][1..] == [];
      }
    } else {
      assert Filter(list, (x: string) => x != item) == Filter(list, Other(item));
      FilterAll(Filter(list, Other(item)), Other(item));
    }
  }

  // ---------------------------------------------------------------------
  // Address cascade

  /** The entries of a list whose parent code is `code`, in order. */
  function ProvincesOf(provinces: seq<Province>, code: string): (r: seq<Province>)
    ensures forall p :: p in r <==> p in provinces && p.reg_code == code
    ensures IsSubsequence(r, provinces)
  {
    Filter(provinces, (p: Province) => p.reg_code == code)
  }

  function MunicipalitiesOf(municipalities: seq<Municipality>, code: string): (r: seq<Municipality>)
    ensures forall m :: m in r <==> m in municipalities && m.prov_code == code
    ensures IsSubsequence(r, municipalities)
  {
    Filter(municipalities, (m: Municipality) => m.prov_code == code)
  }

  function BarangaysOf(barangays: seq<Barangay>, code: string): (r: seq<Barangay>)
    ensures forall b :: b in r <==> b in barangays && b.mun_code == code
    ensures IsSubsequence(r, barangays)
  {
    Filter(barangays, (b: Barangay) => b.mun_code == code)
  }

  /** `list.find(x => code(x) === c)?.name || c`: the name of the first entry
    * with that code when it is non-empty, otherwise the code itself. */
  function Label<T(==)>(list: seq<T>, codeOf: T -> string, nameOf: T -> string, code: string): (shown: string)
    ensures shown == code || exists x :: x in list && codeOf(x) == code && nameOf(x) == shown && shown != ""
    ensures (forall x :: x in list ==> codeOf(x) != code) ==> shown == code
  {
    match FindIndex(list, (x: T) => codeOf(x) == code)
    case Some(i) => if nameOf(list[i]) != "" then nameOf(list[i]) else code
    case None => code
  }

  function RegionCode(r: Region): string { r.reg_code }
  function RegionName(r: Region): string { r.name }
  function ProvinceCode(p: Province): string { p.prov_code }
  function ProvinceName(p: Province): string { p.name }
  function MunicipalityCode(m: Municipality): string { m.mun_code }
  function MunicipalityName(m: Municipality): string { m.name }

  // ---------------------------------------------------------------------
  // The edit path

  /** Which store requests of the edit path report an error. */
  datatype EditFaults = EditFaults(
    profileUpdate: bool,
    partnerLookup: bool,
    partnerWrite: bool,
    healthLookup: bool,
    healthWrite: bool)

  datatype EditStep = ProfileUpdate | PartnerWrite | HealthWrite

  /** A lookup by `profileid` with `maybeSingle` finds a row only when exactly
    * one row matches; then the row is updated, otherwise inserted. Returns the
    * table and whether the write succeeded. */
  function Upsert<R>(m: map<int, R>, profileOf: R -> int, pid: int, key: int, row: R,
                     lookupFails: bool, writeFails: bool): (r: (map<int, R>, bool))
    ensures !r.1 ==> r.0 == m
    ensures r.1 ==> key in r.0 && r.0[key] == row
    ensures r.0.Keys <= m.Keys + {key}
    // found: the single matching row is updated unless the write fails
    ensures !lookupFails && |KeysWithProfile(m, profileOf, pid)| == 1 ==>
              r == (if writeFails then (m, false) else (UpdateByProfile(m, profileOf, pid, key, row), true))
    // not found (or the lookup failed): inserted, which fails on a taken key
    ensures !(!lookupFails && |KeysWithProfile(m, profileOf, pid)| == 1) ==>
              (r.1 <==> !writeFails && key !in m) && (r.1 ==> r.0 == m[key := row])
    // rows of other profiles are untouched
    ensures forall k :: k in m && k != key && profileOf(m[k]) != pid ==> k in r.0 && r.0[k] == m[k]
  {
    if !lookupFails && |KeysWithProfile(m, profileOf, pid)| == 1 then
      if writeFails then (m, false) else (UpdateByProfile(m, profileOf, pid, key, row), true)
    else if writeFails || key in m then (m, false)
    else (m[key := row], true)
  }

  /** The tables after the edit path's writes, and the step that failed, if
    * any. */
  function EditOutcome(t: Tables, profile: ProfileRow, partner: PartnerRow, health: HealthRow,
                       f: EditFaults): (o: (Tables, Option<EditStep>))
    requires Keyed(t)
    ensures Keyed(o.0)
    // a failed profile update aborts before any partner or health request
    ensures f.profileUpdate ==> o == (t, Some(ProfileUpdate))
    // the edit succeeds exactly when the profile update and both upserts do
    ensures o.1.None? <==>
              && !f.profileUpdate
              && Upsert(t.partners, ProfileOfPartner, profile.profileid, partner.partnerid, partner,
                        f.partnerLookup, f.partnerWrite).1
              && Upsert(t.health, ProfileOfHealth, profile.profileid, health.health_id, health,
                        f.healthLookup, f.healthWrite).1
    // the profile update is never rolled back
    ensures !f.profileUpdate ==>
              o.0.profiles == UpdateByProfile(t.profiles, ProfileOfProfile, profile.profileid, profile.profileid, profile)
    // a failed partner write leaves the partner table as it was and skips health
    ensures o.1 == Some(PartnerWrite) ==> o.0.partners == t.partners && o.0.health == t.health
    // a failed health write keeps the partner write
    ensures o.1 == Some(HealthWrite) ==>
              o.0.health == t.health &&
              o.0.partners == Upsert(t.partners, ProfileOfPartner, profile.profileid, partner.partnerid, partner,
                                     f.partnerLookup, f.partnerWrite).0
  {
    var pid := profile.profileid;
    if f.profileUpdate then (t, Some(ProfileUpdate))
    else
      var t1 := t.(profiles := UpdateByProfile(t.profiles, ProfileOfProfile, pid, pid, profile));
      var p := Upsert(t1.partners, ProfileOfPartner, pid, partner.partnerid, partner, f.partnerLookup, f.partnerWrite);
      if !p.1 then (t1, Some(PartnerWrite))
      else
        var t2 := t1.(partners := p.0);
        var h := Upsert(t2.health, ProfileOfHealth, pid, health.health_id, health, f.healthLookup, f.healthWrite);
        if !h.1 then (t2, Some(HealthWrite))
        else (t2.(health := h.0), None)
  }

  /** After a successful edit the partner and health payloads are stored under
    * the profile id; the profile row is replaced only if one existed, so an
    * edit of an id without a profile row leaves partner and health rows with
    * no profile. */
  lemma EditSuccessStoresPayloads(t: Tables, pid: int, profileData: map<string, Value>,
                                  partnersData: map<string, Value>, healthData: HealthForm, f: EditFaults)
    requires Keyed(t)
    requires EditOutcome(t, ProfilePayload(pid, profileData), PartnerPayload(pid, partnersData),
                         HealthPayload(pid, healthData), f).1.None?
    ensures var o := EditOutcome(t, ProfilePayload(pid, profileData), PartnerPayload(pid, partnersData),
                                 HealthPayload(pid, healthData), f).0;
            && o.partners[pid] == PartnerPayload(pid, partnersData)
            && o.health[pid] == HealthPayload(pid, healthData)
            && (pid in t.profiles ==> o.profiles[pid] == ProfilePayload(pid, profileData))
            && (pid !in t.profiles ==> o.profiles == t.profiles)
  {
    ProfileUpdateByKey(t.profiles, ProfilePayload(pid, profileData));
  }

  /** In a profile table keyed by `profileid`, updating by profile id replaces
    * the row under that key, if there is one. */
  lemma ProfileUpdateByKey(profiles: map<int, ProfileRow>, row: ProfileRow)
    requires forall k :: k in profiles ==> profiles[k].profileid == k
    ensures UpdateByProfile(profiles, ProfileOfProfile, row.profileid, row.profileid, row) ==
            if row.profileid in profiles then profiles[row.profileid := row] else profiles
  {
    var pid := row.profileid;
    assert forall k :: k in profiles ==> ProfileOfProfile(profiles[k]) == k;
    if pid in profiles {
      assert KeysWithProfile(profiles, ProfileOfProfile, pid) == {pid};
    } else {
      assert KeysWithProfile(profiles, ProfileOfProfile, pid) == {};
    }
  }

  /** Updating by profile id with a row of that profile a second time changes
    * nothing more. */
  lemma UpdateByProfileTwice<R>(m: map<int, R>, profileOf: R -> int, pid: int, key: int, row: R)
    requires profileOf(row) == pid
    ensures var m1 := UpdateByProfile(m, profileOf, pid, key, row);
            UpdateByProfile(m1, profileOf, pid, key, row) == m1
  {
    var matched := KeysWithProfile(m, profileOf, pid);
    if matched != {} {
      var m1 := (m - matched)[key := row];
      assert KeysWithProfile(m1, profileOf, pid) == {key};
      assert (m1 - {key})[key := row] == m1;
    }
  }

  /** Writing the same row of profile `pid` twice stores what writing it once
    * does, whatever the lookup and the write report. */
  lemma UpsertTwice<R>(m: map<int, R>, profileOf: R -> int, pid: int, key: int, row: R,
                        lookupFails: bool, writeFails: bool)
    requires profileOf(row) == pid
    ensures var m1 := Upsert(m, profileOf, pid, key, row, lookupFails, writeFails).0;
            Upsert(m1, profileOf, pid, key, row, lookupFails, writeFails).0 == m1
  {
    var r := Upsert(m, profileOf, pid, key, row, lookupFails, writeFails);
    var found := !lookupFails && |KeysWithProfile(m, profileOf, pid)| == 1;
    if r.1 {
      if found {
        UpdateByProfileTwice(m, profileOf, pid, key, row);
        assert KeysWithProfile(r.0, profileOf, pid) == {key};
      } else if !lookupFails && KeysWithProfile(m, profileOf, pid) == {} {
        assert KeysWithProfile(r.0, profileOf, pid) == {key};
        assert (r.0 - {key})[key := row] == r.0;
      } else if !lookupFails {
        // two or more matches, and now the inserted row as well
        var matched := KeysWithProfile(m, profileOf, pid);
        assert key !in matched;
        assert KeysWithProfile(r.0, profileOf, pid) == matched + {key};
        assert |matched + {key}| == |matched| + 1;
      }
    }
  }

  /** Saving the same edit twice leaves the tables as saving it once does,
    * whichever requests fail. */
  lemma EditTwiceIsOnce(t: Tables, pid: int, profileData: map<string, Value>,
                        partnersData: map<string, Value>, healthData: HealthForm, f: EditFaults)
    requires Keyed(t)
    ensures var profile := ProfilePayload(pid, profileData);
            var partner := PartnerPayload(pid, partnersData);
            var health := HealthPayload(pid, healthData);
            var once := EditOutcome(t, profile, partner, health, f).0;
            EditOutcome(once, profile, partner, health, f).0 == once
  {
    var profile := ProfilePayload(pid, profileData);
    var partner := PartnerPayload(pid, partnersData);
    var health := HealthPayload(pid, healthData);
    UpdateByProfileTwice(t.profiles, ProfileOfProfile, pid, pid, profile);
    var p := Upsert(t.partners, ProfileOfPartner, pid, pid, partner, f.partnerLookup, f.partnerWrite);
    UpsertTwice(t.partners, ProfileOfPartner, pid, pid, partner, f.partnerLookup, f.partnerWrite);
    UpsertTwice(t.health, ProfileOfHealth, pid, pid, health, f.healthLookup, f.healthWrite);
  }

  /** Partner and health rows stored under the id of the profile they belong
    * to, as the create path writes them. */
  predicate RowsUnderOwnProfile(t: Tables)
  {
    && (forall k :: k in t.partners ==> t.partners[k].profileid == k)
    && (forall k :: k in t.health ==> t.health[k].profileid == k)
  }

  /** The create path stores partner and health rows under the new profile's
    * id, so tables of that shape keep it. */
  lemma CreateKeepsRowsUnderOwnProfile(t: Tables, id: int, profileData: map<string, Value>,
                                       partnersData: map<string, Value>, healthData: HealthForm, f: Faults)
    requires Keyed(t) && RowsUnderOwnProfile(t)
    ensures RowsUnderOwnProfile(SaveOutcome(t, ProfilePayload(id, profileData), HealthPayload(id, healthData),
                                            PartnerPayload(id, partnersData), f).0)
  {
  }

  /** With no request failing, an edit of tables whose partner and health rows
    * sit under their profile's id succeeds: each row is updated when it
    * exists and inserted when it does not. */
  lemma EditSucceeds(t: Tables, pid: int, profileData: map<string, Value>,
                     partnersData: map<string, Value>, healthData: HealthForm)
    requires Keyed(t) && RowsUnderOwnProfile(t)
    ensures var f := EditFaults(false, false, false, false, false);
            var o := EditOutcome(t, ProfilePayload(pid, profileData), PartnerPayload(pid, partnersData),
                                 HealthPayload(pid, healthData), f);
            && o.1 == None
            && o.0.partners == t.partners[pid := PartnerPayload(pid, partnersData)]
            && o.0.health == t.health[pid := HealthPayload(pid, healthData)]
  {
    UpsertUnderOwnProfile(t.partners, ProfileOfPartner, pid, PartnerPayload(pid, partnersData));
    UpsertUnderOwnProfile(t.health, ProfileOfHealth, pid, HealthPayload(pid, healthData));
  }

  /** In a table whose rows sit under their profile's id, a write of profile
    * `pid`'s row that nothing makes fail stores it under `pid`, by update or
    * by insert. */
  lemma UpsertUnderOwnProfile<R>(m: map<int, R>, profileOf: R -> int, pid: int, row: R)
    requires forall k :: k in m ==> profileOf(m[k]) == k
    requires profileOf(row) == pid
    ensures Upsert(m, profileOf, pid, pid, row, false, false) == (m[pid := row], true)
  {
    forall k | k in KeysWithProfile(m, profileOf, pid)
      ensures k == pid
    {
      assert profileOf(m[k]) == k;
    }
    if pid in m {
      assert KeysWithProfile(m, profileOf, pid) == {pid};
      assert (m - {pid})[pid := row] == m[pid := row];
    } else {
      assert KeysWithProfile(m, profileOf, pid) == {};
    }
  }

  /** The edit path's requests against the store. */
  method SaveEdit(store: Store, profile: ProfileRow, partner: PartnerRow, health: HealthRow, f: EditFaults)
    returns (failedAt: Option<EditStep>)
    requires store.Valid()
    modifies store
    ensures store.Valid()
    ensures (store.State(), failedAt) == EditOutcome(old(store.State()), profile, partner, health, f)
  {
    var profileId := profile.profileid;
    var ok := store.UpdateProfile(profile, f.profileUpdate);
    if !ok {
      return Some(ProfileUpdate);
    }
    var existingPartner := store.PartnerExists(profileId, f.partnerLookup);
    if existingPartner {
      ok := store.UpdatePartners(profileId, partner, f.partnerWrite);
    } else {
      ok := store.InsertPartner(partner, f.partnerWrite);
    }
    if !ok {
      return Some(PartnerWrite);
    }
    var existingHealth := store.HealthExists(profileId, f.healthLookup);
    if existingHealth {
      ok := store.UpdateHealth(profileId, health, f.healthWrite);
    } else {
      ok := store.InsertHealth(health, f.healthWrite);
    }
    if !ok {
      return Some(HealthWrite);
    }
    return None;
  }

  // ---------------------------------------------------------------------
  // The form

  /** Everything the form holds apart from its error line. */
  datatype FormFields = FormFields(
    profileData: map<string, Value>,
    partnersData: map<string, Value>,
    healthData: HealthForm,
    provinceList: seq<Province>,
    municipalityList: seq<Municipality>,
    barangayList: seq<Barangay>)

  const EmptyFields := FormFields(
    map c | c in ProfileColumns :: DefaultFor(c),
    map c | c in PartnerColumns :: DefaultFor(c),
    EmptyHealthForm, [], [], [])

  const NoUserMessage := "No user logged in"
  const DefaultSaveError := "An error occurred while saving the profile"

  /** `err.message || default`. */
  function ErrorText(message: string): string
  {
    if message != "" then message else DefaultSaveError
  }

  /** Where `handleChange` routes a field, in the order it tests them. */
  datatype FieldTarget =
    | ProfileField | PartnerField
    | PregnancyStatus | StageOfPregnancy | MedicalOthers
    | MedicalCondition(condition: string) | SupportNeed(support: string)
    | NoTarget

  function Target(field: string): FieldTarget
  {
    if field in ProfileFields then ProfileField
    else if field in PartnerColumns then PartnerField
    else if field == "pregnancy_status" then PregnancyStatus
    else if field == "stage_of_pregnancy" then StageOfPregnancy
    else if field == "medical_history_others" then MedicalOthers
    else if StartsWith(field, "medical_") then MedicalCondition(field[8..])
    else if StartsWith(field, "support_") then SupportNeed(field[8..])
    else NoTarget
  }

  class ProfileForm {
    var profileData: map<string, Value>
    var partnersData: map<string, Value>
    var healthData: HealthForm
    var provinceList: seq<Province>
    var municipalityList: seq<Municipality>
    var barangayList: seq<Barangay>
    var error: Option<string>
    var isEditing: bool
    // the reference tables
    const regionList: seq<Region>
    const provinces: seq<Province>
    const municipalities: seq<Municipality>
    const barangays: seq<Barangay>

    function Fields(): FormFields
      reads this
    {
      FormFields(profileData, partnersData, healthData, provinceList, municipalityList, barangayList)
    }

    constructor (regionList: seq<Region>, provinces: seq<Province>,
                 municipalities: seq<Municipality>, barangays: seq<Barangay>, isEditing: bool)
      ensures Fields() == EmptyFields && error == None && this.isEditing == isEditing
      ensures this.regionList == regionList && this.provinces == provinces
      ensures this.municipalities == municipalities && this.barangays == barangays
    {
      this.regionList := regionList;
      this.provinces := provinces;
      this.municipalities := municipalities;
      this.barangays := barangays;
      this.isEditing := isEditing;
      var empty := EmptyFields;
      profileData, partnersData, healthData := empty.profileData, empty.partnersData, empty.healthData;
      provinceList, municipalityList, barangayList := empty.provinceList, empty.municipalityList, empty.barangayList;
      error := None;
    }

    /** `resetForm`. */
    method ResetForm()
      modifies this
      ensures Fields() == EmptyFields && error == None && isEditing == old(isEditing)
    {
      var empty := EmptyFields;
      profileData, partnersData, healthData := empty.profileData, empty.partnersData, empty.healthData;
      provinceList, municipalityList, barangayList := empty.provinceList, empty.municipalityList, empty.barangayList;
      error := None;
    }

    /** `handleChange(field, value)`: one part of the form changes, as
      * `Target` routes the field; the age fields go through `Number`. */
    method HandleChange(field: string, value: Value)
      modifies this`profileData, this`partnersData, this`healthData
      ensures match Target(field)
        case ProfileField =>
          profileData == old(profileData)[field := if field == "age" then ToNumber(value) else value] &&
          partnersData == old(partnersData) && healthData == old(healthData)
        case PartnerField =>
          partnersData == old(partnersData)[field := if field == "pAge" then ToNumber(value) else value] &&
          profileData == old(profileData) && healthData == old(healthData)
        case PregnancyStatus =>
          healthData == old(healthData).(pregnancy_status := value) &&
          profileData == old(profileData) && partnersData == old(partnersData)
        case StageOfPregnancy =>
          healthData == old(healthData).(stage_of_pregnancy := value) &&
          profileData == old(profileData) && partnersData == old(partnersData)
        case MedicalOthers =>
          healthData == old(healthData).(medical_history_others := value) &&
          profileData == old(profileData) && partnersData == old(partnersData)
        case MedicalCondition(condition) =>
          healthData == old(healthData).(medical_history := Toggle(old(healthData).medical_history, condition, Truthy(value))) &&
          profileData == old(profileData) && partnersData == old(partnersData)
        case SupportNeed(support) =>
          healthData == old(healthData).(types_of_support := Toggle(old(healthData).types_of_support, support, Truthy(value))) &&
          profileData == old(profileData) && partnersData == old(partnersData)
        case NoTarget =>
          profileData == old(profileData) && partnersData == old(partnersData) && healthData == old(healthData)
      ensures provinceList == old(provinceList) && municipalityList == old(municipalityList)
      ensures barangayList == old(barangayList) && error == old(error) && isEditing == old(isEditing)
    {
      var profile, partners, health := profileData, partnersData, healthData;
      match Target(field) {
        case ProfileField =>
          profile := profile[field := if field == "age" then ToNumber(value) else value];
        case PartnerField =>
          partners := partners[field := if field == "pAge" then ToNumber(value) else value];
        case PregnancyStatus =>
          health := health.(pregnancy_status := value);
        case StageOfPregnancy =>
          health := health.(stage_of_pregnancy := value);
        case MedicalOthers =>
          health := health.(medical_history_others := value);
        case MedicalCondition(condition) =>
          health := health.(medical_history := Toggle(health.medical_history, condition, Truthy(value)));
        case SupportNeed(support) =>
          health := health.(types_of_support := Toggle(health.types_of_support, support, Truthy(value)));
        case NoTarget =>
      }
      profileData, partnersData, healthData := profile, partners, health;
    }

    /** `handleRegionChange(code)`: the province list becomes the region's
      * provinces, the lower lists are cleared and the region's name (or the
      * code) is stored. */
    method HandleRegionChange(regionCode: string)
      modifies this
      ensures provinceList == ProvincesOf(provinces, regionCode)
      ensures municipalityList == [] && barangayList == []
      ensures profileData == old(profileData)["region" := Str(Label(regionList, RegionCode, RegionName, regionCode))]
      ensures partnersData == old(partnersData) && healthData == old(healthData)
      ensures error == old(error) && isEditing == old(isEditing)
    {
      provinceList := ProvincesOf(provinces, regionCode);
      municipalityList := [];
      barangayList := [];
      HandleChange("region", Str(Label(regionList, RegionCode, RegionName, regionCode)));
    }

    /** `handleProvinceChange(code)`: the name is looked up in the current
      * province list, not in the whole table. */
    method HandleProvinceChange(provinceCode: string)
      modifies this
      ensures municipalityList == MunicipalitiesOf(municipalities, provinceCode)
      ensures barangayList == [] && provinceList == old(provinceList)
      ensures profileData == old(profileData)["province" := Str(Label(old(provinceList), ProvinceCode, ProvinceName, provinceCode))]
      ensures partnersData == old(partnersData) && healthData == old(healthData)
      ensures error == old(error) && isEditing == old(isEditing)
    {
      municipalityList := MunicipalitiesOf(municipalities, provinceCode);
      barangayList := [];
      HandleChange("province", Str(Label(provinceList, ProvinceCode, ProvinceName, provinceCode)));
    }

    /** `handleMunicipalityChange(code)`. */
    method HandleMunicipalityChange(municipalityCode: string)
      modifies this
      ensures barangayList == BarangaysOf(barangays, municipalityCode)
      ensures provinceList == old(provinceList) && municipalityList == old(municipalityList)
      ensures profileData == old(profileData)["municipality" := Str(Label(old(municipalityList), MunicipalityCode, MunicipalityName, municipalityCode))]
      ensures partnersData == old(partnersData) && healthData == old(healthData)
      ensures error == old(error) && isEditing == old(isEditing)
    {
      barangayList := BarangaysOf(barangays, municipalityCode);
      HandleChange("municipality", Str(Label(municipalityList, MunicipalityCode, MunicipalityName, municipalityCode)));
    }

    /** `handleBarangayChange(name)`: the barangay is stored by name. */
    method HandleBarangayChange(barangayName: string)
      modifies this
      ensures profileData == old(profileData)["barangay" := Str(barangayName)]
      ensures partnersData == old(partnersData) && healthData == old(healthData)
      ensures provinceList == old(provinceList) && municipalityList == old(municipalityList)
      ensures barangayList == old(barangayList) && error == old(error) && isEditing == old(isEditing)
    {
      HandleChange("barangay", Str(barangayName));
    }

    /** `handleSave`. `signedIn` is the session check, `year` the current
      * year, `storeMessage` the message a failing store request reports. */
    method HandleSave(store: Store, signedIn: bool, editingProfile: Option<int>, year: int,
                      idQueryFails: bool, createFaults: Faults, editFaults: EditFaults, storeMessage: string)
      requires store.Valid()
      modifies this, store
      ensures store.Valid() && isEditing == old(isEditing)
      ensures !signedIn ==>
                store.State() == old(store.State()) && error == Some(NoUserMessage) && Fields() == old(Fields())
      ensures signedIn && !(isEditing && editingProfile.Some?) && idQueryFails ==>
                store.State() == old(store.State()) && error == Some(ErrorText(storeMessage)) && Fields() == old(Fields())
      ensures signedIn && !(!(isEditing && editingProfile.Some?) && idQueryFails) ==>
                Submitted(old(store.State()), store.State(), old(Fields()), Fields(), error,
                          ChosenId(isEditing, editingProfile, year, old(store.profiles).Keys),
                          createFaults, editFaults, storeMessage)
    {
      error := None;
      if !signedIn {
        error := Some(NoUserMessage);
        return;
      }
      var profileId: int;
      if isEditing && editingProfile.Some? {
        profileId := editingProfile.value;
      } else {
        var failed, latest := store.LatestProfileIdIn(year * 10000, (year + 1) * 10000, idQueryFails);
        if failed {
          error := Some(ErrorText(storeMessage));
          return;
        }
        profileId := NextProfileId(year, latest);
      }
      Submit(store, profileId, createFaults, editFaults, storeMessage);
    }

    /** What submitting the payloads under `id` does: the edit path's or the
      * create path's store writes, then a reset form on success or the
      * error message on failure. */
    ghost predicate Submitted(before: Tables, after: Tables, fieldsBefore: FormFields, fieldsAfter: FormFields,
                              err: Option<string>, id: int, createFaults: Faults, editFaults: EditFaults,
                              storeMessage: string)
      reads this
      requires Keyed(before)
    {
      var profile := ProfilePayload(id, fieldsBefore.profileData);
      var partner := PartnerPayload(id, fieldsBefore.partnersData);
      var health := HealthPayload(id, fieldsBefore.healthData);
      if isEditing then
        var o := EditOutcome(before, profile, partner, health, editFaults);
        && after == o.0
        && (o.1.None? ==> err == None && fieldsAfter == EmptyFields)
        && (o.1.Some? ==> err == Some(ErrorText(storeMessage)) && fieldsAfter == fieldsBefore)
      else
        var o := SaveOutcome(before, profile, health, partner, createFaults);
        && after == o.0
        && (o.1.success ==> err == None && fieldsAfter == EmptyFields)
        && (!o.1.success ==> err == Some(o.1.message) && fieldsAfter == fieldsBefore)
    }

    /** The part of `handleSave` after the profile id is chosen. */
    method Submit(store: Store, profileId: int, createFaults: Faults, editFaults: EditFaults, storeMessage: string)
      requires store.Valid() && error == None
      modifies this, store
      ensures store.Valid() && isEditing == old(isEditing)
      ensures Submitted(old(store.State()), store.State(), old(Fields()), Fields(), error, profileId,
                        createFaults, editFaults, storeMessage)
    {
      var profilePayload := ProfilePayload(profileId, profileData);
      var partnersPayload := PartnerPayload(profileId, partnersData);
      var healthPayload := HealthPayload(profileId, healthData);
      if isEditing {
        var failedAt := SaveEdit(store, profilePayload, partnersPayload, healthPayload, editFaults);
        if failedAt.Some? {
          error := Some(ErrorText(storeMessage));
          return;
        }
        ResetForm();
      } else {
        var result := SaveCompleteProfile(store, profilePayload, healthPayload, partnersPayload, createFaults);
        if result.success {
          ResetForm();
        } else {
          error := Some(if result.message != "" then result.message else DefaultSaveError);
        }
      }
    }
  }
}
