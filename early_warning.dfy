/** Early-warning risk derivation: every profile in the selected location is
  * checked for a repeated pregnancy (latest maternal-health record) and for a
  * school dropout (an education record with status "Dropout"); flagged
  * profiles are graded, the list is ordered high risk first, and three
  * counts are tallied. */
module EarlyWarning {
  import opened Wrappers
  import opened Seqs

  /** The profile columns the derivation reads. */
  datatype Profile = Profile(
    profileid: int,
    firstName: string,
    lastName: string,
    age: Option<int>,
    barangay: string,
    municipality: string)

  /** A `maternalhealthRecord` row, reduced to the columns read here. */
  datatype HealthRecord = HealthRecord(health_id: int, profileid: int, num_of_pregnancies: Option<int>)

  /** An `EducationAndTraining` row, reduced to the columns read here. */
  datatype EducationRecord = EducationRecord(
    educationid: int,
    profileid: int,
    status: string,
    enroll_dropout_Date: Option<string>)

  /** The profiles whose health lookup and whose education lookup come back
    * with an error. The code ignores the error: `data` is null and the
    * profile reads as having no record. */
  datatype LookupFaults = LookupFaults(health: set<int>, edu: set<int>)

  datatype RiskLevel = High | Medium

  datatype EarlyWarningCase = EarlyWarningCase(
    profileid: int,
    name: string,
    age: int,
    location: string,
    repeatedPregnancy: bool,
    pregnancyCount: int,
    schoolDropout: bool,
    dropoutDate: string,
    riskLevel: RiskLevel)

  datatype WarningStats = WarningStats(totalHighRisk: nat, totalRepeatedPregnancy: nat, totalDropouts: nat)

  /** The answer to `.eq(...).order(key, { ascending: false }).limit(1)`: a
    * matching row whose key is the largest, or nothing. */
  function Latest<R(==)>(rows: seq<R>, matches: R -> bool, key: R -> int): (r: Option<R>)
    ensures r.None? <==> forall i :: 0 <= i < |rows| ==> !matches(rows[i])
    ensures r.Some? ==> r.value in rows && matches(r.value)
    ensures r.Some? ==> forall i :: 0 <= i < |rows| && matches(rows[i]) ==> key(rows[i]) <= key(r.value)
  {
    if |rows| == 0 then None
    else
      var rest := Latest(rows[1..], matches, key);
      if !matches(rows[0]) then rest
      else if rest.Some? && key(rest.value) > key(rows[0]) then rest
      else Some(rows[0])
  }

  /** The profile's health record with the highest `health_id`. */
  function LatestHealthRecord(health: seq<HealthRecord>, pid: int): Option<HealthRecord>
  {
    Latest(health, (h: HealthRecord) => h.profileid == pid, (h: HealthRecord) => h.health_id)
  }

  predicate IsDropoutOf(e: EducationRecord, pid: int)
  {
    e.profileid == pid && e.status == "Dropout"
  }

  /** The profile's "Dropout" education record with the highest `educationid`. */
  function LatestDropout(edu: seq<EducationRecord>, pid: int): Option<EducationRecord>
  {
    Latest(edu, (e: EducationRecord) => IsDropoutOf(e, pid), (e: EducationRecord) => e.educationid)
  }

  predicate Flagged(c: EarlyWarningCase)
  {
    c.repeatedPregnancy || c.schoolDropout
  }

  /** The grade agrees with the flags: high exactly when both hold. */
  predicate WellGraded(c: EarlyWarningCase)
  {
    c.riskLevel == High <==> c.repeatedPregnancy && c.schoolDropout
  }

  /** The case the loop body builds for one profile, before the inclusion test. */
  function Assess(p: Profile, health: seq<HealthRecord>, edu: seq<EducationRecord>, faults: LookupFaults): (c: EarlyWarningCase)
    ensures c.profileid == p.profileid && WellGraded(c)
    ensures c.repeatedPregnancy <==> c.pregnancyCount >= 2
    ensures p.profileid in faults.health ==> c.pregnancyCount == 0
    ensures (forall h :: h in health ==> h.profileid != p.profileid) ==> c.pregnancyCount == 0
    ensures p.profileid !in faults.health && (exists h :: h in health && h.profileid == p.profileid) ==>
              exists h :: h in health && h.profileid == p.profileid &&
                (forall g :: g in health && g.profileid == p.profileid ==> g.health_id <= h.health_id) &&
                c.pregnancyCount == h.num_of_pregnancies.GetOr(0)
    ensures c.schoolDropout <==> p.profileid !in faults.edu && exists e :: e in edu && IsDropoutOf(e, p.profileid)
    ensures c.schoolDropout ==>
              exists e :: e in edu && IsDropoutOf(e, p.profileid) &&
                (forall g :: g in edu && IsDropoutOf(g, p.profileid) ==> g.educationid <= e.educationid) &&
                c.dropoutDate == e.enroll_dropout_Date.GetOr("")
    ensures !c.schoolDropout ==> c.dropoutDate == ""
  {
    var h := if p.profileid in faults.health then None else LatestHealthRecord(health, p.profileid);
    var count := if h.Some? then h.value.num_of_pregnancies.GetOr(0) else 0;
    var repeated := h.Some? && count >= 2;
    var d := if p.profileid in faults.edu then None else LatestDropout(edu, p.profileid);
    var date := if d.Some? then d.value.enroll_dropout_Date.GetOr("") else "";
    EarlyWarningCase(
      p.profileid,
      p.firstName + " " + p.lastName,
      p.age.GetOr(0),
      p.barangay + ", " + p.municipality,
      repeated,
      count,
      d.Some?,
      date,
      if repeated && d.Some? then High else Medium)
  }

  /** The `warnings` list the loop has built after visiting `ps`, in visiting order. */
  function Collect(ps: seq<Profile>, health: seq<HealthRecord>, edu: seq<EducationRecord>, faults: LookupFaults): (ws: seq<EarlyWarningCase>)
    ensures |ws| <= |ps|
    ensures forall c :: c in ws ==> Flagged(c) && WellGraded(c)
  {
    if |ps| == 0 then []
    else
      var c := Assess(ps[|ps| - 1], health, edu, faults);
      Collect(ps[..|ps| - 1], health, edu, faults) + (if Flagged(c) then [c] else [])
  }

  /** A case is collected exactly when it is the assessment of a visited
    * profile that carries at least one flag. */
  lemma CollectedIff(ps: seq<Profile>, health: seq<HealthRecord>, edu: seq<EducationRecord>, faults: LookupFaults, c: EarlyWarningCase)
    ensures c in Collect(ps, health, edu, faults) <==> exists p :: p in ps && IsCaseOf(c, p, health, edu, faults) && Flagged(c)
  {
    if c in Collect(ps, health, edu, faults) {
      CollectedSound(ps, health, edu, faults, c);
    }
    if exists p :: p in ps && IsCaseOf(c, p, health, edu, faults) && Flagged(c) {
      var p :| p in ps && IsCaseOf(c, p, health, edu, faults) && Flagged(c);
      CollectedComplete(ps, health, edu, faults, p);
    }
  }

  /** Every collected case is the flagged assessment of a visited profile. */
  lemma {:induction false} CollectedSound(ps: seq<Profile>, health: seq<HealthRecord>, edu: seq<EducationRecord>, faults: LookupFaults, c: EarlyWarningCase)
    requires c in Collect(ps, health, edu, faults)
    ensures exists p :: p in ps && IsCaseOf(c, p, health, edu, faults) && Flagged(c)
  {
    var init, last := ps[..|ps| - 1], ps[|ps| - 1];
    var rest := Collect(init, health, edu, faults);
    CollectLast(ps, health, edu, faults);
    SplitLast(ps);
    if c in rest {
      CollectedSound(init, health, edu, faults, c);
      var p :| p in init && IsCaseOf(c, p, health, edu, faults) && Flagged(c);
      assert p in ps;
    } else {
      assert last in ps && IsCaseOf(c, last, health, edu, faults);
    }
  }

  /** Every visited profile whose assessment is flagged is collected. */
  lemma {:induction false} CollectedComplete(ps: seq<Profile>, health: seq<HealthRecord>, edu: seq<EducationRecord>, faults: LookupFaults, p: Profile)
    requires p in ps && Flagged(Assess(p, health, edu, faults))
    ensures Assess(p, health, edu, faults) in Collect(ps, health, edu, faults)
  {
    var init, last := ps[..|ps| - 1], ps[|ps| - 1];
    CollectLast(ps, health, edu, faults);
    SplitLast(ps);
    if p in init {
      CollectedComplete(init, health, edu, faults, p);
    } else {
      assert p == last;
    }
  }

  /** A profile whose two lookups both fail carries no flag, so it is never
    * reported, whatever records the store holds for it. */
  lemma FailedLookupsNotReported(ps: seq<Profile>, health: seq<HealthRecord>, edu: seq<EducationRecord>, faults: LookupFaults)
    ensures forall c :: c in Collect(ps, health, edu, faults) ==> c.profileid !in faults.health * faults.edu
  {
    forall c | c in Collect(ps, health, edu, faults)
      ensures c.profileid !in faults.health * faults.edu
    {
      CollectedSound(ps, health, edu, faults, c);
    }
  }

  /** `c` is the case the loop body builds for `p`. */
  predicate IsCaseOf(c: EarlyWarningCase, p: Profile, health: seq<HealthRecord>, edu: seq<EducationRecord>, faults: LookupFaults)
  {
    Assess(p, health, edu, faults) == c
  }

  /** Visiting one more profile appends its case when it is flagged. */
  lemma CollectLast(ps: seq<Profile>, health: seq<HealthRecord>, edu: seq<EducationRecord>, faults: LookupFaults)
    requires |ps| > 0
    ensures var c := Assess(ps[|ps| - 1], health, edu, faults);
            Collect(ps, health, edu, faults) == Collect(ps[..|ps| - 1], health, edu, faults) + (if Flagged(c) then [c] else [])
  {
  }

  /** Each visited profile contributes exactly when it is flagged: the number
    * of cases equals the number of flagged profiles. */
  lemma {:induction false} CollectCount(ps: seq<Profile>, health: seq<HealthRecord>, edu: seq<EducationRecord>, faults: LookupFaults)
    ensures |Collect(ps, health, edu, faults)| == |Filter(ps, FlaggedIn(health, edu, faults))|
  {
    if |ps| > 0 {
      CollectCount(ps[..|ps| - 1], health, edu, faults);
      CollectStep(ps, health, edu, faults);
      FilterLast(ps, FlaggedIn(health, edu, faults));
    }
  }

  /** One more visited profile adds one case exactly when it is flagged. */
  lemma CollectStep(ps: seq<Profile>, health: seq<HealthRecord>, edu: seq<EducationRecord>, faults: LookupFaults)
    requires |ps| > 0
    ensures |Collect(ps, health, edu, faults)| ==
            |Collect(ps[..|ps| - 1], health, edu, faults)| + |Filter([ps[|ps| - 1]], FlaggedIn(health, edu, faults))|
  {
  }

  /** Whether a profile's assessment carries a flag. */
  function FlaggedIn(health: seq<HealthRecord>, edu: seq<EducationRecord>, faults: LookupFaults): Profile -> bool
  {
    (p: Profile) => Flagged(Assess(p, health, edu, faults))
  }

  predicate IsHigh(c: EarlyWarningCase) { c.riskLevel == High }

  predicate IsMedium(c: EarlyWarningCase) { c.riskLevel == Medium }

  /** Every high entry precedes every medium entry. */
  predicate HighFirst(ws: seq<EarlyWarningCase>)
  {
    forall i, j :: 0 <= i < j < |ws| ==> !(IsMedium(ws[i]) && IsHigh(ws[j]))
  }

  /** The outcome of `warnings.sort(cmp)` with the comparator that puts
    * 'high' before 'medium' and answers 0 otherwise. The sort is stable, so
    * the result is the high entries followed by the medium entries, each in
    * their original order (see the three lemmas below). */
  function SortHighFirst(ws: seq<EarlyWarningCase>): seq<EarlyWarningCase>
  {
    Filter(ws, IsHigh) + Filter(ws, IsMedium)
  }

  /** After the sort every high entry precedes every medium entry. */
  lemma SortHighFirstOrders(ws: seq<EarlyWarningCase>)
    ensures HighFirst(SortHighFirst(ws))
  {
    var highs, mediums := Filter(ws, IsHigh), Filter(ws, IsMedium);
    var r := highs + mediums;
    forall i, j | 0 <= i < j < |r|
      ensures !(IsMedium(r[i]) && IsHigh(r[j]))
    {
      if j < |highs| {
        assert r[i] == highs[i] && highs[i] in highs;
      } else {
        assert r[j] == mediums[j - |highs|] && mediums[j - |highs|] in mediums;
      }
    }
  }

  /** The sort is a permutation of the collected entries. */
  lemma SortHighFirstPermutes(ws: seq<EarlyWarningCase>)
    ensures multiset(SortHighFirst(ws)) == multiset(ws)
  {
    FilterPartition(ws, IsHigh, IsMedium);
  }

  /** The sort keeps the relative order of the entries within each tier. */
  lemma SortHighFirstStable(ws: seq<EarlyWarningCase>)
    ensures Filter(SortHighFirst(ws), IsHigh) == Filter(ws, IsHigh)
    ensures Filter(SortHighFirst(ws), IsMedium) == Filter(ws, IsMedium)
  {
    var highs, mediums := Filter(ws, IsHigh), Filter(ws, IsMedium);
    FilterAppend(highs, mediums, IsHigh);
    FilterAppend(highs, mediums, IsMedium);
    FilterAll(highs, IsHigh);
    FilterAll(mediums, IsMedium);
    FilterNone(highs, IsMedium);
    FilterNone(mediums, IsHigh);
  }

  predicate HasRepeatedPregnancy(c: EarlyWarningCase) { c.repeatedPregnancy }

  predicate HasDropout(c: EarlyWarningCase) { c.schoolDropout }

  /** The three tallies, each a `filter(...).length`. */
  function Stats(ws: seq<EarlyWarningCase>): WarningStats
  {
    WarningStats(
      |Filter(ws, IsHigh)|,
      |Filter(ws, HasRepeatedPregnancy)|,
      |Filter(ws, HasDropout)|)
  }

  /** For flagged, well-graded cases the high count is the overlap of the two
    * flag counts, so the counts add up to the number of cases. */
  lemma {:induction false} StatsIdentity(ws: seq<EarlyWarningCase>)
    requires forall c :: c in ws ==> Flagged(c) && WellGraded(c)
    ensures Stats(ws).totalHighRisk <= Stats(ws).totalRepeatedPregnancy
    ensures Stats(ws).totalHighRisk <= Stats(ws).totalDropouts
    ensures Stats(ws).totalRepeatedPregnancy + Stats(ws).totalDropouts - Stats(ws).totalHighRisk == |ws|
  {
    if |ws| > 0 {
      assert ws[0] in ws;
      assert forall c :: c in ws[1..] ==> c in ws;
      StatsIdentity(ws[1..]);
    }
  }

  /** `fetchEarlyWarnings`: the location-filtered profile query, the
    * per-profile loop that pushes flagged cases, the sort and the tallies.
    * A failed profile query yields the empty report; a failed per-profile
    * lookup (`faults`) reads as no record. */
  method FetchEarlyWarnings(
    profileTable: seq<Profile>,
    inLocation: Profile -> bool,
    profileQueryFails: bool,
    health: seq<HealthRecord>,
    edu: seq<EducationRecord>,
    faults: LookupFaults)
    returns (warnings: seq<EarlyWarningCase>, stats: WarningStats)
    ensures profileQueryFails ==> warnings == [] && stats == WarningStats(0, 0, 0)
    ensures !profileQueryFails ==>
              warnings == SortHighFirst(Collect(Filter(profileTable, inLocation), health, edu, faults))
    ensures stats == Stats(warnings)
    ensures forall c :: c in warnings ==> Flagged(c) && WellGraded(c)
    ensures stats.totalRepeatedPregnancy + stats.totalDropouts - stats.totalHighRisk == |warnings|
  {
    if profileQueryFails {
      return [], WarningStats(0, 0, 0);
    }
    var profiles := Filter(profileTable, inLocation);
    warnings := [];
    for i := 0 to |profiles|
      invariant warnings == Collect(profiles[..i], health, edu, faults)
    {
      var profile := profiles[i];
      var repeatedPregnancy := false;
      var pregnancyCount := 0;
      var schoolDropout := false;
      var dropoutDate := "";

      var healthRecord := None;
      if profile.profileid !in faults.health {
        healthRecord := LatestHealthRecord(health, profile.profileid);
      }
      if healthRecord.Some? {
        pregnancyCount := healthRecord.value.num_of_pregnancies.GetOr(0);
        repeatedPregnancy := pregnancyCount >= 2;
      }

      var eduRecord := None;
      if profile.profileid !in faults.edu {
        eduRecord := LatestDropout(edu, profile.profileid);
      }
      if eduRecord.Some? {
        schoolDropout := true;
        dropoutDate := eduRecord.value.enroll_dropout_Date.GetOr("");
      }

      if repeatedPregnancy || schoolDropout {
        var riskLevel := if repeatedPregnancy && schoolDropout then High else Medium;
        warnings := warnings + [EarlyWarningCase(
          profile.profileid,
          profile.firstName + " " + profile.lastName,
          profile.age.GetOr(0),
          profile.barangay + ", " + profile.municipality,
          repeatedPregnancy,
          pregnancyCount,
          schoolDropout,
          dropoutDate,
          riskLevel)];
      }
      assert profiles[..i + 1][..i] == profiles[..i];
    }
    assert profiles[..|profiles|] == profiles;
    ghost var collected := warnings;
    warnings := SortHighFirst(warnings);
    SortHighFirstPermutes(collected);
    assert forall c :: c in warnings ==> c in multiset(collected);
    stats := Stats(warnings);
    StatsIdentity(warnings);
  }
}
