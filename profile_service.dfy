/** The hosted store's three profile tables and `saveCompleteProfile`: insert
  * the profile, then its maternal-health record, then its partner record,
  * with best-effort compensating deletes when a later insert fails. */
module ProfileService {
  import opened Wrappers
  import opened JsValues

  /** A `profile` row: its key and the remaining columns by name. */
  datatype ProfileRow = ProfileRow(profileid: int, columns: map<string, Value>)

  /** A `maternalhealthRecord` row, keyed by `health_id`. */
  datatype HealthRow = HealthRow(health_id: int, profileid: int, columns: map<string, Value>)

  /** A `partnersInfo` row, keyed by `partnerid`. */
  datatype PartnerRow = PartnerRow(partnerid: int, profileid: int, columns: map<string, Value>)

  /** The three tables, each a map from primary key to row. */
  datatype Tables = Tables(
    profiles: map<int, ProfileRow>,
    health: map<int, HealthRow>,
    partners: map<int, PartnerRow>)

  /** Every row is stored under its own primary key. */
  predicate Keyed(t: Tables)
  {
    && (forall k :: k in t.profiles ==> t.profiles[k].profileid == k)
    && (forall k :: k in t.health ==> t.health[k].health_id == k)
    && (forall k :: k in t.partners ==> t.partners[k].partnerid == k)
  }

  /** Which store requests of `saveCompleteProfile` report an error (network
    * failure, rejected row, ...). An insert under an existing key fails too. */
  datatype Faults = Faults(
    profileInsert: bool,
    healthInsert: bool,
    profileDelete: bool,
    profileDeleteAgain: bool,
    partnerInsert: bool,
    healthDelete: bool)

  datatype Step = ProfileInsert | HealthInsert | PartnerInsert

  /** `{ success, message, error }`; the error is identified by the step whose
    * request failed. */
  datatype SaveResult = SaveResult(success: bool, message: string, failedAt: Option<Step>)

  const SavedMessage := "Profile information successfully saved"
  const FailedMessage := "Failed to save profile information"

  function Failed(step: Step): SaveResult
  {
    SaveResult(false, FailedMessage, Some(step))
  }

  /** The state of the tables and the result after `saveCompleteProfile`. */
  function SaveOutcome(t: Tables, profile: ProfileRow, healthData: HealthRow, partner: PartnerRow, f: Faults): (o: (Tables, SaveResult))
    requires Keyed(t)
    ensures Keyed(o.0)
    // success exactly when all three inserts go through
    ensures o.1.success <==>
              && !f.profileInsert && profile.profileid !in t.profiles
              && !f.healthInsert && healthData.health_id !in t.health
              && !f.partnerInsert && partner.partnerid !in t.partners
    ensures o.1.success <==> o.1.failedAt.None?
    // a failed profile insert changes nothing and attempts nothing else
    ensures (f.profileInsert || profile.profileid in t.profiles) ==>
              o == (t, Failed(ProfileInsert))
    // a failed health insert: the profile row is deleted (unless both deletes
    // fail) and the partner insert is never attempted
    ensures !(f.profileInsert || profile.profileid in t.profiles) &&
            (f.healthInsert || healthData.health_id in t.health) ==>
              && o.1 == Failed(HealthInsert)
              && o.0.health == t.health && o.0.partners == t.partners
              && o.0.profiles == (if f.profileDelete && f.profileDeleteAgain
                                  then t.profiles[profile.profileid := profile]
                                  else t.profiles)
    // a failed partner insert: only the health row is deleted; the profile
    // row stays
    ensures !(f.profileInsert || profile.profileid in t.profiles) &&
            !(f.healthInsert || healthData.health_id in t.health) &&
            (f.partnerInsert || partner.partnerid in t.partners) ==>
              && o.1 == Failed(PartnerInsert)
              && o.0.profiles == t.profiles[profile.profileid := profile]
              && o.0.partners == t.partners
              && o.0.health == (if f.healthDelete
                                then t.health[healthData.health_id := healthData.(profileid := profile.profileid)]
                                else t.health)
    // on success the dependent rows carry the profile's id, whatever their
    // payloads said
    ensures o.1.success ==>
              && o.0.profiles == t.profiles[profile.profileid := profile]
              && o.0.health == t.health[healthData.health_id := healthData.(profileid := profile.profileid)]
              && o.0.partners == t.partners[partner.partnerid := partner.(profileid := profile.profileid)]
  {
    var pid := profile.profileid;
    if f.profileInsert || pid in t.profiles then (t, Failed(ProfileInsert))
    else
      var t1 := t.(profiles := t.profiles[pid := profile]);
      var h := healthData.(profileid := pid);
      if f.healthInsert || h.health_id in t1.health then
        var t2 := if f.profileDelete then t1 else t1.(profiles := t1.profiles - {pid});
        var t3 := if f.profileDeleteAgain then t2 else t2.(profiles := t2.profiles - {pid});
        (t3, Failed(HealthInsert))
      else
        var t2 := t1.(health := t1.health[h.health_id := h]);
        var p := partner.(profileid := pid);
        if f.partnerInsert || p.partnerid in t2.partners then
          var t3 := if f.healthDelete then t2 else t2.(health := t2.health - {healthData.health_id});
          (t3, Failed(PartnerInsert))
        else
          (t2.(partners := t2.partners[p.partnerid := p]), SaveResult(true, SavedMessage, None))
  }

  /** The largest id of `ids` in `[lo, hi)`, if any: the answer of the
    * descending, limit-one range query. */
  function LatestId(ids: set<int>, lo: int, hi: int): (r: Option<int>)
    decreases hi - lo
    ensures r.Some? ==> r.value in ids && lo <= r.value < hi
    ensures r.Some? ==> forall k :: k in ids && lo <= k < hi ==> k <= r.value
    ensures r.None? <==> forall k :: k in ids ==> !(lo <= k < hi)
  {
    if hi <= lo then None
    else if hi - 1 in ids then Some(hi - 1)
    else LatestId(ids, lo, hi - 1)
  }

  /** An id at the top of the range is the answer. */
  lemma LatestIdIsTop(ids: set<int>, lo: int, hi: int)
    requires lo < hi && hi - 1 in ids
    ensures LatestId(ids, lo, hi) == Some(hi - 1)
  {
  }

  /** The rows of `m` whose `profileid` column is `pid`. */
  function KeysWithProfile<R>(m: map<int, R>, profileOf: R -> int, pid: int): set<int>
  {
    set k | k in m && profileOf(m[k]) == pid
  }

  /** `.update(row).eq('profileid', pid)`: every matching row is replaced by
    * `row`, stored under `key`; with no matching row nothing changes (and no
    * error is reported). */
  function UpdateByProfile<R>(m: map<int, R>, profileOf: R -> int, pid: int, key: int, row: R): map<int, R>
  {
    var matched := KeysWithProfile(m, profileOf, pid);
    if matched == {} then m else (m - matched)[key := row]
  }

  function ProfileOfPartner(p: PartnerRow): int { p.profileid }

  function ProfileOfHealth(h: HealthRow): int { h.profileid }

  function ProfileOfProfile(p: ProfileRow): int { p.profileid }

  /** The hosted store: one object holding the three tables, changed in place
    * by the requests below. Each request takes whether it fails. */
  class Store {
    var profiles: map<int, ProfileRow>
    var health: map<int, HealthRow>
    var partners: map<int, PartnerRow>

    function State(): Tables
      reads this
    {
      Tables(profiles, health, partners)
    }

    ghost predicate Valid()
      reads this
    {
      Keyed(State())
    }

    constructor (t: Tables)
      requires Keyed(t)
      ensures Valid() && State() == t
    {
      profiles, health, partners := t.profiles, t.health, t.partners;
    }

    /** `.select('profileid').gte(lo).lt(hi).order('profileid', desc).limit(1)`:
      * the largest profile id in `[lo, hi)`, or nothing; `err` on a store error. */
    method LatestProfileIdIn(lo: int, hi: int, fails: bool) returns (err: bool, latest: Option<int>)
      ensures err == fails
      ensures !err ==> latest == LatestId(profiles.Keys, lo, hi)
    {
      if fails {
        return true, None;
      }
      // walk the range downwards: the first stored id met is the largest
      var id := hi;
      while id > lo
        invariant LatestId(profiles.Keys, lo, hi) == LatestId(profiles.Keys, lo, id)
      {
        id := id - 1;
        if id in profiles {
          return false, Some(id);
        }
      }
      return false, None;
    }

    method InsertProfile(row: ProfileRow, fails: bool) returns (ok: bool)
      requires Valid()
      modifies this
      ensures Valid()
      ensures ok <==> !fails && row.profileid !in old(profiles)
      ensures profiles == (if ok then old(profiles)[row.profileid := row] else old(profiles))
      ensures health == old(health) && partners == old(partners)
    {
      ok := !fails && row.profileid !in profiles;
      if ok {
        profiles := profiles[row.profileid := row];
      }
    }

    method InsertHealth(row: HealthRow, fails: bool) returns (ok: bool)
      requires Valid()
      modifies this
      ensures Valid()
      ensures ok <==> !fails && row.health_id !in old(health)
      ensures health == (if ok then old(health)[row.health_id := row] else old(health))
      ensures profiles == old(profiles) && partners == old(partners)
    {
      ok := !fails && row.health_id !in health;
      if ok {
        health := health[row.health_id := row];
      }
    }

    method InsertPartner(row: PartnerRow, fails: bool) returns (ok: bool)
      requires Valid()
      modifies this
      ensures Valid()
      ensures ok <==> !fails && row.partnerid !in old(partners)
      ensures partners == (if ok then old(partners)[row.partnerid := row] else old(partners))
      ensures profiles == old(profiles) && health == old(health)
    {
      ok := !fails && row.partnerid !in partners;
      if ok {
        partners := partners[row.partnerid := row];
      }
    }

    /** `.delete().match({ profileid })`. */
    method DeleteProfile(pid: int, fails: bool)
      requires Valid()
      modifies this
      ensures Valid()
      ensures profiles == (if fails then old(profiles) else old(profiles) - {pid})
      ensures health == old(health) && partners == old(partners)
    {
      if !fails {
        profiles := profiles - {pid};
      }
    }

    /** `.delete().match({ health_id })`. */
    method DeleteHealth(id: int, fails: bool)
      requires Valid()
      modifies this
      ensures Valid()
      ensures health == (if fails then old(health) else old(health) - {id})
      ensures profiles == old(profiles) && partners == old(partners)
    {
      if !fails {
        health := health - {id};
      }
    }

    /** `.update(row).eq('profileid', row.profileid)` on `profile`. */
    method UpdateProfile(row: ProfileRow, fails: bool) returns (ok: bool)
      requires Valid()
      modifies this
      ensures Valid()
      ensures ok == !fails
      ensures profiles == (if ok then UpdateByProfile(old(profiles), ProfileOfProfile, row.profileid, row.profileid, row)
                           else old(profiles))
      ensures health == old(health) && partners == old(partners)
    {
      ok := !fails;
      if ok {
        profiles := UpdateByProfile(profiles, ProfileOfProfile, row.profileid, row.profileid, row);
      }
    }

    /** `.update(row).eq('profileid', pid)` on `partnersInfo`. */
    method UpdatePartners(pid: int, row: PartnerRow, fails: bool) returns (ok: bool)
      requires Valid()
      modifies this
      ensures Valid()
      ensures ok == !fails
      ensures partners == (if ok then UpdateByProfile(old(partners), ProfileOfPartner, pid, row.partnerid, row)
                           else old(partners))
      ensures profiles == old(profiles) && health == old(health)
    {
      ok := !fails;
      if ok {
        partners := UpdateByProfile(partners, ProfileOfPartner, pid, row.partnerid, row);
      }
    }

    /** `.update(row).eq('profileid', pid)` on `maternalhealthRecord`. */
    method UpdateHealth(pid: int, row: HealthRow, fails: bool) returns (ok: bool)
      requires Valid()
      modifies this
      ensures Valid()
      ensures ok == !fails
      ensures health == (if ok then UpdateByProfile(old(health), ProfileOfHealth, pid, row.health_id, row)
                         else old(health))
      ensures profiles == old(profiles) && partners == old(partners)
    {
      ok := !fails;
      if ok {
        health := UpdateByProfile(health, ProfileOfHealth, pid, row.health_id, row);
      }
    }

    /** `.select(..).eq('profileid', pid).maybeSingle()` on `partnersInfo`:
      * a row is reported only when exactly one matches and the request
      * succeeds; more than one match is an error, read as "no row". */
    method PartnerExists(pid: int, fails: bool) returns (found: bool)
      ensures found <==> !fails && |KeysWithProfile(partners, ProfileOfPartner, pid)| == 1
    {
      found := !fails && |KeysWithProfile(partners, ProfileOfPartner, pid)| == 1;
    }

    /** The same lookup on `maternalhealthRecord`. */
    method HealthExists(pid: int, fails: bool) returns (found: bool)
      ensures found <==> !fails && |KeysWithProfile(health, ProfileOfHealth, pid)| == 1
    {
      found := !fails && |KeysWithProfile(health, ProfileOfHealth, pid)| == 1;
    }
  }

  /** `saveCompleteProfile`: the request sequence against the store. */
  method SaveCompleteProfile(store: Store, profileData: ProfileRow, maternalHealthData: HealthRow,
                             partnersPayload: PartnerRow, f: Faults) returns (r: SaveResult)
    requires store.Valid()
    modifies store
    ensures store.Valid()
    ensures (store.State(), r) == SaveOutcome(old(store.State()), profileData, maternalHealthData, partnersPayload, f)
  {
    var ok := store.InsertProfile(profileData, f.profileInsert);
    if !ok {
      return Failed(ProfileInsert);
    }
    var profileid := profileData.profileid;
    ok := store.InsertHealth(maternalHealthData.(profileid := profileid), f.healthInsert);
    if !ok {
      store.DeleteProfile(profileid, f.profileDelete);
      store.DeleteProfile(profileid, f.profileDeleteAgain);
      return Failed(HealthInsert);
    }
    ok := store.InsertPartner(partnersPayload.(profileid := profileid), f.partnerInsert);
    if !ok {
      store.DeleteHealth(maternalHealthData.health_id, f.healthDelete);
      return Failed(PartnerInsert);
    }
    return SaveResult(true, SavedMessage, None);
  }
}
