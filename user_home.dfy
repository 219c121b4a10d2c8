/** The teen's home page: find the visit schedules that belong to the signed-in
  * user (users row → profiles with the same name → health records → visits),
  * save the user's name, and the display rules of a schedule card. */
module UserHome {
  import opened Wrappers
  import opened Seqs
  import opened Strings
  import opened Users

  /** A `profile` row as the page selects it. */
  datatype ProfileName = ProfileName(profileid: int, firstName: string, lastName: string)

  /** A `maternalhealthRecord` row as the page selects it. */
  datatype HealthLink = HealthLink(health_id: int, profileid: int)

  /** A `PrenatalPostnatalVisit` row. */
  datatype Visit = Visit(
    visitid: int,
    prenatal_visit_num: int,
    prenatal_next_sched: string,
    postnatal_visit_num: int,
    postnatal_next_sched: string,
    care_compliance: string,
    health_id: int)

  datatype Person = Person(firstName: string, lastName: string)

  /** A visit with the name of the profile it belongs to, when found. */
  datatype VisitSchedule = VisitSchedule(visit: Visit, profile: Option<Person>)

  const NoUserMessage := "No user logged in"
  const NoUserRowMessage := "User profile not found"
  const NoNameMessage := "Please update your profile with your first and last name to view schedules"
  const NoProfileMessage := "No health profiles found matching your name. Please contact your health worker."
  const NoHealthMessage := "No health records found. Please contact your health worker."
  const VisitFailedMessage := "Failed to load schedules"

  // ---------------------------------------------------------------- queries

  function NameIs(first: string, last: string): ProfileName -> bool
  {
    (p: ProfileName) => p.firstName == first && p.lastName == last
  }

  /** The profiles whose first and last names both equal the user's. */
  function NameMatches(table: seq<ProfileName>, first: string, last: string): (r: seq<ProfileName>)
    ensures forall p :: p in r <==> p in table && p.firstName == first && p.lastName == last
    ensures IsSubsequence(r, table)
  {
    Filter(table, NameIs(first, last))
  }

  function ProfileIds(profiles: seq<ProfileName>): set<int>
  {
    set p | p in profiles :: p.profileid
  }

  function ProfileIn(ids: set<int>): HealthLink -> bool
  {
    (h: HealthLink) => h.profileid in ids
  }

  /** The health records of the matched profiles (`.in('profileid', ids)`). */
  function HealthFor(table: seq<HealthLink>, profiles: seq<ProfileName>): (r: seq<HealthLink>)
    ensures forall h :: h in r <==> h in table && exists p :: p in profiles && p.profileid == h.profileid
  {
    Filter(table, ProfileIn(ProfileIds(profiles)))
  }

  function HealthIds(health: seq<HealthLink>): set<int>
  {
    set h | h in health :: h.health_id
  }

  function HealthIn(ids: set<int>): Visit -> bool
  {
    (v: Visit) => v.health_id in ids
  }

  /** `visits` sorted by `visitid`, largest first, stated on neighbours. */
  predicate Descending(vs: seq<Visit>)
  {
    |vs| <= 1 || (vs[0].visitid >= vs[1].visitid && Descending(vs[1..]))
  }

  /** Sorted on neighbours means sorted on every pair. */
  lemma {:induction false} DescendingPairs(vs: seq<Visit>)
    requires Descending(vs)
    ensures forall i, j :: 0 <= i < j < |vs| ==> vs[i].visitid >= vs[j].visitid
  {
    if |vs| > 1 {
      DescendingPairs(vs[1..]);
      assert forall j :: 1 <= j < |vs| ==> vs[j] == vs[1..][j - 1];
    }
  }

  function InsertDescending(v: Visit, vs: seq<Visit>): (r: seq<Visit>)
    requires Descending(vs)
    ensures Descending(r)
    ensures |r| == |vs| + 1
    ensures r[0] == v || (|vs| > 0 && r[0] == vs[0])
    ensures multiset(r) == multiset(vs) + multiset{v}
  {
    if vs == [] || vs[0].visitid <= v.visitid then [v] + vs
    else
      var rest := InsertDescending(v, vs[1..]);
      assert vs == [vs[0]] + vs[1..];
      assert ([vs[0]] + rest)[1..] == rest;
      [vs[0]] + rest
  }

  /** `.order('visitid', { ascending: false })`. */
  function SortDescending(vs: seq<Visit>): (r: seq<Visit>)
    ensures Descending(r)
    ensures multiset(r) == multiset(vs)
  {
    if vs == [] then []
    else
      assert vs == [vs[0]] + vs[1..];
      InsertDescending(vs[0], SortDescending(vs[1..]))
  }

  /** Sequences with the same multiset have the same members. */
  lemma SameMembers(a: seq<Visit>, b: seq<Visit>)
    requires multiset(a) == multiset(b)
    ensures forall v :: v in a <==> v in b
  {
    forall v
      ensures v in a <==> v in b
    {
      assert v in a <==> v in multiset(a);
      assert v in b <==> v in multiset(b);
    }
  }

  /** The visits of the found health records, newest id first. */
  function VisitsFor(table: seq<Visit>, health: seq<HealthLink>): (r: seq<Visit>)
    ensures forall i, j :: 0 <= i < j < |r| ==> r[i].visitid >= r[j].visitid
    ensures forall v :: v in r <==> v in table && exists h :: h in health && h.health_id == v.health_id
  {
    var matching := Filter(table, HealthIn(HealthIds(health)));
    var r := SortDescending(matching);
    DescendingPairs(r);
    SameMembers(r, matching);
    r
  }

  // ------------------------------------------------------------------- join

  function HealthIdIs(id: int): HealthLink -> bool
  {
    (h: HealthLink) => h.health_id == id
  }

  function ProfileIdIs(id: int): ProfileName -> bool
  {
    (p: ProfileName) => p.profileid == id
  }

  /** The profile of a visit: the first health record with the visit's
    * `health_id`, then the first profile with that record's `profileid`. */
  function ProfileOf(v: Visit, health: seq<HealthLink>, profiles: seq<ProfileName>): (r: Option<Person>)
    ensures (forall h :: h in health ==> h.health_id != v.health_id) ==> r.None?
    ensures r.Some? ==> exists h, p :: h in health && p in profiles && h.health_id == v.health_id &&
                                       p.profileid == h.profileid && r.value == Person(p.firstName, p.lastName)
  {
    match FindIndex(health, HealthIdIs(v.health_id))
    case None => None
    case Some(i) =>
      match FindIndex(profiles, ProfileIdIs(health[i].profileid))
      case None => None
      case Some(j) => Some(Person(profiles[j].firstName, profiles[j].lastName))
  }

  /** When health ids and profile ids are keys, the join finds exactly the
    * profile reached through the visit's health record. */
  lemma ProfileOfKeyed(v: Visit, health: seq<HealthLink>, profiles: seq<ProfileName>, h: HealthLink, p: ProfileName)
    requires forall i, j :: 0 <= i < |health| && 0 <= j < |health| && health[i].health_id == health[j].health_id ==> i == j
    requires forall i, j :: 0 <= i < |profiles| && 0 <= j < |profiles| && profiles[i].profileid == profiles[j].profileid ==> i == j
    requires h in health && h.health_id == v.health_id
    requires p in profiles && p.profileid == h.profileid
    ensures ProfileOf(v, health, profiles) == Some(Person(p.firstName, p.lastName))
  {
    var i :| 0 <= i < |health| && health[i] == h;
    var j :| 0 <= j < |profiles| && profiles[j] == p;
    var fi := FindIndex(health, HealthIdIs(v.health_id));
    assert HealthIdIs(v.health_id)(health[i]);
    assert fi == Some(i);
    var fj := FindIndex(profiles, ProfileIdIs(h.profileid));
    assert ProfileIdIs(h.profileid)(profiles[j]);
    assert fj == Some(j);
  }

  /** `visits.map(...)`: one schedule per visit, in the visits' order. */
  function Schedules(visits: seq<Visit>, health: seq<HealthLink>, profiles: seq<ProfileName>): (r: seq<VisitSchedule>)
    ensures |r| == |visits|
    ensures forall i :: 0 <= i < |r| ==> r[i].visit == visits[i] && r[i].profile == ProfileOf(visits[i], health, profiles)
  {
    seq(|visits|, i requires 0 <= i < |visits| => VisitSchedule(visits[i], ProfileOf(visits[i], health, profiles)))
  }

  /** Every schedule the page shows carries the user's own name, because the
    * profiles were selected by that name. */
  lemma SchedulesCarryUserName(table: seq<ProfileName>, first: string, last: string,
                               visits: seq<Visit>, health: seq<HealthLink>)
    ensures var r := Schedules(visits, health, NameMatches(table, first, last));
            forall i :: 0 <= i < |r| && r[i].profile.Some? ==> r[i].profile.value == Person(first, last)
  {
  }

  /** The whole lookup after the user's names are known: `None` with the
    * message when it stops early, else the schedules; `visitError` is the
    * visits query's error message, if any. */
  datatype Fetched = Stopped(message: string) | Failed(message: string) | Loaded(schedules: seq<VisitSchedule>)

  function FetchByName(first: string, last: string,
                       profileTable: seq<ProfileName>, profileFails: bool,
                       healthTable: seq<HealthLink>, healthFails: bool,
                       visitTable: seq<Visit>, visitError: Option<string>): (r: Fetched)
    ensures r.Stopped? <==>
              profileFails || NameMatches(profileTable, first, last) == [] ||
              healthFails || HealthFor(healthTable, NameMatches(profileTable, first, last)) == []
    // no matching profile stops first; then no health record
    ensures r == Stopped(NoProfileMessage) <==> profileFails || NameMatches(profileTable, first, last) == []
    ensures r == Stopped(NoHealthMessage) <==>
              !(profileFails || NameMatches(profileTable, first, last) == []) &&
              (healthFails || HealthFor(healthTable, NameMatches(profileTable, first, last)) == [])
    ensures r.Failed? <==> !r.Stopped? && visitError.Some?
    ensures r.Failed? ==> r.message == if visitError.value != "" then visitError.value else VisitFailedMessage
    ensures r.Loaded? ==>
              var profiles := NameMatches(profileTable, first, last);
              var health := HealthFor(healthTable, profiles);
              var visits := VisitsFor(visitTable, health);
              && |r.schedules| == |visits|
              && (forall i :: 0 <= i < |r.schedules| ==> r.schedules[i].visit == visits[i])
              && (forall i :: 0 <= i < |r.schedules| && r.schedules[i].profile.Some? ==>
                    r.schedules[i].profile.value == Person(first, last))
              // each visit is shown with the profile joined through its health record
              && r.schedules == Schedules(visits, health, profiles)
  {
    var profiles := NameMatches(profileTable, first, last);
    if profileFails || profiles == [] then Stopped(NoProfileMessage)
    else
      var health := HealthFor(healthTable, profiles);
      if healthFails || health == [] then Stopped(NoHealthMessage)
      else if visitError.Some? then
        Failed(if visitError.value != "" then visitError.value else VisitFailedMessage)
      else
        SchedulesCarryUserName(profileTable, first, last, VisitsFor(visitTable, health), health);
        Loaded(Schedules(VisitsFor(visitTable, health), health, profiles))
  }

  // ------------------------------------------------------------- displaying

  /** The prenatal section shows only with a positive count and a date. */
  predicate ShowsPrenatal(v: Visit)
  {
    v.prenatal_visit_num > 0 && v.prenatal_next_sched != ""
  }

  predicate ShowsPostnatal(v: Visit)
  {
    v.postnatal_visit_num > 0 && v.postnatal_next_sched != ""
  }

  /** The number in "Prenatal Visit #n": the count plus one. */
  function PrenatalLabelNumber(v: Visit): (n: int)
    requires ShowsPrenatal(v)
    ensures n >= 2 && n == v.prenatal_visit_num + 1
  {
    v.prenatal_visit_num + 1
  }

  /** The number in "Postnatal Visit #n": the count itself. */
  function PostnatalLabelNumber(v: Visit): (n: int)
    requires ShowsPostnatal(v)
    ensures n >= 1 && n == v.postnatal_visit_num
  {
    v.postnatal_visit_num
  }

  /** With equal counts, the two labels of one card disagree by one. */
  lemma LabelsDisagree(v: Visit)
    requires ShowsPrenatal(v) && ShowsPostnatal(v)
    requires v.prenatal_visit_num == v.postnatal_visit_num
    ensures PrenatalLabelNumber(v) == PostnatalLabelNumber(v) + 1
  {
  }

  /** The card title: the profile's name, or "Schedule". */
  function CardTitle(s: VisitSchedule): (t: string)
    ensures t == "Schedule" <==> s.profile.None?
  {
    if s.profile.Some? then
      var t := s.profile.value.firstName + " " + s.profile.value.lastName;
      // a full name always holds the separating space; "Schedule" has none
      assert t[|s.profile.value.firstName|] == ' ';
      t
    else "Schedule"
  }

  /** The colour of the compliance text; no colour when the section is
    * hidden. Matching is exact, so other spellings get the neutral colour. */
  function ComplianceColor(compliance: string): (c: Option<string>)
    ensures c.None? <==> compliance == ""
    ensures c == Some("#4caf50") <==> compliance == "Compliant"
    ensures c == Some("#f44336") <==> compliance == "Non-Compliant"
    ensures c.Some? ==> c.value in {"#4caf50", "#f44336", "#ff9800"}
  {
    if compliance == "" then None
    else if compliance == "Compliant" then Some("#4caf50")
    else if compliance == "Non-Compliant" then Some("#f44336")
    else Some("#ff9800")
  }

  // ------------------------------------------------------------ page state

  datatype Toast = Toast(message: string, danger: bool)

  const NamesRequiredMessage := "First name and last name are required"
  const NoRowsUpdatedMessage := "No rows were updated. Please check if your user record exists."
  const SavedMessage := "Profile updated successfully!"

  function UpdateFailed(message: string): string
  {
    "Failed to update profile: " + message
  }

  function SetNames(first: string, last: string): UserRow -> UserRow
  {
    (r: UserRow) => r.(userfirstName := Some(first), userlastName := Some(last))
  }

  class HomePage {
    var schedules: seq<VisitSchedule>
    var error: Option<string>
    var userName: string
    var toast: Option<Toast>

    constructor ()
      ensures schedules == [] && error == None && userName == "" && toast == None
    {
      schedules := [];
      error := None;
      userName := "";
      toast := None;
    }

    /** `fetchUserSchedules`. `user` is the signed-in auth id, if any; the
      * `...Fails` flags are the queries' errors (an errored query yields no
      * data); `visitError` is the visits query's error message. */
    method FetchUserSchedules(users: UserTable, user: Option<string>, userLookupFails: bool,
                              profileTable: seq<ProfileName>, profileFails: bool,
                              healthTable: seq<HealthLink>, healthFails: bool,
                              visitTable: seq<Visit>, visitError: Option<string>)
      modifies this
      ensures userName == old(userName) && toast == old(toast)
      ensures user.None? ==> error == Some(NoUserMessage) && schedules == old(schedules)
      ensures user.Some? && (userLookupFails || |Filter(users.rows, HasAuthId(user.value))| != 1) ==>
                error == Some(NoUserRowMessage) && schedules == old(schedules)
      ensures user.Some? && !userLookupFails && |Filter(users.rows, HasAuthId(user.value))| == 1 ==>
                var row := Filter(users.rows, HasAuthId(user.value))[0];
                if !Filled(row.userfirstName) || !Filled(row.userlastName) then
                  schedules == [] && error == Some(NoNameMessage)
                else
                  match FetchByName(row.userfirstName.value, row.userlastName.value, profileTable, profileFails,
                                    healthTable, healthFails, visitTable, visitError)
                  case Stopped(m) => schedules == [] && error == Some(m)
                  case Failed(m) => schedules == old(schedules) && error == Some(m)
                  case Loaded(s) => schedules == s && error == None
    {
      error := None;
      if user.None? {
        error := Some(NoUserMessage);
        return;
      }
      var userData := users.FindByAuthId(user.value, userLookupFails);
      if userData.None? {
        error := Some(NoUserRowMessage);
        return;
      }
      var row := userData.value;
      if !Filled(row.userfirstName) || !Filled(row.userlastName) {
        schedules := [];
        error := Some(NoNameMessage);
        return;
      }
      var first, last := row.userfirstName.value, row.userlastName.value;
      var profiles := NameMatches(profileTable, first, last);
      if profileFails || profiles == [] {
        schedules := [];
        error := Some(NoProfileMessage);
        return;
      }
      var health := HealthFor(healthTable, profiles);
      if healthFails || health == [] {
        schedules := [];
        error := Some(NoHealthMessage);
        return;
      }
      if visitError.Some? {
        error := Some(if visitError.value != "" then visitError.value else VisitFailedMessage);
        return;
      }
      schedules := Schedules(VisitsFor(visitTable, health), health, profiles);
    }

    /** `handleSaveProfile` up to the schedule refresh. `user` is the
      * signed-in auth id; `updateError` the update's error message. */
    method SaveProfile(users: UserTable, user: Option<string>, editFirstName: string, editLastName: string,
                       updateError: Option<string>)
      modifies this, users
      ensures schedules == old(schedules) && error == old(error)
      // blank names: rejected before anything is sent
      ensures Trim(editFirstName) == "" || Trim(editLastName) == "" ==>
                toast == Some(Toast(NamesRequiredMessage, true)) &&
                users.rows == old(users.rows) && userName == old(userName)
      ensures Trim(editFirstName) != "" && Trim(editLastName) != "" ==>
                if user.None? then
                  toast == Some(Toast(UpdateFailed(NoUserMessage), true)) &&
                  users.rows == old(users.rows) && userName == old(userName)
                else if updateError.Some? then
                  toast == Some(Toast(UpdateFailed(updateError.value), true)) &&
                  users.rows == old(users.rows) && userName == old(userName)
                else
                  // the trimmed names are written to the user's rows
                  && users.rows == UpdateWhere(old(users.rows), HasAuthId(user.value),
                                               SetNames(Trim(editFirstName), Trim(editLastName)))
                  && if |Filter(old(users.rows), HasAuthId(user.value))| == 0 then
                       toast == Some(Toast(UpdateFailed(NoRowsUpdatedMessage), true)) && userName == old(userName)
                     else
                       // the greeting uses the names as typed
                       toast == Some(Toast(SavedMessage, false)) &&
                       userName == editFirstName + " " + editLastName
    {
      if Trim(editFirstName) == "" || Trim(editLastName) == "" {
        toast := Some(Toast(NamesRequiredMessage, true));
        return;
      }
      if user.None? {
        toast := Some(Toast(UpdateFailed(NoUserMessage), true));
        return;
      }
      var ok, written := users.Update(HasAuthId(user.value), SetNames(Trim(editFirstName), Trim(editLastName)),
                                      updateError.Some?);
      if !ok {
        toast := Some(Toast(UpdateFailed(updateError.value), true));
        return;
      }
      if written == 0 {
        toast := Some(Toast(UpdateFailed(NoRowsUpdatedMessage), true));
        return;
      }
      userName := editFirstName + " " + editLastName;
      toast := Some(Toast(SavedMessage, false));
    }
  }
}
