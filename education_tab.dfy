/** The administrator's education tab: the fetched `EducationAndTraining`
  * rows flattened with their profile's names, and the name search. */
module EducationTab {
  import opened Wrappers
  import opened Seqs
  import opened Strings

  /** The joined profile of an education row; either name may be null. */
  datatype LinkedProfile = LinkedProfile(firstName: Option<string>, lastName: Option<string>)

  /** An `EducationAndTraining` row as fetched, with its joined profile. */
  datatype EducationRow = EducationRow(
    educationid: int,
    profileid: int,
    typeOfProgram: string,
    programCourse: string,
    status: string,
    institutionOrCenter: string,
    enroll_dropout_Date: string,
    gradeLevel: string,
    profile: Option<LinkedProfile>)

  /** A row as the tab lists it: the fetched fields plus the two names. */
  datatype EducationRecord = EducationRecord(row: EducationRow, firstName: string, lastName: string)


  /** One fetched row with the profile's names, `''` when there is no profile
    * or no name. */
  function Flatten(item: EducationRow): (r: EducationRecord)
    ensures r.row == item
    ensures item.profile.None? ==> r.firstName == "" && r.lastName == ""
    ensures item.profile.Some? ==> r.firstName == item.profile.value.firstName.GetOr("") &&
                                   r.lastName == item.profile.value.lastName.GetOr("")
  {
    if item.profile.None? then EducationRecord(item, "", "")
    else EducationRecord(item, item.profile.value.firstName.GetOr(""), item.profile.value.lastName.GetOr(""))
  }

  /** `data.map(...)`. */
  function FlattenAll(data: seq<EducationRow>): (r: seq<EducationRecord>)
    ensures |r| == |data|
    ensures forall i :: 0 <= i < |data| ==> r[i] == Flatten(data[i])
  {
    seq(|data|, i requires 0 <= i < |data| => Flatten(data[i]))
  }

  /** The text the search looks in: the full name, lower-cased. */
  function FullName(r: EducationRecord): string
  {
    Lower(r.firstName + " " + r.lastName)
  }

  function NameHas(query: string): EducationRecord -> bool
  {
    (r: EducationRecord) => Contains(FullName(r), Lower(query))
  }

  /** `filteredEducation`. */
  function FilteredEducation(records: seq<EducationRecord>, query: string): (r: seq<EducationRecord>)
    ensures forall x :: x in r <==> x in records && Contains(Lower(x.firstName + " " + x.lastName), Lower(query))
    ensures IsSubsequence(r, records)
  {
    Filter(records, NameHas(query))
  }

  /** An empty search keeps every record, in order. */
  lemma EmptyQueryKeepsAll(records: seq<EducationRecord>)
    ensures FilteredEducation(records, "") == records
  {
    forall x | x in records
      ensures NameHas("")(x)
    {
      ContainsEmpty(FullName(x));
    }
    FilterAll(records, NameHas(""));
  }

  /** The search reads only the names: the program, course, status and every
    * other fetched field play no part. */
  lemma OnlyNamesMatter(a: EducationRecord, b: EducationRecord, query: string)
    requires a.firstName == b.firstName && a.lastName == b.lastName
    ensures (a in FilteredEducation([a], query)) <==> (b in FilteredEducation([b], query))
  {
  }

  /** A one-character text includes exactly the empty text and itself. */
  lemma ContainsInSingle(c: char, p: string)
    ensures Contains([c], p) <==> p == "" || p == [c]
  {
    if |p| >= 2 {
      assert !StartsWith([c], p);
      assert !StartsWith([c][1..], p);
    } else if |p| == 1 && p != [c] {
      assert !StartsWith([c], p);
      assert !StartsWith([c][1..], p);
    }
  }

  /** A row without a linked profile is found only by the empty search or a
    * lone blank, because its searched text is the single separating blank. */
  lemma UnlinkedRowFound(item: EducationRow, query: string)
    requires item.profile.None?
    ensures Flatten(item) in FilteredEducation([Flatten(item)], query) <==> query == "" || query == " "
  {
    var r := Flatten(item);
    assert r.firstName + " " + r.lastName == " ";
    assert FullName(r) == [' '];
    ContainsInSingle(' ', Lower(query));
    if Lower(query) == [' '] {
      assert query[0] == ' ' by {
        assert LowerChar(query[0]) == ' ';
      }
      assert query == " ";
    }
  }
}
