/** The education-record viewer: the status badge colour, the dropout and
  * graduation cards, the address line and how a detail row shows a value. */
module ViewEducation {
  import opened Wrappers
  import opened Strings
  import opened JsValues
  import opened Badges

  /** `getStatusColor`: a case-insensitive match on the status; a null status
    * is `medium`. */
  function StatusColor(status: Option<string>): (c: Color)
    ensures c == Success <==> status.Some? && Lower(status.value) == "enrolled"
    ensures c == Danger <==> status.Some? && Lower(status.value) == "dropout"
    ensures c == Primary <==> status.Some? && Lower(status.value) == "graduated"
    ensures c == Warning <==> status.Some? && Lower(status.value) == "on hold"
  {
    if status.None? then Medium
    else
      var s := Lower(status.value);
      if s == "enrolled" then Success
      else if s == "dropout" then Danger
      else if s == "graduated" then Primary
      else if s == "on hold" then Warning
      else Medium
  }

  lemma LowerCharIdempotent(c: char)
    ensures LowerChar(LowerChar(c)) == LowerChar(c)
  {
  }

  /** Lower-casing twice is lower-casing once. */
  lemma LowerIdempotent(s: string)
    ensures Lower(Lower(s)) == Lower(s)
  {
    forall i | 0 <= i < |s|
      ensures Lower(Lower(s))[i] == Lower(s)[i]
    {
      LowerCharIdempotent(s[i]);
    }
  }

  /** The badge does not depend on letter case. */
  lemma StatusColorIgnoresCase(status: string)
    ensures StatusColor(Some(status)) == StatusColor(Some(Lower(status)))
  {
    LowerIdempotent(status);
  }

  /** The dropout alert card. */
  predicate ShowsDropoutAlert(status: Option<string>)
  {
    status.Some? && Lower(status.value) == "dropout"
  }

  /** The congratulations card. */
  predicate ShowsGraduatedCard(status: Option<string>)
  {
    status.Some? && Lower(status.value) == "graduated"
  }

  /** The cards agree with the badge, and at most one of them is shown. */
  lemma CardsFollowBadge(status: Option<string>)
    ensures ShowsDropoutAlert(status) <==> StatusColor(status) == Danger
    ensures ShowsGraduatedCard(status) <==> StatusColor(status) == Primary
    ensures !(ShowsDropoutAlert(status) && ShowsGraduatedCard(status))
  {
  }


  /** The address line `barangay, municipality, province`, missing parts
    * empty. */
  function Address(barangay: Option<string>, municipality: Option<string>, province: Option<string>): (r: string)
    ensures |r| == |barangay.GetOr("")| + |municipality.GetOr("")| + |province.GetOr("")| + 4
  {
    // the template `${b}, ${m}, ${p}`, grouped at its commas
    barangay.GetOr("") + [','] + ((" " + municipality.GetOr("")) + [','] + (" " + province.GetOr("")))
  }

  /** Splitting the address on commas gives back its three parts (the last
    * two after their leading blank) when no part holds a comma. */
  lemma AddressSplits(barangay: Option<string>, municipality: Option<string>, province: Option<string>)
    requires ',' !in barangay.GetOr("") && ',' !in municipality.GetOr("") && ',' !in province.GetOr("")
    ensures Split(Address(barangay, municipality, province), ',') ==
            [barangay.GetOr(""), " " + municipality.GetOr(""), " " + province.GetOr("")]
  {
    var b, m, p := barangay.GetOr(""), municipality.GetOr(""), province.GetOr("");
    var m', p' := " " + m, " " + p;
    assert ',' !in m' && ',' !in p' by {
      assert forall i :: 0 < i < |m'| ==> m'[i] == m[i - 1];
      assert forall i :: 0 < i < |p'| ==> p'[i] == p[i - 1];
    }
    var tail := m' + [','] + p';
    SplitWithoutSeparator(p', ',');
    SplitAtFirstSeparator(m', p', ',');
    SplitAtFirstSeparator(b, tail, ',');
  }

  /** What a detail row shows: the value, or "N/A" when it is falsy. */
  function InfoText(v: Value): (r: string)
    ensures !Truthy(v) ==> r == "N/A"
    ensures Truthy(v) ==> r == Text(v)
  {
    if Truthy(v) then Text(v) else "N/A"
  }

  /** A recorded age of zero shows as "N/A", like a missing one. */
  lemma ZeroShowsMissing()
    ensures InfoText(Num(0)) == InfoText(Str("")) == "N/A"
  {
  }
}
