/** The administrator dashboard's statistics: the headline counts and the
  * per-province, per-municipality and per-barangay tallies built by one pass
  * over the profiles, and the chart series cut from them. */
module AdminDashboard {
  import opened Wrappers
  import opened Seqs
  import opened JsObjects

  /** The three address columns the dashboard reads from each profile. */
  datatype LocationRow = LocationRow(province: Option<string>, municipality: Option<string>, barangay: Option<string>)

  datatype Level = ProvinceLevel | MunicipalityLevel | BarangayLevel

  function Place(row: LocationRow, level: Level): Option<string>
  {
    match level
    case ProvinceLevel => row.province
    case MunicipalityLevel => row.municipality
    case BarangayLevel => row.barangay
  }

  /** `if (item.province)`: the row is counted at this level when the column
    * holds a non-empty string. */
  predicate CountsAt(row: LocationRow, level: Level)
  {
    Place(row, level).Some? && Place(row, level).value != ""
  }

  /** The number of rows whose column at `level` is the non-empty key `k`. */
  function CountIn(rows: seq<LocationRow>, level: Level, k: string): nat
  {
    if |rows| == 0 then 0
    else CountIn(rows[..|rows| - 1], level, k) +
         (if CountsAt(rows[|rows| - 1], level) && Place(rows[|rows| - 1], level).value == k then 1 else 0)
  }

  /** The number of rows counted at `level`. */
  function Counted(rows: seq<LocationRow>, level: Level): (n: nat)
    ensures n <= |rows|
  {
    if |rows| == 0 then 0
    else Counted(rows[..|rows| - 1], level) + (if CountsAt(rows[|rows| - 1], level) then 1 else 0)
  }

  /** The keys counted at `level`, each once, in order of first appearance. */
  function FirstSeen(rows: seq<LocationRow>, level: Level): (r: seq<string>)
    ensures forall k :: k in r <==> CountIn(rows, level, k) > 0
  {
    if |rows| == 0 then []
    else
      var earlier := FirstSeen(rows[..|rows| - 1], level);
      var last := rows[|rows| - 1];
      if CountsAt(last, level) && Place(last, level).value !in earlier
      then earlier + [Place(last, level).value]
      else earlier
  }

  /** No key is listed twice. */
  lemma {:induction false} FirstSeenDistinct(rows: seq<LocationRow>, level: Level)
    ensures Distinct(FirstSeen(rows, level))
  {
    if |rows| > 0 {
      FirstSeenDistinct(rows[..|rows| - 1], level);
    }
  }

  /** A JavaScript object used as a dictionary: its keys in the order they
    * were added, and its values. `Object.keys` lists them in the order
    * `OwnKeys` gives. */
  datatype Tally = Tally(keys: seq<string>, counts: map<string, int>)

  function Sum(keys: seq<string>, counts: map<string, int>): int
    requires forall k :: k in keys ==> k in counts
  {
    if |keys| == 0 then 0 else Sum(keys[..|keys| - 1], counts) + counts[keys[|keys| - 1]]
  }

  /** `t[k] = t[k] ? t[k] + 1 : 1`. */
  function Bump(t: Tally, k: string): Tally
  {
    if k in t.counts && t.counts[k] != 0 then Tally(t.keys, t.counts[k := t.counts[k] + 1])
    else Tally(if k in t.counts then t.keys else t.keys + [k], t.counts[k := 1])
  }

  /** `t` is the tally of `rows` at `level`: one key per counted value, in
    * order of first appearance, holding the number of rows with that value;
    * the values add up to the number of counted rows. */
  ghost predicate TallyOf(t: Tally, rows: seq<LocationRow>, level: Level)
  {
    && t.keys == FirstSeen(rows, level)
    && (forall k :: k in t.counts <==> k in t.keys)
    && (forall k :: k in t.counts ==> t.counts[k] == CountIn(rows, level, k))
    && Sum(t.keys, t.counts) == Counted(rows, level)
  }

  /** A key the sum does not visit may change freely. */
  lemma {:induction false} SumIgnores(keys: seq<string>, counts: map<string, int>, k: string, v: int)
    requires forall x :: x in keys ==> x in counts
    requires k !in keys
    ensures Sum(keys, counts[k := v]) == Sum(keys, counts)
  {
    if |keys| > 0 {
      SumIgnores(keys[..|keys| - 1], counts, k, v);
    }
  }

  /** Raising one visited key raises the sum by the same amount. */
  lemma {:induction false} SumUpdate(keys: seq<string>, counts: map<string, int>, k: string, v: int)
    requires forall x :: x in keys ==> x in counts
    requires Distinct(keys) && k in keys
    ensures Sum(keys, counts[k := v]) == Sum(keys, counts) - counts[k] + v
  {
    var init := keys[..|keys| - 1];
    assert Distinct(init);
    if keys[|keys| - 1] == k {
      assert k !in init;
      SumIgnores(init, counts, k, v);
    } else {
      assert k in init;
      SumUpdate(init, counts, k, v);
    }
  }

  /** One more row adds one to its own key's count and nothing else. */
  lemma CountInStep(rows: seq<LocationRow>, level: Level, row: LocationRow)
    ensures forall x {:trigger CountIn(rows + [row], level, x)} ::
              CountIn(rows + [row], level, x) ==
              CountIn(rows, level, x) + (if CountsAt(row, level) && Place(row, level).value == x then 1 else 0)
  {
    assert (rows + [row])[..|rows|] == rows;
  }

  /** One more row adds its value to the keys if it is new. */
  lemma FirstSeenStep(rows: seq<LocationRow>, level: Level, row: LocationRow)
    ensures FirstSeen(rows + [row], level) ==
              if CountsAt(row, level) && Place(row, level).value !in FirstSeen(rows, level)
              then FirstSeen(rows, level) + [Place(row, level).value]
              else FirstSeen(rows, level)
    ensures Counted(rows + [row], level) == Counted(rows, level) + (if CountsAt(row, level) then 1 else 0)
  {
    assert (rows + [row])[..|rows|] == rows;
  }

  /** A row with a value at `level` bumps that value's count. */
  lemma BumpStep(t: Tally, rows: seq<LocationRow>, level: Level, row: LocationRow)
    requires TallyOf(t, rows, level) && CountsAt(row, level)
    ensures TallyOf(Bump(t, Place(row, level).value), rows + [row], level)
  {
    BumpKeys(t, rows, level, row);
    BumpCounts(t, rows, level, row);
    BumpSum(t, rows, level, row);
  }

  lemma BumpKeys(t: Tally, rows: seq<LocationRow>, level: Level, row: LocationRow)
    requires TallyOf(t, rows, level) && CountsAt(row, level)
    ensures var t' := Bump(t, Place(row, level).value);
            && t'.keys == FirstSeen(rows + [row], level)
            && (forall k :: k in t'.counts <==> k in t'.keys)
  {
    FirstSeenStep(rows, level, row);
    BumpedKeys(t, rows, level, Place(row, level).value);
  }

  lemma BumpCounts(t: Tally, rows: seq<LocationRow>, level: Level, row: LocationRow)
    requires TallyOf(t, rows, level) && CountsAt(row, level)
    ensures var t' := Bump(t, Place(row, level).value);
            forall k :: k in t'.counts ==> t'.counts[k] == CountIn(rows + [row], level, k)
  {
    CountInStep(rows, level, row);
    BumpedCounts(t, rows, level, Place(row, level).value);
  }

  lemma BumpSum(t: Tally, rows: seq<LocationRow>, level: Level, row: LocationRow)
    requires TallyOf(t, rows, level) && CountsAt(row, level)
    ensures var t' := Bump(t, Place(row, level).value);
            Sum(t'.keys, t'.counts) == Counted(rows + [row], level)
  {
    FirstSeenStep(rows, level, row);
    BumpedSum(t, rows, level, Place(row, level).value);
  }

  /** A row without a value at `level` leaves the tally as it is. */
  lemma SkipStep(t: Tally, rows: seq<LocationRow>, level: Level, row: LocationRow)
    requires TallyOf(t, rows, level) && !CountsAt(row, level)
    ensures TallyOf(t, rows + [row], level)
  {
    CountInStep(rows, level, row);
    FirstSeenStep(rows, level, row);
  }

  /** Bumping a key of a tally: the keys gain `k` at the end when it is new. */
  lemma BumpedKeys(t: Tally, rows: seq<LocationRow>, level: Level, k: string)
    requires TallyOf(t, rows, level) && k != ""
    ensures var t' := Bump(t, k);
            && (forall x :: x in t'.counts <==> x in t'.keys)
            && t'.keys == (if k in t.keys then t.keys else t.keys + [k])
  {
    if k in t.counts {
      assert CountIn(rows, level, k) > 0;
    }
  }

  /** Bumping a key of a tally adds one to that key's count only. */
  lemma BumpedCounts(t: Tally, rows: seq<LocationRow>, level: Level, k: string)
    requires TallyOf(t, rows, level) && k != ""
    ensures var t' := Bump(t, k);
            forall x :: x in t'.counts ==> t'.counts[x] == CountIn(rows, level, x) + (if x == k then 1 else 0)
  {
  }

  /** Bumping a key of a tally adds one to the sum of its counts. */
  lemma BumpedSum(t: Tally, rows: seq<LocationRow>, level: Level, k: string)
    requires TallyOf(t, rows, level) && k != ""
    ensures var t' := Bump(t, k);
            && (forall x :: x in t'.keys ==> x in t'.counts)
            && Sum(t'.keys, t'.counts) == Counted(rows, level) + 1
  {
    var t' := Bump(t, k);
    BumpedKeys(t, rows, level, k);
    if k in t.counts {
      FirstSeenDistinct(rows, level);
      assert CountIn(rows, level, k) > 0;
      SumUpdate(t.keys, t.counts, k, t.counts[k] + 1);
    } else {
      SumIgnores(t.keys, t.counts, k, 1);
      assert t'.keys[..|t'.keys| - 1] == t.keys;
    }
  }

  /** What a tally promises: every count is at least 1, empty values have no
    * key, and the counts add up to at most the number of rows. */
  lemma TallyBounds(t: Tally, rows: seq<LocationRow>, level: Level)
    requires TallyOf(t, rows, level)
    ensures forall k :: k in t.counts ==> t.counts[k] >= 1
    ensures "" !in t.counts
    ensures Sum(t.keys, t.counts) <= |rows|
  {
    if "" in t.counts {
      EmptyNeverCounted(rows, level);
    }
  }

  lemma {:induction false} EmptyNeverCounted(rows: seq<LocationRow>, level: Level)
    ensures CountIn(rows, level, "") == 0
  {
    if |rows| > 0 {
      EmptyNeverCounted(rows[..|rows| - 1], level);
    }
  }

  /** The dictionary the counting pass builds over `rows` at `level`. */
  function TallyFor(rows: seq<LocationRow>, level: Level): Tally
  {
    if |rows| == 0 then Tally([], map[])
    else
      var t := TallyFor(rows[..|rows| - 1], level);
      var last := rows[|rows| - 1];
      if CountsAt(last, level) then Bump(t, Place(last, level).value) else t
  }

  /** The counting pass yields the exact tally. */
  lemma {:induction false} TallyForIsTally(rows: seq<LocationRow>, level: Level)
    ensures TallyOf(TallyFor(rows, level), rows, level)
  {
    if |rows| > 0 {
      var init := rows[..|rows| - 1];
      var last := rows[|rows| - 1];
      TallyForIsTally(init, level);
      assert rows == init + [last];
      if CountsAt(last, level) {
        BumpStep(TallyFor(init, level), init, level, last);
      } else {
        SkipStep(TallyFor(init, level), init, level, last);
      }
    }
  }

  datatype DashboardStats = DashboardStats(
    totalTeenAgeParents: int,
    currentEnrolled: int,
    byProvince: Tally,
    byMunicipality: Tally,
    byBarangay: Tally)

  /** `count || 0`. */
  function CountOrZero(count: Option<int>): int
  {
    if count.Some? && count.value != 0 then count.value else 0
  }

  /** `fetchDashboardStats`: the two head counts (absent when the request
    * fails) and the profile rows (absent when the request fails). */
  method FetchDashboardStats(totalCount: Option<int>, enrolledCount: Option<int>, profile: Option<seq<LocationRow>>)
    returns (stats: DashboardStats)
    ensures stats.totalTeenAgeParents == (if totalCount.Some? then totalCount.value else 0)
    ensures stats.currentEnrolled == (if enrolledCount.Some? then enrolledCount.value else 0)
    ensures var rows := if profile.Some? then profile.value else [];
            && TallyOf(stats.byProvince, rows, ProvinceLevel)
            && TallyOf(stats.byMunicipality, rows, MunicipalityLevel)
            && TallyOf(stats.byBarangay, rows, BarangayLevel)
  {
    var provinceCount := Tally([], map[]);
    var municipalityCount := Tally([], map[]);
    var barangayCount := Tally([], map[]);
    var rows := if profile.Some? then profile.value else [];
    for i := 0 to |rows|
      invariant provinceCount == TallyFor(rows[..i], ProvinceLevel)
      invariant municipalityCount == TallyFor(rows[..i], MunicipalityLevel)
      invariant barangayCount == TallyFor(rows[..i], BarangayLevel)
    {
      var item := rows[i];
      assert rows[..i + 1][..i] == rows[..i];
      if item.province.Some? && item.province.value != "" {
        provinceCount := Bump(provinceCount, item.province.value);
      }
      if item.municipality.Some? && item.municipality.value != "" {
        municipalityCount := Bump(municipalityCount, item.municipality.value);
      }
      if item.barangay.Some? && item.barangay.value != "" {
        barangayCount := Bump(barangayCount, item.barangay.value);
      }
    }
    assert rows[..|rows|] == rows;
    TallyForIsTally(rows, ProvinceLevel);
    TallyForIsTally(rows, MunicipalityLevel);
    TallyForIsTally(rows, BarangayLevel);
    stats := DashboardStats(CountOrZero(totalCount), CountOrZero(enrolledCount),
                            provinceCount, municipalityCount, barangayCount);
  }

  // ---------------------------------------------------------------------
  // Chart series

  datatype Chart = Chart(labels: seq<string>, data: seq<int>)

  /** `Object.values(t)`: the counts in `Object.keys` order. */
  function Values(t: Tally): (r: seq<int>)
    requires forall k :: k in t.keys ==> k in t.counts
    ensures |r| == |OwnKeys(t.keys)|
    ensures forall i :: 0 <= i < |r| ==> r[i] == t.counts[OwnKeys(t.keys)[i]]
  {
    var ks := OwnKeys(t.keys);
    seq(|ks|, i requires 0 <= i < |ks| => t.counts[ks[i]])
  }

  /** `s.slice(0, n)`. */
  function Take<T>(s: seq<T>, n: nat): seq<T>
  {
    if |s| <= n then s else s[..n]
  }

  /** `provinceLabels = Object.keys(...)`, `provinceData = Object.values(...)`. */
  function ProvinceChart(t: Tally): Chart
    requires forall k :: k in t.keys ==> k in t.counts
  {
    Chart(OwnKeys(t.keys), Values(t))
  }

  /** The labels are every key but the data is cut to ten values. */
  function MunicipalityChart(t: Tally): Chart
    requires forall k :: k in t.keys ==> k in t.counts
  {
    Chart(OwnKeys(t.keys), Take(Values(t), 10))
  }

  /** Both the labels and the data are cut to ten. */
  function BarangayChart(t: Tally): Chart
    requires forall k :: k in t.keys ==> k in t.counts
  {
    Chart(Take(OwnKeys(t.keys), 10), Take(Values(t), 10))
  }

  /** The province chart pairs every key with its count. */
  lemma ProvinceChartAligned(t: Tally)
    requires forall k :: k in t.keys ==> k in t.counts
    ensures |ProvinceChart(t).labels| == |ProvinceChart(t).data| == |t.keys|
    ensures forall i :: 0 <= i < |t.keys| ==> ProvinceChart(t).data[i] == t.counts[ProvinceChart(t).labels[i]]
  {
  }

  /** The municipality chart's labels and data differ in length exactly when
    * there are more than ten municipalities. */
  lemma MunicipalityChartMismatch(t: Tally)
    requires forall k :: k in t.keys ==> k in t.counts
    ensures |MunicipalityChart(t).labels| != |MunicipalityChart(t).data| <==> |t.keys| > 10
  {
  }

  /** The barangay chart shows the first ten keys in `Object.keys` order,
    * each with its own count. */
  lemma BarangayChartFirstTen(t: Tally)
    requires forall k :: k in t.keys ==> k in t.counts
    ensures var ks := OwnKeys(t.keys);
            BarangayChart(t).labels == ks[..if |ks| < 10 then |ks| else 10]
    ensures |BarangayChart(t).labels| == |BarangayChart(t).data|
    ensures forall i :: 0 <= i < |BarangayChart(t).labels| ==>
              BarangayChart(t).data[i] == t.counts[BarangayChart(t).labels[i]]
  {
    TakeAligned(OwnKeys(t.keys), Values(t), t.counts, 10);
  }

  /** Cutting paired labels and values at the same length keeps the pairs. */
  lemma TakeAligned(ks: seq<string>, vs: seq<int>, counts: map<string, int>, n: nat)
    requires |ks| == |vs|
    requires forall i :: 0 <= i < |ks| ==> ks[i] in counts && vs[i] == counts[ks[i]]
    ensures Take(ks, n) == ks[..if |ks| < n then |ks| else n]
    ensures |Take(ks, n)| == |Take(vs, n)|
    ensures forall i :: 0 <= i < |Take(ks, n)| ==> Take(ks, n)[i] in counts && Take(vs, n)[i] == counts[Take(ks, n)[i]]
  {
  }

  /** Without integer-like names, the barangay chart shows the first ten
    * names in the order they first appear. */
  lemma BarangayChartNamedPlaces(t: Tally)
    requires forall k :: k in t.keys ==> k in t.counts
    requires forall k :: k in t.keys ==> IsNamedKey(k)
    ensures BarangayChart(t).labels == t.keys[..if |t.keys| < 10 then |t.keys| else 10]
  {
    NamedKeysInInsertionOrder(t.keys);
  }

  /** The chart ignores the counts: every key after the tenth is left off,
    * however large its count. */
  lemma BarangayChartIgnoresCounts(t: Tally, rows: seq<LocationRow>)
    requires TallyOf(t, rows, BarangayLevel)
    ensures forall i :: 10 <= i < |OwnKeys(t.keys)| ==> OwnKeys(t.keys)[i] !in BarangayChart(t).labels
  {
    FirstSeenDistinct(rows, BarangayLevel);
    OwnKeysDistinct(t.keys);
  }
}
