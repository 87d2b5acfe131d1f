/**
 * `src/assistants/salary_calculator.py`: salary guidance looked up in the
 * reference table.  The table is a parameter: country key to role level to
 * an ordered table of location (and `years_experience`) entries, in the
 * order the reference file lists them.
 */
module Salary {
  import opened Wrappers
  import opened TextUtil

  /**
   * One role level's entries, key to text, in file order (a Python dict
   * keeps insertion order).  The table comes from a dict, so its keys are
   * distinct (`DistinctKeys`); the lookups below do not depend on that.
   */
  type RoleTable = seq<(string, string)>
  type CountryData = map<string, RoleTable>
  type SalaryData = map<string, CountryData>

  const NotAvailable := "Not available"
  const NoCountryError := "Salary data not available for this country"
  const Competitive := "Competitive, based on experience"

  /** The key a country's table is stored under. */
  function CountryKey(country: string): string {
    country + "_data_analytics_2026"
  }

  /** `key in role_data`. */
  predicate HasKey(t: RoleTable, key: string) {
    exists i :: 0 <= i < |t| && t[i].0 == key
  }

  /** `role_data.get(key)`: the value of the first entry under `key`. */
  function Get(t: RoleTable, key: string): (r: Option<string>)
    ensures r.Some? <==> HasKey(t, key)
    ensures r.Some? ==> exists i :: 0 <= i < |t| && t[i] == (key, r.value)
    decreases |t|
  {
    if t == [] then None
    else if t[0].0 == key then Some(t[0].1)
    else
      var rest := Get(t[1..], key);
      assert HasKey(t[1..], key) ==> HasKey(t, key);
      assert HasKey(t, key) ==> HasKey(t[1..], key) by {
        if HasKey(t, key) {
          var i :| 0 <= i < |t| && t[i].0 == key;
          assert t[1..][i - 1].0 == key;
        }
      }
      if rest.Some? then
        var i :| 0 <= i < |t[1..]| && t[1..][i] == (key, rest.value);
        assert t[i + 1] == (key, rest.value);
        rest
      else rest
  }

  /** No key occurs twice, as in a dict. */
  predicate DistinctKeys(t: RoleTable) {
    forall i, j :: 0 <= i < j < |t| ==> t[i].0 != t[j].0
  }

  /** In a table with distinct keys, a lookup finds the one value stored under the key. */
  lemma {:induction false} GetDistinct(t: RoleTable, i: nat)
    requires DistinctKeys(t) && i < |t|
    ensures Get(t, t[i].0) == Some(t[i].1)
    decreases |t|
  {
    if i > 0 {
      assert t[0].0 != t[i].0;
      assert DistinctKeys(t[1..]) by {
        forall a, b | 0 <= a < b < |t[1..]| ensures t[1..][a].0 != t[1..][b].0 {
          assert t[1..][a] == t[a + 1] && t[1..][b] == t[b + 1];
        }
      }
      GetDistinct(t[1..], i - 1);
      assert t[1..][i - 1] == t[i];
    }
  }

  /** The salary information `get_salary_range` returns: an error message or the found range. */
  datatype SalaryInfo =
    | SalaryError(error: string)
    | SalaryRange(range: string, level: string, location: string, country: string, yearsExperience: string)

  /**
   * The range chosen for a location: the exact key, else London for the UK,
   * else major cities for the US, else the first entry, else "Not available".
   */
  function LocationRange(role: RoleTable, location: string, country: string): string {
    if HasKey(role, location) then Get(role, location).value
    else if country == "uk" && HasKey(role, "london") then Get(role, "london").value
    else if country == "us" && HasKey(role, "major_cities") then Get(role, "major_cities").value
    else if role != [] then role[0].1
    else NotAvailable
  }

  /** `get_salary_range(role_level, location, country)` over the reference table `data`. */
  function GetSalaryRange(data: SalaryData, roleLevel: string, location: string, country: string): (r: SalaryInfo)
    ensures CountryKey(country) !in data ==> r == SalaryError(NoCountryError)
    ensures CountryKey(country) in data && roleLevel !in data[CountryKey(country)] ==>
      r == SalaryError("Role level \"" + roleLevel + "\" not found")
    ensures r.SalaryRange? <==> CountryKey(country) in data && roleLevel in data[CountryKey(country)]
    ensures r.SalaryRange? ==>
      r.level == roleLevel && r.location == location && r.country == country
    ensures r.SalaryRange? ==>
      var role := data[CountryKey(country)][roleLevel];
      r.yearsExperience == (if HasKey(role, "years_experience") then Get(role, "years_experience").value else "N/A")
    ensures r.SalaryRange? ==>
      var role := data[CountryKey(country)][roleLevel];
      (HasKey(role, location) ==> Get(role, location) == Some(r.range)) &&
      (!HasKey(role, location) && country == "uk" && HasKey(role, "london") ==>
         Get(role, "london") == Some(r.range)) &&
      (!HasKey(role, location) && country == "us" && HasKey(role, "major_cities") ==>
         Get(role, "major_cities") == Some(r.range)) &&
      (!HasKey(role, location) && !(country == "uk" && HasKey(role, "london")) &&
       !(country == "us" && HasKey(role, "major_cities")) ==>
         (role != [] ==> r.range == role[0].1) && (role == [] ==> r.range == NotAvailable))
  {
    var key := CountryKey(country);
    if key !in data then SalaryError(NoCountryError)
    else if roleLevel !in data[key] then SalaryError("Role level \"" + roleLevel + "\" not found")
    else
      var role := data[key][roleLevel];
      var years := Get(role, "years_experience");
      SalaryRange(LocationRange(role, location, country), roleLevel, location, country,
                  if years.Some? then years.value else "N/A")
  }

  /**
   * Whichever branch chose it, a found range is an entry of the role's table,
   * or "Not available" for an empty table.
   */
  lemma RangeComesFromTable(data: SalaryData, roleLevel: string, location: string, country: string)
    requires GetSalaryRange(data, roleLevel, location, country).SalaryRange?
    ensures var role := data[CountryKey(country)][roleLevel];
      var r := GetSalaryRange(data, roleLevel, location, country).range;
      (role == [] && r == NotAvailable) || (exists i :: 0 <= i < |role| && role[i].1 == r)
  {
    var role := data[CountryKey(country)][roleLevel];
    var r := GetSalaryRange(data, roleLevel, location, country).range;
    if role != [] {
      assert role[0].1 == role[0].1;
    }
  }

  /** `[\d,]` with an ASCII digit. */
  predicate IsNumberChar(c: char) { IsDigit(c) || c == ',' }

  /** The length of the run of digits and commas at the start of `s`. */
  function SpanNumber(s: string): (n: nat)
    ensures n <= |s|
    ensures forall i :: 0 <= i < n ==> IsNumberChar(s[i])
    ensures n < |s| ==> !IsNumberChar(s[n])
    decreases |s|
  {
    if s == [] || !IsNumberChar(s[0]) then 0 else 1 + SpanNumber(s[1..])
  }

  /** `re.findall(r'[\d,]+', s)`: the maximal runs of digits and commas, left to right. */
  function NumberRuns(s: string): (r: seq<string>)
    ensures forall k :: 0 <= k < |r| ==> r[k] != [] && forall i :: 0 <= i < |r[k]| ==> IsNumberChar(r[k][i])
    decreases |s|
  {
    if s == [] then []
    else if !IsNumberChar(s[0]) then NumberRuns(s[1..])
    else
      var n := SpanNumber(s);
      [s[..n]] + NumberRuns(s[n..])
  }

  /** Every run found occurs in the text. */
  lemma {:induction false} NumberRunsOccur(s: string)
    ensures forall k :: 0 <= k < |NumberRuns(s)| ==> Contains(s, NumberRuns(s)[k])
    decreases |s|
  {
    if s != [] {
      if !IsNumberChar(s[0]) {
        NumberRunsOccur(s[1..]);
        assert s == [s[0]] + s[1..];
        forall k | 0 <= k < |NumberRuns(s)|
          ensures Contains(s, NumberRuns(s)[k])
        {
          ContainsRight([s[0]], s[1..], NumberRuns(s)[k]);
        }
      } else {
        var n := SpanNumber(s);
        NumberRunsOccur(s[n..]);
        assert s == s[..n] + s[n..];
        forall k | 0 <= k < |NumberRuns(s)|
          ensures Contains(s, NumberRuns(s)[k])
        {
          if k == 0 {
            ContainsIn(s, s[..n], 0);
          } else {
            assert NumberRuns(s)[k] == NumberRuns(s[n..])[k - 1];
            ContainsRight(s[..n], s[n..], NumberRuns(s)[k]);
          }
        }
      }
    }
  }

  /** A text has no runs exactly when it has no digit and no comma. */
  lemma {:induction false} NumberRunsEmptyIff(s: string)
    ensures NumberRuns(s) == [] <==> forall i :: 0 <= i < |s| ==> !IsNumberChar(s[i])
    decreases |s|
  {
    if s != [] {
      NumberRunsEmptyIff(s[1..]);
      if !IsNumberChar(s[0]) {
        assert forall i :: 1 <= i < |s| ==> s[i] == s[1..][i - 1];
      }
    }
  }

  /** `"£"` for the UK, `"$"` for any other country. */
  function CurrencySign(country: string): string {
    if country == "uk" then "£" else "$"
  }

  /**
   * `suggest_salary_expectation`: the second number of the range when it has
   * two or more, the first when it has one, with the country's currency sign;
   * the fixed text when the lookup fails or the range has no number.
   */
  function SuggestSalaryExpectation(data: SalaryData, roleLevel: string, location: string, country: string): (r: string)
    ensures GetSalaryRange(data, roleLevel, location, country).SalaryError? ==> r == Competitive
    ensures GetSalaryRange(data, roleLevel, location, country).SalaryRange? ==>
      var runs := NumberRuns(GetSalaryRange(data, roleLevel, location, country).range);
      (|runs| >= 2 ==> r == CurrencySign(country) + runs[1]) &&
      (|runs| == 1 ==> r == CurrencySign(country) + runs[0]) &&
      (runs == [] ==> r == Competitive)
  {
    var info := GetSalaryRange(data, roleLevel, location, country);
    if info.SalaryError? then Competitive
    else
      var numbers := NumberRuns(info.range);
      if |numbers| >= 2 then CurrencySign(country) + numbers[1]
      else if |numbers| == 1 then CurrencySign(country) + numbers[0]
      else Competitive
  }

  /**
   * The suggestion is the fixed text exactly when the lookup fails or the
   * range holds no digit or comma; otherwise it is a currency sign followed
   * by a run of digits and commas quoted from the range.
   */
  lemma SuggestionQuotesRange(data: SalaryData, roleLevel: string, location: string, country: string)
    ensures var info := GetSalaryRange(data, roleLevel, location, country);
      var r := SuggestSalaryExpectation(data, roleLevel, location, country);
      (r == Competitive <==>
         info.SalaryError? || forall i :: 0 <= i < |info.range| ==> !IsNumberChar(info.range[i])) &&
      (r != Competitive ==>
         info.SalaryRange? && |r| >= 2 && r[..1] == CurrencySign(country) &&
         (forall i :: 1 <= i < |r| ==> IsNumberChar(r[i])) && Contains(info.range, r[1..]))
  {
    var info := GetSalaryRange(data, roleLevel, location, country);
    var r := SuggestSalaryExpectation(data, roleLevel, location, country);
    if info.SalaryRange? {
      NumberRunsEmptyIff(info.range);
      NumberRunsOccur(info.range);
      var runs := NumberRuns(info.range);
      if runs != [] {
        var n := if |runs| >= 2 then runs[1] else runs[0];
        assert r == CurrencySign(country) + n;
        assert r[1..] == n;
        assert r[0] != Competitive[0];
      }
    }
  }
}
