/**
 * Checking a hospital name against the list of legitimate hospitals, and
 * the state and district indices derived from that list
 * (backend/data/legitimate_hospitals.py). The list itself is data and is a
 * parameter here.
 */
module Hospitals {
  import opened Wrappers
  import opened Text
  import opened Sorting

  datatype Hospital = Hospital(name: string, city: string, state: string, district: string,
                               kind: string, specialization: string)

  /** A filter argument applies only when given and non-empty (Python truthiness). */
  predicate Given(filter: Option<string>)
  {
    filter.Some? && filter.value != ""
  }

  /** `name.lower().strip()`. */
  function Normalize(name: string): string
  {
    Strip(Lower(name))
  }

  /** Fuzzy name match: either normalised name contains the other. */
  predicate NameMatches(query: string, h: Hospital)
  {
    var q := Normalize(query);
    var n := Normalize(h.name);
    Contains(n, q) || Contains(q, n)
  }

  predicate PassesFilters(h: Hospital, state: Option<string>, district: Option<string>)
  {
    (!Given(state) || h.state == state.value) && (!Given(district) || h.district == district.value)
  }

  predicate Accepts(query: string, state: Option<string>, district: Option<string>, h: Hospital)
  {
    NameMatches(query, h) && PassesFilters(h, state, district)
  }

  /** Index of the first element, in order, that satisfies `p`. */
  function FirstWhere<T>(s: seq<T>, p: T -> bool): (r: Option<nat>)
    ensures r.None? <==> forall i :: 0 <= i < |s| ==> !p(s[i])
    ensures r.Some? ==> r.value < |s| && p(s[r.value]) && forall i :: 0 <= i < r.value ==> !p(s[i])
  {
    if s == [] then None
    else if p(s[0]) then Some(0)
    else
      var rest := FirstWhere(s[1..], p);
      if rest.None? then None else Some(rest.value + 1)
  }

  /** Index of the first hospital, in list order, that matches the name and passes the filters. */
  function FirstAccepted(hospitals: seq<Hospital>, query: string, state: Option<string>, district: Option<string>)
    : Option<nat>
  {
    FirstWhere(hospitals, Acceptor(query, state, district))
  }

  function Acceptor(query: string, state: Option<string>, district: Option<string>): Hospital -> bool
  {
    (h: Hospital) => Accepts(query, state, district, h)
  }

  /** The first position satisfying `p` is the one before which nothing does. */
  lemma FirstWhereAt<T>(s: seq<T>, p: T -> bool, i: nat)
    requires i < |s| && p(s[i]) && forall j :: 0 <= j < i ==> !p(s[j])
    ensures FirstWhere(s, p) == Some(i)
  {
    var r := FirstWhere(s, p);
    assert r.Some?;
    assert !(r.value < i);
    assert !(i < r.value);
  }

  datatype Verification = Verification(verified: bool, status: string, hospital: Option<Hospital>, message: string)

  function FlaggedMessage(query: string): string
  {
    "Hospital '" + query + "' not found in legitimate hospitals database. Flagged for admin review."
  }

  /**
   * `verify_hospital`: the first hospital in list order whose name matches
   * and which passes the given filters; with none, the result is flagged.
   */
  method VerifyHospital(hospitals: seq<Hospital>, query: string, state: Option<string>, district: Option<string>)
    returns (r: Verification)
    ensures r.verified <==> FirstAccepted(hospitals, query, state, district).Some?
    ensures r.verified ==> && r.status == "verified"
                           && r.hospital == Some(hospitals[FirstAccepted(hospitals, query, state, district).value])
                           && r.message == "Hospital verified: " + r.hospital.value.name
    ensures !r.verified ==> r == Verification(false, "flagged", None, FlaggedMessage(query))
  {
    var normalized := Normalize(query);
    ghost var accept := Acceptor(query, state, district);
    for i := 0 to |hospitals|
      invariant forall j :: 0 <= j < i ==> !accept(hospitals[j])
    {
      var h := hospitals[i];
      var hospitalNormalized := Normalize(h.name);
      var nameMatches := Contains(hospitalNormalized, normalized) || Contains(normalized, hospitalNormalized);
      assert nameMatches == NameMatches(query, h);
      if nameMatches {
        if Given(state) && h.state != state.value {
          continue;
        }
        if Given(district) && h.district != district.value {
          continue;
        }
        assert accept(h);
        FirstWhereAt(hospitals, accept, i);
        return Verification(true, "verified", Some(h), "Hospital verified: " + h.name);
      }
    }
    return Verification(false, "flagged", None, FlaggedMessage(query));
  }

  /** A blank query (empty after stripping) matches every name, so the first hospital passing the filters wins. */
  lemma BlankQueryMatchesAll(hospitals: seq<Hospital>, query: string, state: Option<string>, district: Option<string>)
    requires Normalize(query) == ""
    ensures forall i :: 0 <= i < |hospitals| ==>
              (Accepts(query, state, district, hospitals[i]) <==> PassesFilters(hospitals[i], state, district))
  {
    forall i | 0 <= i < |hospitals| ensures NameMatches(query, hospitals[i]) {
      EmptyContained(Normalize(hospitals[i].name));
    }
  }

  /** The test of `h["state"] == state`. */
  function InState(state: string): Hospital -> bool
  {
    (h: Hospital) => h.state == state
  }

  /** The test of `h["district"] == district`. */
  function InDistrict(district: string): Hospital -> bool
  {
    (h: Hospital) => h.district == district
  }

  /** The test of both filters together, each applying only when given. */
  function AtLocation(state: Option<string>, district: Option<string>): Hospital -> bool
  {
    (h: Hospital) => PassesFilters(h, state, district)
  }

  /**
   * `get_hospitals_by_location`: a state filter, then a district filter,
   * each only when given. The result is the list filtered once by both
   * tests: every hospital of the location, as often as it occurs and in
   * list order, and the whole list when no filter is given.
   */
  function HospitalsByLocation(hospitals: seq<Hospital>, state: Option<string>, district: Option<string>)
    : (r: seq<Hospital>)
    ensures r == Filter(hospitals, AtLocation(state, district))
    ensures !Given(state) && !Given(district) ==> r == hospitals
  {
    var byState := if Given(state) then Filter(hospitals, InState(state.value)) else hospitals;
    var r := if Given(district) then Filter(byState, InDistrict(district.value)) else byState;
    if Given(state) && Given(district) then
      FilterTwice(hospitals, InState(state.value), InDistrict(district.value), AtLocation(state, district));
      r
    else if Given(state) then
      FilterSame(hospitals, InState(state.value), AtLocation(state, district));
      r
    else if Given(district) then
      FilterSame(hospitals, InDistrict(district.value), AtLocation(state, district));
      r
    else
      FilterAll(hospitals, AtLocation(state, district));
      r
  }

  function StatesOf(hospitals: seq<Hospital>): (r: seq<string>)
    ensures |r| == |hospitals|
    ensures forall i :: 0 <= i < |r| ==> r[i] == hospitals[i].state
  {
    seq(|hospitals|, i requires 0 <= i < |hospitals| => hospitals[i].state)
  }

  /** `STATES`: the states of the list, sorted, each once. */
  function States(hospitals: seq<Hospital>): (r: seq<string>)
    ensures forall s :: s in r <==> exists i :: 0 <= i < |hospitals| && hospitals[i].state == s
    ensures forall i, j :: 0 <= i < j < |r| ==> LexLe(r[i], r[j]) && r[i] != r[j]
  {
    var states := StatesOf(hospitals);
    assert forall s :: s in states <==> exists i :: 0 <= i < |hospitals| && hospitals[i].state == s by {
      forall s ensures s in states <==> exists i :: 0 <= i < |hospitals| && hospitals[i].state == s {
        if s in states {
          var i :| 0 <= i < |states| && states[i] == s;
        }
      }
    }
    SortedUnique(states)
  }

  /** The districts of the hospitals in `state`, as a set (the index before sorting). */
  ghost function DistrictsIn(hospitals: seq<Hospital>, state: string): set<string>
  {
    set i | 0 <= i < |hospitals| && hospitals[i].state == state :: hospitals[i].district
  }

  /**
   * Builds `DISTRICTS_BY_STATE`: one pass adds each hospital's district to
   * its state's collection (a collection holds each district once), then a
   * second pass replaces every collection by its sorted list.
   */
  method DistrictsByState(hospitals: seq<Hospital>) returns (index: map<string, seq<string>>)
    ensures forall s :: s in index <==> exists i :: 0 <= i < |hospitals| && hospitals[i].state == s
    ensures forall s :: s in index ==> forall d :: d in index[s] <==> d in DistrictsIn(hospitals, s)
    ensures forall s :: s in index ==> forall i, j :: 0 <= i < j < |index[s]| ==>
              LexLe(index[s][i], index[s][j]) && index[s][i] != index[s][j]
  {
    var sets: map<string, seq<string>> := map[];
    for k := 0 to |hospitals|
      invariant forall s :: s in sets <==> exists i :: 0 <= i < k && hospitals[i].state == s
      invariant forall s :: s in sets ==> forall d :: d in sets[s] <==> d in DistrictsIn(hospitals[..k], s)
    {
      var h := hospitals[k];
      if h.state !in sets {
        sets := sets[h.state := []];
      }
      if h.district !in sets[h.state] {
        sets := sets[h.state := sets[h.state] + [h.district]];
      }
      assert hospitals[..k + 1] == hospitals[..k] + [h];
      forall s | s in sets ensures forall d :: d in sets[s] <==> d in DistrictsIn(hospitals[..k + 1], s) {
        assert forall d :: d in DistrictsIn(hospitals[..k + 1], s) <==>
          d in DistrictsIn(hospitals[..k], s) || (s == h.state && d == h.district) by {
          forall d ensures d in DistrictsIn(hospitals[..k + 1], s) <==>
            d in DistrictsIn(hospitals[..k], s) || (s == h.state && d == h.district) {
            if d in DistrictsIn(hospitals[..k + 1], s) {
              var i :| 0 <= i < k + 1 && hospitals[..k + 1][i].state == s && hospitals[..k + 1][i].district == d;
              if i < k {
                assert hospitals[..k][i] == hospitals[..k + 1][i];
              }
            }
            if d in DistrictsIn(hospitals[..k], s) {
              var i :| 0 <= i < k && hospitals[..k][i].state == s && hospitals[..k][i].district == d;
              assert hospitals[..k + 1][i] == hospitals[..k][i];
            }
            if s == h.state && d == h.district {
              assert hospitals[..k + 1][k] == h;
            }
          }
        }
      }
    }
    assert hospitals[..|hospitals|] == hospitals;
    index := map[];
    var pending := sets.Keys;
    while pending != {}
      invariant pending <= sets.Keys
      invariant index.Keys == sets.Keys - pending
      invariant forall s :: s in index ==> index[s] == SortedUnique(sets[s])
      decreases |pending|
    {
      var s :| s in pending;
      index := index[s := SortedUnique(sets[s])];
      pending := pending - {s};
    }
  }
}
