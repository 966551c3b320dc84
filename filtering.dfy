/** The filter criteria and the four-part predicate that `applyFilters`
    runs over the dataset (src/App.jsx), with the facts about the result. */
module Filtering {
  import opened Regions

  /** The filter record the form edits. An empty `state` or `incomeLevel`
      means "any"; a `hospitalAdmissions` ceiling of 0 means "no ceiling". */
  datatype Filters = Filters(
    state: string,
    aqiMin: int,
    aqiMax: int,
    hospitalAdmissions: int,
    incomeLevel: string)

  /** The criteria the App starts with. */
  const DefaultFilters: Filters := Filters("", 0, 500, 100000, "")

  predicate MatchesState(r: Record, f: Filters)
  {
    f.state == "" || r.id == f.state
  }

  predicate MatchesAqi(r: Record, f: Filters)
  {
    r.aqi >= f.aqiMin && r.aqi <= f.aqiMax
  }

  predicate MatchesAdmissions(r: Record, f: Filters)
  {
    f.hospitalAdmissions == 0 || r.hospitalAdmissions <= f.hospitalAdmissions
  }

  predicate MatchesIncome(r: Record, f: Filters)
  {
    f.incomeLevel == "" || r.incomeLevel == f.incomeLevel
  }

  /** A record passes when all four tests pass. */
  predicate Matches(r: Record, f: Filters)
  {
    MatchesState(r, f) && MatchesAqi(r, f) && MatchesAdmissions(r, f) && MatchesIncome(r, f)
  }

  /** `t` is obtained from `s` by deleting elements, keeping the order. */
  ghost predicate IsSubsequence(t: seq<Record>, s: seq<Record>)
    decreases |s|
  {
    t == [] ||
    (s != [] &&
     ((t[0] == s[0] && IsSubsequence(t[1..], s[1..])) || IsSubsequence(t, s[1..])))
  }

  /** `s.filter(item => Matches(item, f))`: the records of `s` that pass. */
  function FilterData(s: seq<Record>, f: Filters): (r: seq<Record>)
    ensures |r| <= |s|
    ensures forall x :: x in r ==> x in s && Matches(x, f)
  {
    if s == [] then []
    else if Matches(s[0], f) then [s[0]] + FilterData(s[1..], f)
    else FilterData(s[1..], f)
  }

  /** The result keeps the dataset's order: it is a subsequence of it. */
  lemma {:induction false} FilterIsSubsequence(s: seq<Record>, f: Filters)
    ensures IsSubsequence(FilterData(s, f), s)
  {
    if s != [] {
      FilterIsSubsequence(s[1..], f);
      var rest := FilterData(s[1..], f);
      if Matches(s[0], f) {
        assert ([s[0]] + rest)[1..] == rest;
      }
    }
  }

  /** Every record occurs in the result as often as in the input when it
      passes, and not at all when it does not: nothing outside the input
      appears and no passing record is dropped. */
  lemma {:induction false} FilterCounts(s: seq<Record>, f: Filters, x: Record)
    ensures multiset(FilterData(s, f))[x] == if Matches(x, f) then multiset(s)[x] else 0
  {
    if s != [] {
      FilterCounts(s[1..], f, x);
      assert s == [s[0]] + s[1..];
      assert multiset(s) == multiset{s[0]} + multiset(s[1..]);
    }
  }

  /** A record is in the result exactly when it is in the input and passes. */
  lemma {:induction false} FilterMembership(s: seq<Record>, f: Filters, x: Record)
    ensures x in FilterData(s, f) <==> x in s && Matches(x, f)
  {
    FilterCounts(s, f, x);
  }

  /** Two criteria that accept the same records of `s` give the same result. */
  lemma {:induction false} FilterExtensional(s: seq<Record>, f: Filters, g: Filters)
    requires forall i :: 0 <= i < |s| ==> (Matches(s[i], f) <==> Matches(s[i], g))
    ensures FilterData(s, f) == FilterData(s, g)
  {
    if s != [] {
      FilterExtensional(s[1..], f, g);
    }
  }

  /** Criteria that accept more records give a result containing the other
      one, in order. */
  lemma {:induction false} FilterMonotone(s: seq<Record>, f: Filters, g: Filters)
    requires forall i :: 0 <= i < |s| && Matches(s[i], f) ==> Matches(s[i], g)
    ensures IsSubsequence(FilterData(s, f), FilterData(s, g))
  {
    if s != [] {
      FilterMonotone(s[1..], f, g);
      var a, b := FilterData(s[1..], f), FilterData(s[1..], g);
      if Matches(s[0], f) {
        assert ([s[0]] + a)[1..] == a && ([s[0]] + b)[1..] == b;
      } else if Matches(s[0], g) {
        assert ([s[0]] + b)[1..] == b;
      }
    }
  }

  /** The result is the whole input exactly when every record passes. */
  lemma {:induction false} FilterKeepsAll(s: seq<Record>, f: Filters)
    ensures FilterData(s, f) == s <==> forall i :: 0 <= i < |s| ==> Matches(s[i], f)
  {
    if s != [] {
      FilterKeepsAll(s[1..], f);
      if forall i :: 0 <= i < |s| ==> Matches(s[i], f) {
        assert forall i :: 0 <= i < |s[1..]| ==> Matches(s[1..][i], f) by {
          forall i | 0 <= i < |s[1..]| ensures Matches(s[1..][i], f) {
            assert s[1..][i] == s[i + 1];
          }
        }
        assert s == [s[0]] + s[1..];
      }
      if FilterData(s, f) == s {
        forall i | 0 <= i < |s| ensures Matches(s[i], f) {
          assert s[i] in FilterData(s, f);
        }
      }
    }
  }

  /** The result is empty exactly when no record passes; an empty result is
      an ordinary outcome. */
  lemma {:induction false} FilterEmpty(s: seq<Record>, f: Filters)
    ensures FilterData(s, f) == [] <==> forall i :: 0 <= i < |s| ==> !Matches(s[i], f)
  {
    if FilterData(s, f) != [] {
      assert FilterData(s, f)[0] in FilterData(s, f);
    }
    forall i | 0 <= i < |s| && Matches(s[i], f) ensures FilterData(s, f) != [] {
      FilterMembership(s, f, s[i]);
    }
  }

  /** Filtering the result again with the same criteria changes nothing. */
  lemma {:induction false} FilterIdempotent(s: seq<Record>, f: Filters)
    ensures FilterData(FilterData(s, f), f) == FilterData(s, f)
  {
    var r := FilterData(s, f);
    forall i | 0 <= i < |r| ensures Matches(r[i], f) {
      assert r[i] in r;
    }
    FilterKeepsAll(r, f);
  }

  /** Both AQI bounds are inclusive: a record that passes the other three
      tests and sits exactly on either end of a nonempty range is kept. */
  lemma {:induction false} AqiBoundsInclusive(s: seq<Record>, f: Filters, x: Record)
    requires x in s && MatchesState(x, f) && MatchesAdmissions(x, f) && MatchesIncome(x, f)
    requires f.aqiMin <= f.aqiMax && (x.aqi == f.aqiMin || x.aqi == f.aqiMax)
    ensures x in FilterData(s, f)
  {
    FilterMembership(s, f, x);
  }

  /** With `aqiMin > aqiMax` nothing passes and the result is empty. */
  lemma {:induction false} InvertedAqiRangeIsEmpty(s: seq<Record>, f: Filters)
    requires f.aqiMin > f.aqiMax
    ensures FilterData(s, f) == []
  {
    FilterEmpty(s, f);
  }

  /** A ceiling of 0 means "no ceiling": it selects the same records as any
      ceiling at or above every admissions count of the input. Any other
      ceiling keeps only records at or below it. */
  lemma {:induction false} ZeroCeilingIsNoCeiling(s: seq<Record>, f: Filters, c: int)
    requires f.hospitalAdmissions == 0
    requires forall i :: 0 <= i < |s| ==> s[i].hospitalAdmissions <= c
    ensures FilterData(s, f) == FilterData(s, f.(hospitalAdmissions := c))
  {
    FilterExtensional(s, f, f.(hospitalAdmissions := c));
  }

  /** A nonzero ceiling is a real bound on every kept record. */
  lemma {:induction false} NonzeroCeilingBounds(s: seq<Record>, f: Filters, x: Record)
    requires f.hospitalAdmissions != 0
    ensures x in FilterData(s, f) <==>
      x in s && MatchesState(x, f) && MatchesAqi(x, f) && MatchesIncome(x, f)
      && x.hospitalAdmissions <= f.hospitalAdmissions
  {
    FilterMembership(s, f, x);
  }

  /** The empty state and the empty income level are wildcards: with either
      one, a record is kept exactly when it passes the remaining tests, and
      every other choice keeps a subsequence of what the wildcard keeps. */
  lemma {:induction false} WildcardsWiden(s: seq<Record>, f: Filters, state: string, incomeLevel: string, x: Record)
    ensures x in FilterData(s, f.(state := "")) <==>
      x in s && MatchesAqi(x, f) && MatchesAdmissions(x, f) && MatchesIncome(x, f)
    ensures x in FilterData(s, f.(incomeLevel := "")) <==>
      x in s && MatchesState(x, f) && MatchesAqi(x, f) && MatchesAdmissions(x, f)
    ensures IsSubsequence(FilterData(s, f.(state := state)), FilterData(s, f.(state := "")))
    ensures IsSubsequence(FilterData(s, f.(incomeLevel := incomeLevel)), FilterData(s, f.(incomeLevel := "")))
  {
    FilterMembership(s, f.(state := ""), x);
    FilterMembership(s, f.(incomeLevel := ""), x);
    FilterMonotone(s, f.(state := state), f.(state := ""));
    FilterMonotone(s, f.(incomeLevel := incomeLevel), f.(incomeLevel := ""));
  }

  /** With unique ids, a nonempty state filter keeps at most one record, and
      it is the one with that id. */
  lemma {:induction false} StateKeepsAtMostOne(s: seq<Record>, f: Filters)
    requires UniqueIds(s)
    requires f.state != ""
    ensures |FilterData(s, f)| <= 1
    ensures forall x :: x in FilterData(s, f) ==> x.id == f.state
  {
    if s != [] {
      var tail := s[1..];
      assert UniqueIds(tail) by {
        forall i, j | 0 <= i < |tail| && 0 <= j < |tail| && tail[i].id == tail[j].id
          ensures i == j
        {
          assert s[i + 1] == tail[i] && s[j + 1] == tail[j];
        }
      }
      StateKeepsAtMostOne(tail, f);
      if Matches(s[0], f) {
        forall i | 0 <= i < |tail| ensures !Matches(tail[i], f) {
          assert tail[i] == s[i + 1];
        }
        FilterEmpty(tail, f);
      }
    }
  }

  /** The default criteria keep every record whose AQI lies in 0..500 and
      whose admissions are at most 100000. */
  lemma {:induction false} DefaultKeepsInRange(s: seq<Record>)
    requires forall i :: 0 <= i < |s| ==> 0 <= s[i].aqi <= 500 && s[i].hospitalAdmissions <= 100000
    ensures FilterData(s, DefaultFilters) == s
  {
    FilterKeepsAll(s, DefaultFilters);
  }

  /** The default criteria keep all fifteen records, in order. */
  lemma DefaultKeepsAll()
    ensures FilterData(MockData, DefaultFilters) == MockData
  {
    MockDataRanges();
    DefaultKeepsInRange(MockData);
  }

  /** A record with AQI 280 and at most 100000 admissions passes the range
      200..500 and fails the range 0..150. */
  lemma {:induction false} AqiRangeExample(s: seq<Record>, x: Record)
    requires x in s && x.aqi == 280 && x.hospitalAdmissions <= 100000
    ensures x in FilterData(s, DefaultFilters.(aqiMin := 200))
    ensures x !in FilterData(s, DefaultFilters.(aqiMax := 150))
  {
    FilterMembership(s, DefaultFilters.(aqiMin := 200), x);
    FilterMembership(s, DefaultFilters.(aqiMax := 150), x);
  }

  /** Delhi (AQI 280) passes the range 200..500 and fails the range 0..150. */
  lemma DelhiRangeExample()
    ensures MockData[1].name == "Delhi"
    ensures MockData[1] in FilterData(MockData, DefaultFilters.(aqiMin := 200))
    ensures MockData[1] !in FilterData(MockData, DefaultFilters.(aqiMax := 150))
  {
    AqiRangeExample(MockData, MockData[1]);
  }

  /** The ceiling is not monotone at 0: ceiling 1 keeps nothing while
      ceiling 0 keeps everything. */
  lemma ZeroCeilingExample()
    ensures FilterData(MockData, DefaultFilters.(hospitalAdmissions := 0)) == MockData
    ensures FilterData(MockData, DefaultFilters.(hospitalAdmissions := 1)) == []
  {
    MockDataRanges();
    FilterKeepsAll(MockData, DefaultFilters.(hospitalAdmissions := 0));
    FilterEmpty(MockData, DefaultFilters.(hospitalAdmissions := 1));
  }
}
