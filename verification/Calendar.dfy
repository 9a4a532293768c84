/** The team calendar: scanning a period day by day for sufficient coverage and merging the
    available days into ranges. Days are integers. */
module Calendar {
  import opened Common

  datatype TimeRange = TimeRange(start: int, end: int) {
    predicate Contains(day: int) {
      start <= day <= end
    }
  }

  datatype Entry = Entry(employee: string, status: string)
  datatype Query = Query(start: int, end: int, department: Option<string>)
  datatype Coverage = Coverage(department: Option<string>, day: int, total: nat, present: nat, minimum: int)

  // ----- ranges and the days they cover -----

  ghost predicate Covers(ranges: seq<TimeRange>, day: int) {
    exists i :: 0 <= i < |ranges| && ranges[i].Contains(day)
  }

  ghost predicate Valid(ranges: seq<TimeRange>) {
    forall i :: 0 <= i < |ranges| ==> ranges[i].start <= ranges[i].end
  }

  ghost predicate SortedByStart(ranges: seq<TimeRange>) {
    forall i, j :: 0 <= i < j < |ranges| ==> ranges[i].start <= ranges[j].start
  }

  /** Sorted ranges with at least one day between any two. */
  ghost predicate Separated(ranges: seq<TimeRange>) {
    forall i, j :: 0 <= i < j < |ranges| ==> ranges[i].end + 1 < ranges[j].start
  }

  ghost predicate Canonical(ranges: seq<TimeRange>) {
    Valid(ranges) && Separated(ranges)
  }

  ghost predicate SameDays(a: seq<TimeRange>, b: seq<TimeRange>) {
    forall day :: Covers(a, day) <==> Covers(b, day)
  }

  // ----- merging -----

  /** Merging a current range into the ranges that follow it. */
  function MergeFrom(current: TimeRange, rest: seq<TimeRange>): seq<TimeRange>
    decreases |rest|
  {
    if rest == [] then [current]
    else if current.end + 1 >= rest[0].start then
      MergeFrom(TimeRange(current.start, Max(current.end, rest[0].end)), rest[1..])
    else
      [current] + MergeFrom(rest[0], rest[1..])
  }

  function Merge(ranges: seq<TimeRange>): seq<TimeRange> {
    if ranges == [] then [] else MergeFrom(ranges[0], ranges[1..])
  }

  method MergeAvailableRanges(ranges: seq<TimeRange>) returns (merged: seq<TimeRange>)
    ensures merged == Merge(ranges)
  {
    if ranges == [] {
      return [];
    }
    merged := [];
    var current := ranges[0];
    for k := 1 to |ranges|
      invariant merged + MergeFrom(current, ranges[k..]) == Merge(ranges)
    {
      var next := ranges[k];
      assert ranges[k..][1..] == ranges[k + 1..];
      if current.end + 1 >= next.start {
        current := TimeRange(current.start, Max(current.end, next.end));
      } else {
        merged := merged + [current];
        current := next;
      }
    }
    merged := merged + [current];
  }

  lemma CoversCons(first: TimeRange, rest: seq<TimeRange>, day: int)
    ensures Covers([first] + rest, day) <==> first.Contains(day) || Covers(rest, day)
  {
    var all := [first] + rest;
    if first.Contains(day) {
      assert all[0].Contains(day);
    }
    if i :| 0 <= i < |rest| && rest[i].Contains(day) {
      assert all[i + 1].Contains(day);
    }
  }

  lemma SameDaysCons(first: TimeRange, a: seq<TimeRange>, b: seq<TimeRange>)
    requires SameDays(a, b)
    ensures SameDays([first] + a, [first] + b)
  {
    forall day
      ensures Covers([first] + a, day) <==> Covers([first] + b, day)
    {
      CoversCons(first, a, day);
      CoversCons(first, b, day);
    }
  }

  /** Two ranges that overlap or touch cover the same days as the range grown from them. */
  lemma SameDaysGrown(current: TimeRange, next: TimeRange, tail: seq<TimeRange>)
    requires current.start <= next.start <= current.end + 1
    ensures SameDays([TimeRange(current.start, Max(current.end, next.end))] + tail, [current] + ([next] + tail))
  {
    var grown := TimeRange(current.start, Max(current.end, next.end));
    forall day
      ensures Covers([grown] + tail, day) <==> Covers([current] + ([next] + tail), day)
    {
      CoversCons(grown, tail, day);
      CoversCons(current, [next] + tail, day);
      CoversCons(next, tail, day);
    }
  }

  lemma TailShape(first: TimeRange, rest: seq<TimeRange>)
    requires Valid([first] + rest) && SortedByStart([first] + rest)
    ensures first.start <= first.end && Valid(rest) && SortedByStart(rest)
    ensures forall i :: 0 <= i < |rest| ==> first.start <= rest[i].start
  {
    var all := [first] + rest;
    assert all[0] == first && forall i :: 0 <= i < |rest| ==> all[i + 1] == rest[i];
  }

  /** From a sorted list of valid ranges, merging makes the canonical list of the same days. */
  lemma {:induction false} MergeFromCanonical(current: TimeRange, rest: seq<TimeRange>)
    requires Valid([current] + rest) && SortedByStart([current] + rest)
    ensures Canonical(MergeFrom(current, rest)) && SameDays(MergeFrom(current, rest), [current] + rest)
    ensures MergeFrom(current, rest) != [] && MergeFrom(current, rest)[0].start == current.start
    decreases |rest|
  {
    TailShape(current, rest);
    if rest == [] {
      assert [current] + rest == [current];
    } else {
      var next, tail := rest[0], rest[1..];
      assert rest == [next] + tail;
      if current.end + 1 >= next.start {
        MergeFromCanonical(TimeRange(current.start, Max(current.end, next.end)), tail);
        SameDaysGrown(current, next, tail);
      } else {
        MergeFromCanonical(next, tail);
        SeparatedCons(current, MergeFrom(next, tail));
        SameDaysCons(current, MergeFrom(next, tail), rest);
      }
    }
  }

  lemma SeparatedCons(first: TimeRange, rest: seq<TimeRange>)
    requires first.start <= first.end && Canonical(rest)
    requires rest != [] ==> first.end + 1 < rest[0].start
    ensures Canonical([first] + rest)
  {
  }

  /** Merging any sorted list of valid ranges, overlapping and nested ones included, keeps the covered
      days, leaves a gap between any two ranges, and changes nothing when repeated. */
  lemma MergeIsCanonical(ranges: seq<TimeRange>)
    requires Valid(ranges) && SortedByStart(ranges)
    ensures Canonical(Merge(ranges)) && SameDays(Merge(ranges), ranges)
    ensures Merge(Merge(ranges)) == Merge(ranges)
  {
    if ranges != [] {
      assert ranges == [ranges[0]] + ranges[1..];
      MergeFromCanonical(ranges[0], ranges[1..]);
    }
    CanonicalIsFixed(Merge(ranges));
  }

  lemma {:induction false} CanonicalIsFixed(ranges: seq<TimeRange>)
    requires Canonical(ranges)
    ensures Merge(ranges) == ranges
  {
    if |ranges| > 1 {
      CanonicalIsFixed(ranges[1..]);
      assert ranges == [ranges[0]] + ranges[1..];
    }
  }

  // ----- the canonical list is unique and shortest -----

  /** The day after a canonical range is free. */
  lemma GapIsFree(ranges: seq<TimeRange>, i: nat)
    requires Canonical(ranges) && i < |ranges|
    ensures !Covers(ranges, ranges[i].end + 1)
  {
  }

  lemma FirstStart(a: seq<TimeRange>, b: seq<TimeRange>)
    requires Canonical(a) && Canonical(b) && SameDays(a, b) && a != [] && b != []
    ensures b[0].start <= a[0].start
  {
    assert a[0].Contains(a[0].start);
    assert Covers(a, a[0].start);
  }

  lemma FirstEnd(a: seq<TimeRange>, b: seq<TimeRange>)
    requires Canonical(a) && Canonical(b) && SameDays(a, b) && a != [] && b != [] && a[0].start == b[0].start
    ensures b[0].end <= a[0].end
  {
    GapIsFree(a, 0);
    assert !Covers(b, a[0].end + 1);
    assert !b[0].Contains(a[0].end + 1);
  }

  lemma SameTail(a: seq<TimeRange>, b: seq<TimeRange>)
    requires Canonical(a) && Canonical(b) && SameDays(a, b) && a != [] && b != [] && a[0] == b[0]
    ensures Canonical(a[1..]) && Canonical(b[1..]) && SameDays(a[1..], b[1..])
  {
    assert a == [a[0]] + a[1..] && b == [b[0]] + b[1..];
    forall day
      ensures Covers(a[1..], day) <==> Covers(b[1..], day)
    {
      CoversCons(a[0], a[1..], day);
      CoversCons(b[0], b[1..], day);
    }
  }

  /** Two canonical lists of the same days are the same list. */
  lemma {:induction false} CanonicalIsUnique(a: seq<TimeRange>, b: seq<TimeRange>)
    requires Canonical(a) && Canonical(b) && SameDays(a, b)
    ensures a == b
  {
    if a == [] || b == [] {
      if a != [] {
        assert a[0].Contains(a[0].start);
        assert Covers(a, a[0].start);
      }
      if b != [] {
        assert b[0].Contains(b[0].start);
        assert Covers(b, b[0].start);
      }
    } else {
      FirstStart(a, b);
      FirstStart(b, a);
      FirstEnd(a, b);
      FirstEnd(b, a);
      SameTail(a, b);
      CanonicalIsUnique(a[1..], b[1..]);
      assert a == [a[0]] + a[1..] && b == [b[0]] + b[1..];
    }
  }

  /** No list of ranges covers the same days with fewer ranges. */
  lemma CanonicalIsShortest(a: seq<TimeRange>, other: seq<TimeRange>)
    requires Canonical(a) && SameDays(a, other)
    ensures |a| <= |other|
  {
    forall i | 0 <= i < |a|
      ensures Covers(other, a[i].start)
    {
      assert a[i].Contains(a[i].start);
      assert Covers(a, a[i].start);
    }
    var chosen := Chosen(a, other);
    if |a| > |other| {
      var i, j := Pigeonhole(chosen, |other|);
      assert other[chosen[i]].Contains(a[i].end + 1);
      assert Covers(other, a[i].end + 1);
      GapIsFree(a, i);
    }
  }

  /** For each canonical range, a range of the other list that contains its first day. */
  lemma {:induction false} Chosen(a: seq<TimeRange>, other: seq<TimeRange>) returns (chosen: seq<nat>)
    requires Valid(a) && forall i :: 0 <= i < |a| ==> Covers(other, a[i].start)
    ensures |chosen| == |a|
    ensures forall i :: 0 <= i < |a| ==> chosen[i] < |other| && other[chosen[i]].Contains(a[i].start)
  {
    if a == [] {
      chosen := [];
    } else {
      var init := a[..|a| - 1];
      assert forall i :: 0 <= i < |init| ==> init[i] == a[i];
      chosen := Chosen(init, other);
      assert Covers(other, a[|a| - 1].start);
      var k: nat :| k < |other| && other[k].Contains(a[|a| - 1].start);
      chosen := chosen + [k];
    }
  }

  lemma Pigeonhole(s: seq<nat>, n: nat) returns (i: nat, j: nat)
    requires |s| > n && forall k :: 0 <= k < |s| ==> s[k] < n
    ensures i < j < |s| && s[i] == s[j]
  {
    if NoDuplicates(s) {
      DistinctLength(s);
      SubsetSize(Elements(s), Below(n));
    }
    i, j :| 0 <= i < j < |s| && s[i] == s[j];
  }

  ghost function Below(n: nat): (b: set<nat>)
    ensures |b| == n && forall k: nat :: k in b <==> k < n
  {
    if n == 0 then {} else Below(n - 1) + {n - 1}
  }

  // ----- the scan -----

  /** How many entries have a status with a given property. */
  function Count(entries: seq<Entry>, counts: string -> bool): nat {
    if entries == [] then 0
    else Count(entries[..|entries| - 1], counts) + if counts(entries[|entries| - 1].status) then 1 else 0
  }

  ghost function Positions(entries: seq<Entry>, counts: string -> bool): set<nat> {
    set i: nat | i < |entries| && counts(entries[i].status)
  }

  lemma PositionsGrow(entries: seq<Entry>, counts: string -> bool, last: Entry)
    ensures Positions(entries + [last], counts)
         == Positions(entries, counts) + if counts(last.status) then {|entries|} else {}
  {
  }

  /** The count is the number of positions whose status has the property. */
  lemma {:induction false} CountIsCardinality(entries: seq<Entry>, counts: string -> bool)
    ensures Count(entries, counts) == |set i: nat | i < |entries| && counts(entries[i].status)|
  {
    assert Positions(entries, counts) == set i: nat | i < |entries| && counts(entries[i].status);
    if entries != [] {
      var earlier, last := entries[..|entries| - 1], entries[|entries| - 1];
      CountIsCardinality(earlier, counts);
      PositionsGrow(earlier, counts, last);
      assert entries == earlier + [last];
      assert Positions(earlier, counts) == set i: nat | i < |earlier| && counts(earlier[i].status);
      assert |earlier| !in Positions(earlier, counts);
    }
  }

  class TeamCalendar {
    var calendarEntries: map<int, seq<Entry>>
    var departmentRules: map<string, int>

    constructor ()
      ensures calendarEntries == map[] && departmentRules == map[]
    {
      calendarEntries, departmentRules := map[], map[];
    }

    function CalculateCoverage(day: int, department: Option<string>): Coverage
      reads this
    {
      var entries := if day in calendarEntries then calendarEntries[day] else [];
      var minimum :=
        if department.Some? && department.value in departmentRules then departmentRules[department.value] else 1;
      Coverage(department, day, Count(entries, s => s != "holiday"), Count(entries, s => s == "present"), minimum)
    }

    /** The figures say how many entries of the day are no holidays, how many are present, and the department's
        rule, which is 1 for a department without one. */
    ghost predicate Reports(c: Coverage, day: int, department: Option<string>)
      reads this
    {
      var entries := if day in calendarEntries then calendarEntries[day] else [];
      && c.day == day && c.department == department
      && c.total == |set i: nat | i < |entries| && entries[i].status != "holiday"|
      && c.present == |set i: nat | i < |entries| && entries[i].status == "present"|
      && (department.Some? && department.value in departmentRules ==> c.minimum == departmentRules[department.value])
      && (department.None? || department.value !in departmentRules ==> c.minimum == 1)
    }

    lemma CoverageReports(day: int, department: Option<string>)
      ensures Reports(CalculateCoverage(day, department), day, department)
    {
      var entries := if day in calendarEntries then calendarEntries[day] else [];
      CountIsCardinality(entries, s => s != "holiday");
      CountIsCardinality(entries, s => s == "present");
      assert (set i: nat | i < |entries| && (s => s != "holiday")(entries[i].status))
          == (set i: nat | i < |entries| && entries[i].status != "holiday");
      assert (set i: nat | i < |entries| && (s => s == "present")(entries[i].status))
          == (set i: nat | i < |entries| && entries[i].status == "present");
    }

    predicate IsDateAvailable(coverage: Coverage) {
      coverage.present > coverage.minimum
    }

    /** The available days of the period as the canonical list of ranges, and the coverage of each day. A day is
        available when more employees are present than the department's rule asks for, 1 without a rule. */
    method CheckAvailability(query: Query) returns (merged: seq<TimeRange>, coverage: seq<Coverage>)
      ensures Canonical(merged)
      ensures |coverage| == if query.start <= query.end then query.end - query.start + 1 else 0
      ensures forall k :: 0 <= k < |coverage| ==> Reports(coverage[k], query.start + k, query.department)
      ensures forall day :: Covers(merged, day) <==>
        && query.start <= day <= query.end
        && var entries := if day in calendarEntries then calendarEntries[day] else [];
           var present := |set i: nat | i < |entries| && entries[i].status == "present"|;
           if query.department.Some? && query.department.value in departmentRules then
             present > departmentRules[query.department.value]
           else present > 1
    {
      var available: seq<TimeRange> := [];
      coverage := [];
      var current := query.start;
      while current <= query.end
        invariant query.start <= current
        invariant current <= query.end + 1 || current == query.start
        invariant |coverage| == current - query.start
        invariant forall k :: 0 <= k < |coverage| ==> Reports(coverage[k], query.start + k, query.department)
        invariant forall i :: 0 <= i < |available| ==> available[i].start == available[i].end < current
        invariant SortedByStart(available)
        invariant forall day :: Covers(available, day) <==>
          query.start <= day < current && coverage[day - query.start].present > coverage[day - query.start].minimum
      {
        var c := CalculateCoverage(current, query.department);
        CoverageReports(current, query.department);
        coverage := coverage + [c];
        if IsDateAvailable(c) {
          CoversAppend(available, TimeRange(current, current));
          available := available + [TimeRange(current, current)];
        }
        current := current + 1;
      }
      merged := MergeAvailableRanges(available);
      MergeIsCanonical(available);
      assert forall day :: query.start <= day <= query.end ==>
        Covers(merged, day) == (coverage[day - query.start].present > coverage[day - query.start].minimum);
    }
  }

  lemma CoversAppend(ranges: seq<TimeRange>, last: TimeRange)
    ensures forall day :: Covers(ranges + [last], day) <==> Covers(ranges, day) || last.Contains(day)
  {
    forall day
      ensures Covers(ranges + [last], day) <==> Covers(ranges, day) || last.Contains(day)
    {
      if i :| 0 <= i < |ranges| && ranges[i].Contains(day) {
        assert (ranges + [last])[i].Contains(day);
      }
      if last.Contains(day) {
        assert (ranges + [last])[|ranges|].Contains(day);
      }
    }
  }
}
