/** Fee schedules (db/src/models/fee_schedules.rs). */
module FeeSchedules {
  import opened Schema

  /** Ranges come ordered by threshold, and a unique index keeps thresholds apart. */
  ghost predicate Ascending(ranges: seq<FeeScheduleRange>) {
    forall i, j :: 0 <= i < j < |ranges| ==> ranges[i].minPriceInCents < ranges[j].minPriceInCents
  }

  /** The range with the greatest threshold not above the price. */
  ghost predicate IsApplicable(ranges: seq<FeeScheduleRange>, price: int, range: FeeScheduleRange) {
    && range in ranges
    && range.minPriceInCents <= price
    && forall other :: other in ranges && other.minPriceInCents <= price ==> other.minPriceInCents <= range.minPriceInCents
  }

  /** The guard `update_fees` asks before it looks a range up. */
  predicate Covered(ranges: seq<FeeScheduleRange>, price: int) {
    0 < |ranges| && ranges[0].minPriceInCents <= price
  }

  method GetRange(ranges: seq<FeeScheduleRange>, price: int) returns (r: Result<FeeScheduleRange>)
    requires Ascending(ranges)
    ensures r.Ok? <==> Covered(ranges, price)
    ensures r.Ok? ==> IsApplicable(ranges, price, r.value)
    ensures r.Err? ==> forall range :: range in ranges ==> price < range.minPriceInCents
  {
    var found := None;
    var i := 0;
    while i < |ranges|
      invariant i <= |ranges|
      invariant found == if i == 0 then None else Some(ranges[i - 1])
      invariant forall j :: 0 <= j < i ==> ranges[j].minPriceInCents <= price
    {
      if ranges[i].minPriceInCents > price {
        break;
      }
      found := Some(ranges[i]);
      i := i + 1;
    }
    match found
    case Some(range) => r := Ok(range);
    case None => r := Err(NoResults);
  }

  lemma ApplicableRangeIsUnique(ranges: seq<FeeScheduleRange>, price: int, a: FeeScheduleRange, b: FeeScheduleRange)
    requires Ascending(ranges) && IsApplicable(ranges, price, a) && IsApplicable(ranges, price, b)
    ensures a == b
  {
    var i :| 0 <= i < |ranges| && ranges[i] == a;
    var j :| 0 <= j < |ranges| && ranges[j] == b;
    assert !(i < j) && !(j < i);
  }

  lemma CoveredExactlyWhenApplicable(ranges: seq<FeeScheduleRange>, price: int)
    requires Ascending(ranges)
    ensures Covered(ranges, price) <==> exists range :: IsApplicable(ranges, price, range)
  {
    if Covered(ranges, price) {
      var n := |ranges|;
      while ranges[n - 1].minPriceInCents > price
        invariant 0 < n <= |ranges|
        invariant forall j :: n <= j < |ranges| ==> price < ranges[j].minPriceInCents
      {
        n := n - 1;
      }
      assert IsApplicable(ranges, price, ranges[n - 1]);
    }
  }

  datatype NewFeeScheduleRange = NewFeeScheduleRange(minPriceInCents: int, companyFeeInCents: int, clientFeeInCents: int)

  /** The latest schedule of the name, whose version is the greatest. */
  method PreviousVersion(schedules: seq<(string, int)>, name: string) returns (previous: Option<int>)
    ensures previous.None? <==> forall s :: s in schedules ==> s.0 != name
    ensures previous.Some? ==> (name, previous.value) in schedules && forall s :: s in schedules && s.0 == name ==> s.1 <= previous.value
  {
    previous := None;
    for i := 0 to |schedules|
      invariant previous.None? <==> forall s :: s in schedules[..i] ==> s.0 != name
      invariant previous.Some? ==>
        (name, previous.value) in schedules[..i] && forall s :: s in schedules[..i] && s.0 == name ==> s.1 <= previous.value
    {
      assert schedules[..i + 1] == schedules[..i] + [schedules[i]];
      if schedules[i].0 == name && (previous.None? || previous.value < schedules[i].1) {
        assert schedules[i] == (name, schedules[i].1);
        previous := Some(schedules[i].1);
      }
    }
    assert schedules[..|schedules|] == schedules;
  }

  /**
    `NewFeeSchedule::commit`: the version and the rows of a new schedule. Versions of a name are counted up from zero, so
    none comes twice; the fee of a range is the sum of its two parts.
   */
  method Commit(schedules: seq<(string, int)>, name: string, ranges: seq<NewFeeScheduleRange>)
    returns (version: int, rows: seq<FeeScheduleRange>)
    ensures (name, version) !in schedules && forall s :: s in schedules && s.0 == name ==> s.1 < version
    ensures version == 0 || (name, version - 1) in schedules
    ensures (forall s :: s in schedules ==> s.0 != name) ==> version == 0
    ensures |rows| == |ranges|
    ensures forall i :: 0 <= i < |rows| ==>
      && rows[i].minPriceInCents == ranges[i].minPriceInCents
      && rows[i].feeInCents == rows[i].companyFeeInCents + rows[i].clientFeeInCents
      && rows[i].companyFeeInCents == ranges[i].companyFeeInCents
      && rows[i].clientFeeInCents == ranges[i].clientFeeInCents
  {
    var previous := PreviousVersion(schedules, name);
    version := if previous.None? then 0 else previous.value + 1;
    rows := [];
    for i := 0 to |ranges|
      invariant |rows| == i
      invariant forall j :: 0 <= j < i ==>
        rows[j] == FeeScheduleRange(ranges[j].minPriceInCents, ranges[j].companyFeeInCents + ranges[j].clientFeeInCents,
                                    ranges[j].companyFeeInCents, ranges[j].clientFeeInCents)
    {
      var range := ranges[i];
      rows := rows + [FeeScheduleRange(range.minPriceInCents, range.companyFeeInCents + range.clientFeeInCents,
                                       range.companyFeeInCents, range.clientFeeInCents)];
    }
  }
}
