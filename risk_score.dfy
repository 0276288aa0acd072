/**
 The rule that labels a simulated crime record of Cusco with a risk level.

 A record earns points for the hour band (night 20-6 earns 2, the shoulder
 hours 7-8 and 18-19 earn 1), for a weekend day, for a position south of
 latitude -13.4 and for a robbery or an assault. The sum of these points is
 the score; a score of 4 or more is level 2 (high), of 2 or more level 1
 (medium), anything lower level 0 (low).

 The rule never looks at longitude or month, and it is total: every integer
 hour, weekday and crime type has a well-defined contribution, so none of the
 facts below needs the ranges the record generator draws from.
 */
module RiskScore {

  /** One row of the generated table. Crime types are 0 robbery, 1 assault,
      2 theft, 3 violence, 4 other; weekdays are 0 Monday .. 6 Sunday. */
  datatype Sample = Sample(
    latitude: real,
    longitude: real,
    hour: int,
    weekday: int,
    month: int,
    crimeType: int)

  const SouthOf: real := -13.4
  const HighThreshold: int := 4
  const MediumThreshold: int := 2

  predicate IsNight(hour: int) { hour >= 20 || hour <= 6 }

  /** The hours that earn one point: the later test of the if/elif chain. */
  predicate IsShoulder(hour: int) { !IsNight(hour) && (hour >= 18 || hour <= 8) }

  predicate IsDaytime(hour: int) { 9 <= hour <= 17 }

  predicate IsWeekend(weekday: int) { weekday >= 5 }

  predicate IsSouth(latitude: real) { latitude < SouthOf }

  predicate IsRobberyOrAssault(crimeType: int) { crimeType == 0 || crimeType == 1 }

  /** The points the hour band earns. */
  function HourPoints(hour: int): (p: int)
    ensures 0 <= p <= 2
  {
    if IsNight(hour) then 2 else if IsShoulder(hour) then 1 else 0
  }

  /** The one point a condition earns when it holds. */
  function Indicator(b: bool): (p: int)
    ensures 0 <= p <= 1 && (p == 1 <==> b)
  {
    if b then 1 else 0
  }

  /** How many of the three one-point conditions hold. */
  function FlagCount(s: Sample): (n: int)
    ensures 0 <= n <= 3
  {
    Indicator(IsWeekend(s.weekday)) + Indicator(IsSouth(s.latitude))
      + Indicator(IsRobberyOrAssault(s.crimeType))
  }

  /** The score of a sample: the hour points plus one per condition that holds. */
  function Score(s: Sample): (score: int)
    ensures 0 <= score <= 5
    ensures IsDaytime(s.hour) ==> score <= 3
  {
    HourPoints(s.hour) + FlagCount(s)
  }

  /** The risk level of a score. */
  function Level(score: int): (level: int)
    ensures 0 <= level <= 2
  {
    if score >= HighThreshold then 2
    else if score >= MediumThreshold then 1
    else 0
  }

  function RiskLevel(s: Sample): (level: int)
    ensures 0 <= level <= 2
  {
    Level(Score(s))
  }

  /** At least two of the three conditions hold. */
  predicate TwoFlags(s: Sample) {
    var w, so, v := IsWeekend(s.weekday), IsSouth(s.latitude), IsRobberyOrAssault(s.crimeType);
    (w && so) || (w && v) || (so && v)
  }

  predicate AllFlags(s: Sample) {
    IsWeekend(s.weekday) && IsSouth(s.latitude) && IsRobberyOrAssault(s.crimeType)
  }

  predicate NoFlag(s: Sample) {
    !IsWeekend(s.weekday) && !IsSouth(s.latitude) && !IsRobberyOrAssault(s.crimeType)
  }

  predicate AtMostOneFlag(s: Sample) { !TwoFlags(s) }

  /** A decision table for level 2 that does not add anything up. */
  predicate HighRisk(s: Sample) {
    (IsNight(s.hour) && TwoFlags(s)) || (IsShoulder(s.hour) && AllFlags(s))
  }

  /** A decision table for level 0 that does not add anything up. */
  predicate LowRisk(s: Sample) {
    (IsDaytime(s.hour) && AtMostOneFlag(s)) || (IsShoulder(s.hour) && NoFlag(s))
  }

  /** The three hour bands cover every hour, with no overlap, and earn 2, 1 and 0. */
  lemma HourBands(hour: int)
    ensures HourPoints(hour) == 2 <==> hour <= 6 || hour >= 20
    ensures HourPoints(hour) == 1 <==> hour == 7 || hour == 8 || hour == 18 || hour == 19
    ensures HourPoints(hour) == 0 <==> 9 <= hour <= 17
    ensures IsNight(hour) || IsShoulder(hour) || IsDaytime(hour)
  {
  }

  /** Both directions of each threshold. */
  lemma LevelThresholds(score: int)
    ensures Level(score) == 2 <==> score >= 4
    ensures Level(score) == 1 <==> 2 <= score <= 3
    ensures Level(score) == 0 <==> score < 2
  {
  }

  lemma LevelMonotone(a: int, b: int)
    requires a <= b
    ensures Level(a) <= Level(b)
  {
  }

  /** Each one-point condition adds exactly one point to the score, whatever
      the others are: the sample with the condition switched on scores one more
      than the same sample with it switched off. */
  lemma WeekendAddsOne(s: Sample, weekend: int, weekday: int)
    requires IsWeekend(weekend) && !IsWeekend(weekday)
    ensures Score(s.(weekday := weekend)) == Score(s.(weekday := weekday)) + 1
  {
  }

  lemma SouthAddsOne(s: Sample, south: real, north: real)
    requires IsSouth(south) && !IsSouth(north)
    ensures Score(s.(latitude := south)) == Score(s.(latitude := north)) + 1
  {
  }

  lemma RobberyOrAssaultAddsOne(s: Sample, violent: int, other: int)
    requires IsRobberyOrAssault(violent) && !IsRobberyOrAssault(other)
    ensures Score(s.(crimeType := violent)) == Score(s.(crimeType := other)) + 1
  {
  }

  /** Longitude and month play no part in the rule. */
  lemma IgnoresLongitudeAndMonth(s: Sample, longitude: real, month: int)
    ensures RiskLevel(s.(longitude := longitude, month := month)) == RiskLevel(s)
  {
  }

  /** A daytime hour (9-17) never gives level 2: the other conditions add at most 3. */
  lemma DaytimeNeverHigh(s: Sample)
    requires IsDaytime(s.hour)
    ensures RiskLevel(s) <= 1
  {
  }

  /** Moving the hour to a band that earns at least as much, or switching any
      condition on, never lowers the level. */
  lemma LevelMonotoneInConditions(s: Sample, t: Sample)
    requires HourPoints(s.hour) <= HourPoints(t.hour)
    requires IsWeekend(s.weekday) ==> IsWeekend(t.weekday)
    requires IsSouth(s.latitude) ==> IsSouth(t.latitude)
    requires IsRobberyOrAssault(s.crimeType) ==> IsRobberyOrAssault(t.crimeType)
    ensures Score(s) <= Score(t)
    ensures RiskLevel(s) <= RiskLevel(t)
  {
  }

  /** Moving a sample further south never lowers its level. */
  lemma LevelMonotoneSouthward(s: Sample, latitude: real)
    requires latitude <= s.latitude
    ensures RiskLevel(s) <= RiskLevel(s.(latitude := latitude))
  {
    LevelMonotoneInConditions(s, s.(latitude := latitude));
  }

  /** The score rule agrees with the decision tables, in both directions. */
  lemma LevelMatchesDecisionTable(s: Sample)
    ensures RiskLevel(s) == 2 <==> HighRisk(s)
    ensures RiskLevel(s) == 0 <==> LowRisk(s)
    ensures RiskLevel(s) == 1 <==> !HighRisk(s) && !LowRisk(s)
  {
  }

  /** Every level is produced by some sample, so the labelled table can hold
      all three classes. */
  lemma EveryLevelReachable(level: int)
    requires 0 <= level <= 2
    ensures exists s :: RiskLevel(s) == level
  {
    if level == 0 {
      var low := Sample(-13.35, -71.95, 12, 0, 1, 4);
      assert HourPoints(low.hour) == 0 && FlagCount(low) == 0;
      assert RiskLevel(low) == 0;
    } else if level == 1 {
      var medium := Sample(-13.35, -71.95, 22, 0, 1, 4);
      assert HourPoints(medium.hour) == 2 && FlagCount(medium) == 0;
      assert RiskLevel(medium) == 1;
    } else {
      var high := Sample(-13.35, -71.95, 22, 6, 1, 0);
      assert HourPoints(high.hour) == 2 && FlagCount(high) == 2;
      assert RiskLevel(high) == 2;
    }
  }

  /** The score bounds 0 and 5 are both attained, so they cannot be tightened. */
  lemma ScoreBoundsTight()
    ensures exists s :: Score(s) == 0
    ensures exists s :: Score(s) == 5
  {
    var low := Sample(-13.35, -71.95, 12, 0, 1, 4);
    assert HourPoints(low.hour) == 0 && FlagCount(low) == 0;
    assert Score(low) == 0;
    var high := Sample(-13.45, -71.95, 2, 6, 1, 0);
    assert IsSouth(high.latitude);
    assert HourPoints(high.hour) == 2 && FlagCount(high) == 3;
    assert Score(high) == 5;
  }
}
