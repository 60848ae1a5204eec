/** The placeholder scorer (packages/shared/src/scoring.ts): every activity
    gets a fixed score, and one fixed day score per date of at most seven. */
module Scoring {
  import opened SharedTypes

  /** The scorer never lists more than this many days. */
  const MaxDays: nat := 7

  const HardcodedReason: string := "hardcoded"

  /** The label `DAY_<n>` for a single-digit day number. */
  function DayLabel(n: nat): (tag: string)
    requires 1 <= n <= 9
    ensures |tag| == 5 && tag[..4] == "DAY_" && tag[4] as int - '0' as int == n
  {
    "DAY_" + [('0' as int + n) as char]
  }

  /** The dates used when no day is given: DAY_1 … DAY_7. */
  function PlaceholderDates(): (dates: seq<string>)
    ensures |dates| == MaxDays
  {
    seq(MaxDays, i requires 0 <= i < MaxDays => DayLabel(i + 1))
  }

  /** The date of every input day, in order. */
  function DatesOf(days: seq<DayWeather>): (dates: seq<string>)
    ensures |dates| == |days|
  {
    seq(|days|, i requires 0 <= i < |days| => days[i].date)
  }

  /** `s.slice(0, 7)`. */
  function Take(s: seq<string>, n: nat): (r: seq<string>)
  {
    if |s| <= n then s else s[..n]
  }

  /** The date axis of the rankings: the first min(n, 7) input dates, or
      the seven placeholders when there is no input day. */
  function RankingDates(days: seq<DayWeather>): (dates: seq<string>)
    ensures 1 <= |dates| <= MaxDays
    ensures |days| == 0 ==> dates == PlaceholderDates()
    ensures |days| > 0 ==> |dates| == (if |days| < MaxDays then |days| else MaxDays)
    ensures |days| > 0 ==> forall i :: 0 <= i < |dates| ==> dates[i] == days[i].date
  {
    Take(if |days| > 0 then DatesOf(days) else PlaceholderDates(), MaxDays)
  }

  /** The inner `stub`: one day score per date, all equal. */
  function Stub(dates: seq<string>, score: int, reason: string): (r: seq<DayScore>)
    ensures |r| == |dates|
  {
    seq(|dates|, i requires 0 <= i < |dates| => DayScore(dates[i], score, reason))
  }

  /** `buildActivityRankings`. */
  function BuildActivityRankings(days: seq<DayWeather>): (r: seq<ActivityRanking>)
    ensures |r| == 4
  {
    var dates := RankingDates(days);
    [ ActivityRanking(Skiing, 30, HardcodedReason, Stub(dates, 25, HardcodedReason)),
      ActivityRanking(Surfing, 55, HardcodedReason, Stub(dates, 50, HardcodedReason)),
      ActivityRanking(OutdoorSightseeing, 70, HardcodedReason, Stub(dates, 70, HardcodedReason)),
      ActivityRanking(IndoorSightseeing, 60, HardcodedReason, Stub(dates, 60, HardcodedReason)) ]
  }

  lemma PlaceholderDatesAreDay1To7()
    ensures PlaceholderDates() == ["DAY_1", "DAY_2", "DAY_3", "DAY_4", "DAY_5", "DAY_6", "DAY_7"]
  {
    var p := PlaceholderDates();
    assert p[0] == "DAY_" + ['1'] == "DAY_1";
    assert p[1] == "DAY_" + ['2'] == "DAY_2";
    assert p[2] == "DAY_" + ['3'] == "DAY_3";
    assert p[3] == "DAY_" + ['4'] == "DAY_4";
    assert p[4] == "DAY_" + ['5'] == "DAY_5";
    assert p[5] == "DAY_" + ['6'] == "DAY_6";
    assert p[6] == "DAY_" + ['7'] == "DAY_7";
  }

  /** The activities of a ranking list, in order. */
  function ActivitiesOf(r: seq<ActivityRanking>): (acts: seq<Activity>)
    ensures |acts| == |r|
  {
    seq(|r|, i requires 0 <= i < |r| => r[i].activity)
  }

  /** Exactly the four activities, each once, in the order SKIING, SURFING,
      OUTDOOR_SIGHTSEEING, INDOOR_SIGHTSEEING. */
  lemma RankingsCoverActivities(days: seq<DayWeather>)
    ensures ActivitiesOf(BuildActivityRankings(days)) == [Skiing, Surfing, OutdoorSightseeing, IndoorSightseeing]
    ensures forall a: Activity :: a in ActivitiesOf(BuildActivityRankings(days))
    ensures forall j, k :: 0 <= j < k < 4 ==>
      ActivitiesOf(BuildActivityRankings(days))[j] != ActivitiesOf(BuildActivityRankings(days))[k]
  {
    var acts := ActivitiesOf(BuildActivityRankings(days));
    assert acts == [Skiing, Surfing, OutdoorSightseeing, IndoorSightseeing];
    forall a: Activity ensures a in acts {
      match a
      case Skiing => assert acts[0] == a;
      case Surfing => assert acts[1] == a;
      case OutdoorSightseeing => assert acts[2] == a;
      case IndoorSightseeing => assert acts[3] == a;
    }
  }

  /** With at least one input day, every ranking lists the first min(n, 7)
      input dates in input order; with none, DAY_1 … DAY_7. */
  lemma RankingDaysFollowInput(days: seq<DayWeather>, k: nat)
    requires k < 4
    ensures var ds := BuildActivityRankings(days)[k].days;
      && (|days| > 0 ==> |ds| == (if |days| < MaxDays then |days| else MaxDays))
      && (|days| > 0 ==> forall i :: 0 <= i < |ds| ==> ds[i].date == days[i].date)
      && (|days| == 0 ==> |ds| == 7 && forall i :: 0 <= i < 7 ==>
            ds[i].date == ["DAY_1", "DAY_2", "DAY_3", "DAY_4", "DAY_5", "DAY_6", "DAY_7"][i])
  {
    PlaceholderDatesAreDay1To7();
  }

  /** All four rankings share one date sequence. */
  lemma RankingsShareDates(days: seq<DayWeather>, j: nat, k: nat)
    requires j < 4 && k < 4
    ensures var dj, dk := BuildActivityRankings(days)[j].days, BuildActivityRankings(days)[k].days;
      |dj| == |dk| && forall i :: 0 <= i < |dj| ==> dj[i].date == dk[i].date
  {
  }

  /** Each activity's own headline score is fixed (SKIING 30, SURFING 55,
      OUTDOOR_SIGHTSEEING 70, INDOOR_SIGHTSEEING 60), with reason "hardcoded". */
  lemma RankingHeadline(days: seq<DayWeather>, k: nat)
    requires k < 4
    ensures var a := BuildActivityRankings(days)[k];
      && a.score == [30, 55, 70, 60][k]
      && a.reason == "hardcoded"
      && 0 <= a.score <= 100
  {
  }

  /** Within one activity every day carries the same score and reason, and
      every day score is in [0, 100]. */
  lemma RankingScoresUniform(days: seq<DayWeather>, k: nat, i: nat)
    requires k < 4
    requires i < |BuildActivityRankings(days)[k].days|
    ensures var a := BuildActivityRankings(days)[k];
      && a.days[i].score == [25, 50, 70, 60][k]
      && a.days[i].reason == "hardcoded"
      && 0 <= a.days[i].score <= 100
  {
  }

  /** The output depends on the input dates only, never on the readings. */
  lemma RankingsDependOnDatesOnly(days1: seq<DayWeather>, days2: seq<DayWeather>)
    requires DatesOf(days1) == DatesOf(days2)
    ensures BuildActivityRankings(days1) == BuildActivityRankings(days2)
  {
  }
}
