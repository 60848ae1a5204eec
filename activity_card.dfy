/** The display helpers of the activity card
    (client/app/components/ActivityCard.tsx): the activity-name formatter
    and the two score-colour pickers. */
module ActivityCard {
  import opened JsString
  import opened SharedTypes

  /** `a.replace(/_/g, ' ')` */
  function UnderscoresToSpaces(a: string): (r: string)
    ensures |r| == |a|
  {
    seq(|a|, i requires 0 <= i < |a| => if a[i] == '_' then ' ' else a[i])
  }

  /** A `\b\w` match at `i`: a word character at the start or after a
      non-word character. */
  predicate StartsWord(s: string, i: nat)
    requires i < |s|
  {
    IsWordChar(s[i]) && (i == 0 || !IsWordChar(s[i - 1]))
  }

  /** `s.replace(/\b\w/g, (c) => c.toUpperCase())` */
  function CapitalizeWords(s: string): (r: string)
    ensures |r| == |s|
  {
    seq(|s|, i requires 0 <= i < |s| => if StartsWord(s, i) then UpperChar(s[i]) else s[i])
  }

  /** `pretty`: keeps the length, leaves no underscore, and puts a space
      where each underscore was. */
  function Pretty(a: string): (r: string)
    ensures |r| == |a|
    ensures forall i :: 0 <= i < |a| ==> r[i] != '_'
    ensures forall i :: 0 <= i < |a| && a[i] == '_' ==> r[i] == ' '
  {
    CapitalizeWords(Lower(UnderscoresToSpaces(a)))
  }

  /** A letter of the output is upper-case exactly when it starts the
      string or follows a non-word character; otherwise it is lower-case. */
  lemma PrettyCapitalizesWords(a: string, i: nat)
    requires i < |Pretty(a)| && IsAsciiLetter(Pretty(a)[i])
    ensures var p := Pretty(a);
      && (IsAsciiUpper(p[i]) <==> (i == 0 || !IsWordChar(p[i - 1])))
      && (IsAsciiLower(p[i]) <==> (i > 0 && IsWordChar(p[i - 1])))
  {
  }

  /** `pretty` changes nothing but case and underscores. */
  lemma PrettyOnlyRecases(a: string)
    ensures Lower(Pretty(a)) == Lower(UnderscoresToSpaces(a))
  {
  }

  lemma CapitalizeOutdoorSightseeing(s: string)
    requires s == "outdoor sightseeing"
    ensures CapitalizeWords(s) == "Outdoor Sightseeing"
  {
    var r, t := CapitalizeWords(s), "Outdoor Sightseeing";
    forall i | 0 <= i < |s|
      ensures r[i] == t[i]
    {
      if i == 0 || i == 8 {
        assert StartsWord(s, i);
      } else {
        assert !StartsWord(s, i);
      }
    }
  }

  /** The card's heading for the activity OUTDOOR_SIGHTSEEING. */
  lemma PrettyOutdoorSightseeing(a: string)
    requires a == ActivityName(OutdoorSightseeing)
    ensures Pretty(a) == "Outdoor Sightseeing"
  {
    var spaced := UnderscoresToSpaces(a);
    assert forall i :: 0 <= i < |a| ==> spaced[i] == "OUTDOOR SIGHTSEEING"[i];
    var low := Lower(spaced);
    assert forall i :: 0 <= i < |a| ==> low[i] == "outdoor sightseeing"[i];
    assert low == "outdoor sightseeing";
    CapitalizeOutdoorSightseeing(low);
  }

  /** The three colour bands of a score. */
  datatype Band = Green | Yellow | Red

  /** Bands ordered from worst (red) to best (green). */
  function BandRank(b: Band): nat
  {
    match b
    case Red => 0
    case Yellow => 1
    case Green => 2
  }

  /** The band for a score: green from 70, yellow from 40, red below. */
  function BandOf(score: real): Band
  {
    if score >= 70.0 then Green else if score >= 40.0 then Yellow else Red
  }

  function TextClass(b: Band): string
  {
    match b
    case Green => "text-green-600 dark:text-green-400"
    case Yellow => "text-yellow-600 dark:text-yellow-400"
    case Red => "text-red-600 dark:text-red-400"
  }

  function BgClass(b: Band): string
  {
    match b
    case Green => "bg-green-50 dark:bg-green-900/20"
    case Yellow => "bg-yellow-50 dark:bg-yellow-900/20"
    case Red => "bg-red-50 dark:bg-red-900/20"
  }

  /** `getScoreColor`: the text class of the score's band. */
  function ScoreColor(score: real): (c: string)
    ensures c == TextClass(BandOf(score))
  {
    if score >= 70.0 then "text-green-600 dark:text-green-400"
    else if score >= 40.0 then "text-yellow-600 dark:text-yellow-400"
    else "text-red-600 dark:text-red-400"
  }

  /** `getScoreBgColor`: the background class of the same band, so text and
      background of a score always share one colour family. */
  function ScoreBgColor(score: real): (c: string)
    ensures c == BgClass(BandOf(score))
  {
    if score >= 70.0 then "bg-green-50 dark:bg-green-900/20"
    else if score >= 40.0 then "bg-yellow-50 dark:bg-yellow-900/20"
    else "bg-red-50 dark:bg-red-900/20"
  }

  /** The bands partition the scores: each score is in exactly one, green
      for 70 and up, yellow for [40, 70), red below 40. */
  lemma BandThresholds(score: real)
    ensures BandOf(score) == Green <==> score >= 70.0
    ensures BandOf(score) == Yellow <==> 40.0 <= score < 70.0
    ensures BandOf(score) == Red <==> score < 40.0
  {
  }

  /** Raising a score never moves it to a worse band. */
  lemma BandMonotone(s: real, t: real)
    requires s <= t
    ensures BandRank(BandOf(s)) <= BandRank(BandOf(t))
  {
  }
}
