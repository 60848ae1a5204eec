/** City-name validation (server/src/lib/validation.ts): a schema that checks
    a minimum and maximum length, a pattern and a refinement, collecting one
    issue per failed check, and on success yields the trimmed name. */
module Validation {
  import opened Wrappers
  import opened JsString

  /** What `validateCityInput` is given: an object whose `city` is a string,
      or anything else. */
  datatype CityInput = CityString(city: string) | NotACityString

  /** One failed check of the schema. */
  datatype Issue = InvalidType | TooShort | TooLong | PatternMismatch | NotACityName
  {
    /** The message the schema attaches to the check (the invalid-type
        message is the schema library's own and is not modelled). */
    function Message(): string
      requires !InvalidType?
    {
      match this
      case TooShort => "City name is required"
      case TooLong => "City name too long"
      case PatternMismatch => "City name must start and end with letters"
      case NotACityName => "City name must contain letters and be a valid city name"
    }
  }

  const MinLength: nat := 1
  const MaxLength: nat := 100

  /** The character class `[a-zA-Z\s\-'.,]`. */
  predicate IsNameChar(c: char)
  {
    IsAsciiLetter(c) || IsSpace(c) || c == '-' || c == '\'' || c == '.' || c == ','
  }

  /** The pattern `^[a-zA-Z][a-zA-Z\s\-'.,]*[a-zA-Z]$|^[a-zA-Z]$`. */
  predicate MatchesCityPattern(s: string)
  {
    || (|s| == 1 && IsAsciiLetter(s[0]))
    || (&& |s| >= 2
        && IsAsciiLetter(s[0])
        && (forall i :: 1 <= i < |s| - 1 ==> IsNameChar(s[i]))
        && IsAsciiLetter(s[|s| - 1]))
  }

  /** `/[a-zA-Z]/.test(t)` */
  predicate ContainsLetter(t: string) { exists i :: 0 <= i < |t| && IsAsciiLetter(t[i]) }

  /** `/^[a-zA-Z\s\-'.,]+$/.test(t)` */
  predicate AllNameChars(t: string) { |t| >= 1 && forall i :: 0 <= i < |t| ==> IsNameChar(t[i]) }

  /** `/^\d+$/.test(t)` */
  predicate AllDigits(t: string) { |t| >= 1 && forall i :: 0 <= i < |t| ==> IsDigit(t[i]) }

  predicate IsPunctuationMark(c: char) { c == '-' || c == '\'' || c == '.' }

  /** `/^[\-'.]+$/.test(t)` */
  predicate AllPunctuation(t: string) { |t| >= 1 && forall i :: 0 <= i < |t| ==> IsPunctuationMark(t[i]) }

  /** The refinement, applied to the trimmed name. */
  predicate PassesRefinement(city: string)
  {
    var t := Trim(city);
    ContainsLetter(t) && AllNameChars(t) && !AllDigits(t) && !AllPunctuation(t)
  }

  /** The issues the schema reports for a string, in the order of its
      checks; there are none exactly when the length is within bounds and
      the pattern matches, since the refinement then passes too. */
  function Issues(city: string): (r: seq<Issue>)
    ensures r == [] <==> MinLength <= |city| <= MaxLength && MatchesCityPattern(city)
  {
    var issues :=
      (if |city| < MinLength then [TooShort] else [])
      + (if |city| > MaxLength then [TooLong] else [])
      + (if MatchesCityPattern(city) then [] else [PatternMismatch])
      + (if PassesRefinement(city) then [] else [NotACityName]);
    assert MatchesCityPattern(city) ==> PassesRefinement(city) by {
      if MatchesCityPattern(city) {
        PatternImpliesRefinement(city);
      }
    }
    assert !(MinLength <= |city| <= MaxLength && MatchesCityPattern(city)) ==> |issues| > 0;
    issues
  }

  /** `validateCityInput`: the trimmed name, or every issue found. */
  function ValidateCityInput(input: CityInput): (r: Result<string, seq<Issue>>)
    ensures r.Success? <==>
      input.CityString? && MinLength <= |input.city| <= MaxLength && MatchesCityPattern(input.city)
    ensures r.Success? ==> r.value == input.city
    ensures r.Failure? ==> r.error != []
  {
    match input
    case NotACityString => Failure([InvalidType])
    case CityString(city) =>
      var issues := Issues(city);
      if issues == [] then
        PatternTrimUnchanged(city);
        Success(Trim(city))
      else
        Failure(issues)
  }

  /** Each check has its own message, so the reported messages name the
      failed checks. */
  lemma MessagesIdentifyIssues(i1: Issue, i2: Issue)
    requires !i1.InvalidType? && !i2.InvalidType?
    ensures i1.Message() == i2.Message() <==> i1 == i2
  {
  }

  /** The pattern, read as "starts and ends with a letter and has only name
      characters", in both directions. */
  lemma PatternMeaning(s: string)
    ensures MatchesCityPattern(s) <==>
      && |s| >= 1
      && IsAsciiLetter(s[0]) && IsAsciiLetter(s[|s| - 1])
      && (forall i :: 0 <= i < |s| ==> IsNameChar(s[i]))
  {
  }

  /** A name that matches the pattern is its own trim. */
  lemma PatternTrimUnchanged(s: string)
    requires MatchesCityPattern(s)
    ensures Trim(s) == s
  {
    TrimUnchanged(s);
  }

  /** The refinement never rejects what the pattern accepts. */
  lemma PatternImpliesRefinement(s: string)
    requires MatchesCityPattern(s)
    ensures PassesRefinement(s)
  {
    PatternTrimUnchanged(s);
    var t := Trim(s);
    assert IsAsciiLetter(t[0]);
    assert ContainsLetter(t);
    assert AllNameChars(t) by {
      PatternMeaning(s);
    }
    assert !IsDigit(t[0]) && !IsPunctuationMark(t[0]);
  }

  /** The empty string and strings over 100 characters (before trimming)
      are rejected with the length issue. */
  lemma LengthBoundsRejected(s: string)
    requires |s| == 0 || |s| > MaxLength
    ensures ValidateCityInput(CityString(s)).Failure?
    ensures |s| == 0 ==> TooShort in ValidateCityInput(CityString(s)).error
    ensures |s| > MaxLength ==> TooLong in ValidateCityInput(CityString(s)).error
  {
  }

  /** What an accepted name looks like: it is returned unchanged, starts and
      ends with a letter and has only letters, white space and `-'.,`. */
  lemma AcceptedShape(input: CityInput)
    requires ValidateCityInput(input).Success?
    ensures var s := ValidateCityInput(input).value;
      && s == input.city
      && 1 <= |s| <= 100
      && IsAsciiLetter(s[0]) && IsAsciiLetter(s[|s| - 1])
      && (forall i :: 0 <= i < |s| ==> IsNameChar(s[i]))
  {
  }

  /** Trimming cannot bring in a letter that was not there. */
  lemma NoLetterAfterTrim(s: string)
    requires forall i :: 0 <= i < |s| ==> !IsAsciiLetter(s[i])
    ensures !ContainsLetter(Trim(s))
  {
  }

  /** The issues of a non-empty string that fails both the pattern and the
      refinement. */
  lemma IssuesOfNonName(s: string)
    requires |s| >= MinLength && !MatchesCityPattern(s) && !PassesRefinement(s)
    ensures Issues(s) == (if |s| > MaxLength then [TooLong] else []) + [PatternMismatch, NotACityName]
  {
  }

  /** All-digit and punctuation-only strings are rejected by both the
      pattern and the refinement. */
  lemma DigitsAndPunctuationRejected(s: string)
    requires AllDigits(s) || AllPunctuation(s)
    ensures !MatchesCityPattern(s) && !PassesRefinement(s)
    ensures Issues(s) == (if |s| > MaxLength then [TooLong] else []) + [PatternMismatch, NotACityName]
    ensures ValidateCityInput(CityString(s)).Failure?
  {
    assert forall i :: 0 <= i < |s| ==> !IsAsciiLetter(s[i]);
    NoLetterAfterTrim(s);
    assert !MatchesCityPattern(s);
    assert !PassesRefinement(s);
    IssuesOfNonName(s);
  }

  lemma EmptyIssues(s: string)
    requires s == ""
    ensures Issues(s) == [TooShort, PatternMismatch, NotACityName]
  {
  }

  lemma DigitsIssues(s: string)
    requires s == "12345"
    ensures Issues(s) == [PatternMismatch, NotACityName]
  {
    assert forall i :: 0 <= i < |s| ==> IsDigit(s[i]);
    DigitsAndPunctuationRejected(s);
  }

  lemma PunctuationIssues(s: string)
    requires s == "-----"
    ensures Issues(s) == [PatternMismatch, NotACityName]
  {
    assert forall i :: 0 <= i < |s| ==> IsPunctuationMark(s[i]);
    DigitsAndPunctuationRejected(s);
  }

  /** Names within the length bounds that match the pattern are accepted
      unchanged. */
  lemma Accepted(s: string)
    requires MinLength <= |s| <= MaxLength && MatchesCityPattern(s)
    ensures ValidateCityInput(CityString(s)) == Success(s)
  {
  }

  lemma ExamplesMatch(a: string, b: string, c: string)
    requires a == "New York" && b == "O'Fallon" && c == "St. Louis"
    ensures MatchesCityPattern(a) && MatchesCityPattern(b) && MatchesCityPattern(c)
  {
    assert forall i :: 0 <= i < |a| ==> IsNameChar(a[i]);
    assert forall i :: 0 <= i < |b| ==> IsNameChar(b[i]);
    assert forall i :: 0 <= i < |c| ==> IsNameChar(c[i]);
  }

  lemma ExamplesAccepted(a: string, b: string, c: string)
    requires a == "New York" && b == "O'Fallon" && c == "St. Louis"
    ensures ValidateCityInput(CityString(a)) == Success(a)
    ensures ValidateCityInput(CityString(b)) == Success(b)
    ensures ValidateCityInput(CityString(c)) == Success(c)
  {
    ExamplesMatch(a, b, c);
    Accepted(a);
    Accepted(b);
    Accepted(c);
  }
}
