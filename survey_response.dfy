/**
 * The survey record (SurveyResponse.java): its fields, the age it derives
 * from the date of birth, the age gate, the rating conversion and the
 * favourite-food constraints.
 */
module SurveyModel {
  import opened Wrappers
  import opened Dates

  /**
   * One survey response. `dateOfBirth` and `favouriteFoods` may be null in
   * the source and are Options here; the rating labels are never null
   * (their @NotBlank constraints hold before the service sees a record).
   * The identity key is assigned by the store and is not modelled.
   */
  datatype SurveyResponse = SurveyResponse(
    fullName: string,
    email: string,
    dateOfBirth: Option<Date>,
    contactNumber: string,
    favouriteFoods: Option<string>,
    eatOut: string,
    watchMovies: string,
    watchTV: string,
    listenRadio: string)

  /** The agreement labels, listed so that text k - 1 has score k. */
  const RatingLabels: seq<string> :=
    ["Strongly Agree", "Agree", "Neutral", "Disagree", "Strongly Disagree"]

  /** The favourite foods the @Pattern constraint admits. */
  const FoodChoices: seq<string> := ["Pizza", "Pasta", "Pap and Wors", "Others"]

  /** Age in whole years on `today`; 0 when no date of birth is given. */
  function GetAge(r: SurveyResponse, today: Date): (age: int)
    ensures r.dateOfBirth.None? ==> age == 0
    ensures r.dateOfBirth.Some? && OnOrBefore(r.dateOfBirth.value, today) ==>
              age == FullYears(r.dateOfBirth.value, today)
    ensures r.dateOfBirth.Some? && Before(today, r.dateOfBirth.value) ==> age <= 0
  {
    match r.dateOfBirth
    case None => 0
    case Some(dob) =>
      PeriodYearsCases(dob, today);
      PeriodYears(dob, today)
  }

  /**
   * The age gate: an age of 5 to 120 full years. A response without a date
   * of birth, or born after today, never passes.
   */
  function IsAgeValid(r: SurveyResponse, today: Date): (valid: bool)
    ensures valid <==>
              r.dateOfBirth.Some? && OnOrBefore(r.dateOfBirth.value, today) &&
              5 <= FullYears(r.dateOfBirth.value, today) <= 120
  {
    var age := GetAge(r, today);
    age >= 5 && age <= 120
  }

  /** Score of an agreement text; any other text scores 0. */
  function ConvertRating(rating: string): (score: int)
    ensures 0 <= score <= 5
    ensures score != 0 <==> rating in RatingLabels
  {
    match rating
    case "Strongly Disagree" => 5
    case "Disagree" => 4
    case "Neutral" => 3
    case "Agree" => 2
    case "Strongly Agree" => 1
    case _ => 0
  }

  /** ConvertRating and RatingLabels are inverse tables. */
  lemma ConvertRatingInverse()
    ensures forall i :: 0 <= i < |RatingLabels| ==> ConvertRating(RatingLabels[i]) == i + 1
    ensures forall text :: text in RatingLabels ==> RatingLabels[ConvertRating(text) - 1] == text
  {
    assert ConvertRating(RatingLabels[0]) == 1;
    assert ConvertRating(RatingLabels[1]) == 2;
    assert ConvertRating(RatingLabels[2]) == 3;
    assert ConvertRating(RatingLabels[3]) == 4;
    assert ConvertRating(RatingLabels[4]) == 5;
  }

  /** The score for eating out: 1 to 5 for an agreement label, 0 otherwise. */
  function GetEatOutRating(r: SurveyResponse): (score: int)
    ensures 0 <= score <= 5
    ensures score != 0 <==> r.eatOut in RatingLabels
  {
    ConvertRating(r.eatOut)
  }

  /** The score for watching movies: 1 to 5 for an agreement label, 0 otherwise. */
  function GetMovieRating(r: SurveyResponse): (score: int)
    ensures 0 <= score <= 5
    ensures score != 0 <==> r.watchMovies in RatingLabels
  {
    ConvertRating(r.watchMovies)
  }

  /** The score for watching TV: 1 to 5 for an agreement label, 0 otherwise. */
  function GetTvRating(r: SurveyResponse): (score: int)
    ensures 0 <= score <= 5
    ensures score != 0 <==> r.watchTV in RatingLabels
  {
    ConvertRating(r.watchTV)
  }

  /** The score for listening to the radio: 1 to 5 for an agreement label, 0 otherwise. */
  function GetRadioRating(r: SurveyResponse): (score: int)
    ensures 0 <= score <= 5
    ensures score != 0 <==> r.listenRadio in RatingLabels
  {
    ConvertRating(r.listenRadio)
  }

  /**
   * Each rating getter converts its own field and no other: two responses
   * that agree on that one field get the same score from it.
   */
  lemma RatingGettersReadOwnField(r1: SurveyResponse, r2: SurveyResponse)
    ensures GetEatOutRating(r1) == ConvertRating(r1.eatOut)
    ensures GetMovieRating(r1) == ConvertRating(r1.watchMovies)
    ensures GetTvRating(r1) == ConvertRating(r1.watchTV)
    ensures GetRadioRating(r1) == ConvertRating(r1.listenRadio)
    ensures r1.eatOut == r2.eatOut ==> GetEatOutRating(r1) == GetEatOutRating(r2)
    ensures r1.watchMovies == r2.watchMovies ==> GetMovieRating(r1) == GetMovieRating(r2)
    ensures r1.watchTV == r2.watchTV ==> GetTvRating(r1) == GetTvRating(r2)
    ensures r1.listenRadio == r2.listenRadio ==> GetRadioRating(r1) == GetRadioRating(r2)
  {
  }

  /**
   * @NotBlank: present and not only characters up to U+0020, which is
   * what String.trim removes.
   */
  predicate NotBlank(s: Option<string>) {
    s.Some? && exists i :: 0 <= i < |s.value| && s.value[i] > ' '
  }

  /**
   * The favourite-food pattern: a missing value passes, otherwise the whole
   * string must equal one of the four choices.
   */
  predicate MatchesFoodPattern(s: Option<string>) {
    s.None? || s.value in FoodChoices
  }

  /** Both constraints on favouriteFoods. */
  predicate FavouriteFoodValid(s: Option<string>) {
    NotBlank(s) && MatchesFoodPattern(s)
  }

  /** A favourite food is accepted exactly when it is one of the four choices. */
  lemma FavouriteFoodValidIff(s: Option<string>)
    ensures FavouriteFoodValid(s) <==> s.Some? && s.value in FoodChoices
  {
    if s.Some? && s.value in FoodChoices {
      assert s.value[0] > ' ';
    }
  }
}
