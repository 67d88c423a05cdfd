/**
 * SurveyService.java: the age-gated save and the analytics, each a single
 * pass over every stored record. The repository is the `store` field of
 * SurveyService; "today" is a parameter instead of a clock read.
 * Fractional results are integers counting tenths.
 */
module Service {
  import opened Wrappers
  import opened Dates
  import opened Rounding
  import opened SurveyModel

  const AgeErrorMessage: string :=
    "Only users aged between 5 and 120 are allowed to complete the survey."

  /** What saveSurvey does: return normally, or throw IllegalArgumentException. */
  datatype SaveOutcome = Saved | Rejected(message: string)

  /** The four rated activities, one per rating getter. */
  datatype Activity = EatOut | Movies | Tv | Radio

  /** calculateAge: the years of Period.between(dob, today). */
  function CalculateAge(dob: Date, today: Date): (age: int)
    ensures OnOrBefore(dob, today) ==> age == FullYears(dob, today)
    ensures Before(today, dob) ==> age <= 0
  {
    PeriodYearsCases(dob, today);
    PeriodYears(dob, today)
  }

  predicate AllHaveBirthDates(records: seq<SurveyResponse>) {
    forall i :: 0 <= i < |records| ==> records[i].dateOfBirth.Some?
  }

  /** The age of each record on `today`, in store order. */
  function Ages(records: seq<SurveyResponse>, today: Date): seq<int>
    requires AllHaveBirthDates(records)
  {
    seq(|records|, i requires 0 <= i < |records| => CalculateAge(records[i].dateOfBirth.value, today))
  }

  /** The label a record gives to an activity. */
  function Label(r: SurveyResponse, activity: Activity): string {
    match activity
    case EatOut => r.eatOut
    case Movies => r.watchMovies
    case Tv => r.watchTV
    case Radio => r.listenRadio
  }

  /** The rating getter of an activity. */
  function RatingOf(r: SurveyResponse, activity: Activity): int {
    match activity
    case EatOut => GetEatOutRating(r)
    case Movies => GetMovieRating(r)
    case Tv => GetTvRating(r)
    case Radio => GetRadioRating(r)
  }

  /** Each record's score for one activity, in store order. */
  function Ratings(records: seq<SurveyResponse>, activity: Activity): seq<int> {
    seq(|records|, i requires 0 <= i < |records| => RatingOf(records[i], activity))
  }

  predicate AllLabelsRecognised(records: seq<SurveyResponse>, activity: Activity) {
    forall i :: 0 <= i < |records| ==> Label(records[i], activity) in RatingLabels
  }

  function Sum(xs: seq<int>): int {
    if xs == [] then 0 else Sum(xs[..|xs| - 1]) + xs[|xs| - 1]
  }

  /** IntStream.max: empty exactly for no values, otherwise an upper bound that occurs. */
  function MaxOf(xs: seq<int>): (m: Option<int>)
    ensures m.None? <==> xs == []
    ensures m.Some? ==> m.value in xs && forall i :: 0 <= i < |xs| ==> xs[i] <= m.value
  {
    if xs == [] then None
    else
      var rest := MaxOf(xs[1..]);
      if rest.None? || xs[0] >= rest.value then Some(xs[0]) else rest
  }

  /** IntStream.min: empty exactly for no values, otherwise a lower bound that occurs. */
  function MinOf(xs: seq<int>): (m: Option<int>)
    ensures m.None? <==> xs == []
    ensures m.Some? ==> m.value in xs && forall i :: 0 <= i < |xs| ==> m.value <= xs[i]
  {
    if xs == [] then None
    else
      var rest := MinOf(xs[1..]);
      if rest.None? || xs[0] <= rest.value then Some(xs[0]) else rest
  }

  /** The filter of calculateFoodPercentage: a null favourite food never matches. */
  predicate FoodMatches(r: SurveyResponse, food: string) {
    r.favouriteFoods.Some? && r.favouriteFoods.value == food
  }

  /** How many records name `food` as their favourite. */
  function CountFood(records: seq<SurveyResponse>, food: string): (count: nat)
    ensures count <= |records|
    ensures count == |records| <==> forall i :: 0 <= i < |records| ==> FoodMatches(records[i], food)
    ensures count == 0 <==> forall i :: 0 <= i < |records| ==> !FoodMatches(records[i], food)
  {
    if records == [] then 0
    else
      var last := records[|records| - 1];
      var prefix := records[..|records| - 1];
      var count := CountFood(prefix, food) + (if FoodMatches(last, food) then 1 else 0);
      assert forall i :: 0 <= i < |prefix| ==> records[i] == prefix[i];
      count
  }

  /** Values between lo and hi sum to between lo and hi times their number. */
  lemma {:induction false} SumBetween(xs: seq<int>, lo: int, hi: int)
    requires forall i :: 0 <= i < |xs| ==> lo <= xs[i] <= hi
    ensures lo * |xs| <= Sum(xs) <= hi * |xs|
  {
    if xs != [] {
      var prefix := xs[..|xs| - 1];
      SumBetween(prefix, lo, hi);
      assert Sum(xs) == Sum(prefix) + xs[|xs| - 1];
      assert lo * |xs| == lo * |prefix| + lo && hi * |xs| == hi * |prefix| + hi;
    }
  }

  /** The rounded mean of values in [lo, hi] lies in [lo.0, hi.0]. */
  lemma MeanBetween(xs: seq<int>, lo: int, hi: int)
    requires xs != [] && forall i :: 0 <= i < |xs| ==> lo <= xs[i] <= hi
    ensures 10 * lo <= RoundTenths(Sum(xs), |xs|) <= 10 * hi
  {
    SumBetween(xs, lo, hi);
    RoundTenthsBetween(Sum(xs), |xs|, lo, hi);
  }

  /** youngest <= rounded mean <= oldest. */
  lemma MeanBetweenMinAndMax(xs: seq<int>)
    requires xs != []
    ensures 10 * MinOf(xs).value <= RoundTenths(Sum(xs), |xs|) <= 10 * MaxOf(xs).value
  {
    MeanBetween(xs, MinOf(xs).value, MaxOf(xs).value);
  }

  /** With every label recognised, each rating is a score from 1 to 5. */
  lemma RecognisedRatingsInRange(records: seq<SurveyResponse>, activity: Activity)
    requires AllLabelsRecognised(records, activity)
    ensures forall i :: 0 <= i < |records| ==> 1 <= Ratings(records, activity)[i] <= 5
  {
    forall i | 0 <= i < |records|
      ensures 1 <= Ratings(records, activity)[i] <= 5
    {
      assert Label(records[i], activity) in RatingLabels;
    }
  }

  /** A record with an unrecognised label adds nothing to the rating total. */
  lemma UnrecognisedLabelAddsNothing(records: seq<SurveyResponse>, r: SurveyResponse, activity: Activity)
    requires Label(r, activity) !in RatingLabels
    ensures Sum(Ratings(records + [r], activity)) == Sum(Ratings(records, activity))
  {
    var extended := Ratings(records + [r], activity);
    assert extended[..|extended| - 1] == Ratings(records, activity);
    assert extended[|extended| - 1] == 0;
  }

  /**
   * The rounded mean rating of an activity lies in [0.0, 5.0], and in
   * [1.0, 5.0] when every label is recognised.
   */
  lemma RatingMeanBounds(records: seq<SurveyResponse>, activity: Activity)
    requires records != []
    ensures 0 <= RoundTenths(Sum(Ratings(records, activity)), |records|) <= 50
    ensures AllLabelsRecognised(records, activity) ==>
              10 <= RoundTenths(Sum(Ratings(records, activity)), |records|) <= 50
  {
    var ratings := Ratings(records, activity);
    MeanBetween(ratings, 0, 5);
    if AllLabelsRecognised(records, activity) {
      RecognisedRatingsInRange(records, activity);
      MeanBetween(ratings, 1, 5);
    }
  }

  class SurveyService {
    /** The repository's records in insertion order. */
    var store: seq<SurveyResponse>

    /** Only records that passed the age gate are stored, so each has a date of birth. */
    ghost predicate Valid()
      reads this
    {
      AllHaveBirthDates(store)
    }

    constructor ()
      ensures Valid() && store == []
    {
      store := [];
    }

    /**
     * saveSurvey: a record outside the age range is rejected with the age
     * error and the store is left as it was; otherwise exactly that record
     * is appended after all the earlier ones.
     */
    method SaveSurvey(survey: SurveyResponse, today: Date) returns (outcome: SaveOutcome)
      requires Valid()
      modifies this
      ensures Valid()
      ensures outcome == Saved <==> IsAgeValid(survey, today)
      ensures outcome != Saved ==> outcome == Rejected(AgeErrorMessage) && store == old(store)
      ensures outcome == Saved ==> store == old(store) + [survey]
    {
      if !IsAgeValid(survey, today) {
        return Rejected(AgeErrorMessage);
      }
      store := store + [survey];
      outcome := Saved;
    }

    /** getTotalSurveys: the number of stored records. */
    function GetTotalSurveys(): (total: nat)
      reads this
      ensures total == |store|
    {
      |store|
    }

    /**
     * getAverageAge: 0 for an empty store, otherwise the mean age rounded
     * half-up to one decimal, and never outside [youngest, oldest].
     */
    method GetAverageAge(today: Date) returns (tenths: int)
      requires Valid()
      ensures store == [] ==> tenths == 0
      ensures store != [] ==> tenths == RoundTenths(Sum(Ages(store, today)), |store|)
      ensures store != [] ==> 10 * GetYoungestAge(today) <= tenths <= 10 * GetOldestAge(today)
    {
      if |store| == 0 {
        return 0;
      }
      var totalAge := 0;
      ghost var ages := Ages(store, today);
      for i := 0 to |store|
        invariant totalAge == Sum(ages[..i])
      {
        assert ages[..i + 1][..i] == ages[..i];
        totalAge := totalAge + CalculateAge(store[i].dateOfBirth.value, today);
      }
      assert ages[..|store|] == ages;
      tenths := RoundTenths(totalAge, |store|);
      MeanBetweenMinAndMax(ages);
    }

    /** getOldestAge: 0 for an empty store, otherwise the largest age of a stored record. */
    function GetOldestAge(today: Date): (age: int)
      reads this
      requires Valid()
      ensures store == [] ==> age == 0
      ensures store != [] ==>
                (exists i :: 0 <= i < |store| && age == CalculateAge(store[i].dateOfBirth.value, today)) &&
                forall i :: 0 <= i < |store| ==> CalculateAge(store[i].dateOfBirth.value, today) <= age
    {
      var ages := Ages(store, today);
      var m := MaxOf(ages);
      assert forall i :: 0 <= i < |store| ==> ages[i] == CalculateAge(store[i].dateOfBirth.value, today);
      assert m.Some? ==> exists i :: 0 <= i < |ages| && m.value == ages[i];
      m.GetOr(0)
    }

    /** getYoungestAge: 0 for an empty store, otherwise the smallest age of a stored record. */
    function GetYoungestAge(today: Date): (age: int)
      reads this
      requires Valid()
      ensures store == [] ==> age == 0
      ensures store != [] ==>
                (exists i :: 0 <= i < |store| && age == CalculateAge(store[i].dateOfBirth.value, today)) &&
                forall i :: 0 <= i < |store| ==> age <= CalculateAge(store[i].dateOfBirth.value, today)
    {
      var ages := Ages(store, today);
      var m := MinOf(ages);
      assert forall i :: 0 <= i < |store| ==> ages[i] == CalculateAge(store[i].dateOfBirth.value, today);
      assert m.Some? ==> exists i :: 0 <= i < |ages| && m.value == ages[i];
      m.GetOr(0)
    }

    /**
     * calculateFoodPercentage: 0 for an empty store, otherwise the share of
     * records whose favourite food is exactly `food`, in tenths of a percent
     * rounded half-up; always within [0.0, 100.0], 100.0 when every record
     * matches and 0.0 when none does.
     */
    function CalculateFoodPercentage(food: string): (tenths: int)
      reads this
      ensures store == [] ==> tenths == 0
      ensures store != [] ==> tenths == PercentTenths(CountFood(store, food), |store|)
      ensures 0 <= tenths <= 1000
      ensures (forall i :: 0 <= i < |store| ==> !FoodMatches(store[i], food)) ==> tenths == 0
      ensures store != [] && (forall i :: 0 <= i < |store| ==> FoodMatches(store[i], food)) ==> tenths == 1000
    {
      if |store| == 0 then 0
      else
        PercentTenthsBounds(CountFood(store, food), |store|);
        PercentTenths(CountFood(store, food), |store|)
    }

    function GetPizzaPercentage(): (tenths: int)
      reads this
      ensures tenths == CalculateFoodPercentage("Pizza")
    {
      CalculateFoodPercentage("Pizza")
    }

    function GetPastaPercentage(): (tenths: int)
      reads this
      ensures tenths == CalculateFoodPercentage("Pasta")
    {
      CalculateFoodPercentage("Pasta")
    }

    function GetPapAndWorsPercentage(): (tenths: int)
      reads this
      ensures tenths == CalculateFoodPercentage("Pap and Wors")
    {
      CalculateFoodPercentage("Pap and Wors")
    }

    /** getAverageOf: 0 for no values, otherwise their mean rounded half-up to one decimal. */
    static method GetAverageOf(values: array<int>) returns (tenths: int)
      ensures values.Length == 0 ==> tenths == 0
      ensures values.Length > 0 ==> tenths == RoundTenths(Sum(values[..]), values.Length)
    {
      if values.Length == 0 {
        return 0;
      }
      var total := 0;
      for i := 0 to values.Length
        invariant total == Sum(values[..i])
      {
        assert values[..i + 1][..i] == values[..i];
        total := total + values[i];
      }
      assert values[..values.Length] == values[..];
      tenths := RoundTenths(total, values.Length);
    }

    /**
     * getAverageMovieRating: 0 for an empty store, otherwise the mean movie score rounded
     * half-up to one decimal; within [0.0, 5.0], and within [1.0, 5.0]
     * when every label is recognised.
     */
    method GetAverageMovieRating() returns (tenths: int)
      ensures store == [] ==> tenths == 0
      ensures store != [] ==> tenths == RoundTenths(Sum(Ratings(store, Movies)), |store|)
      ensures 0 <= tenths <= 50
      ensures store != [] && AllLabelsRecognised(store, Movies) ==> 10 <= tenths <= 50
    {
      var values := RatingsArray(store, Movies);
      tenths := GetAverageOf(values);
      if store != [] {
        RatingMeanBounds(store, Movies);
      }
    }

    /**
     * getAverageRadioRating: 0 for an empty store, otherwise the mean radio score rounded
     * half-up to one decimal; within [0.0, 5.0], and within [1.0, 5.0]
     * when every label is recognised.
     */
    method GetAverageRadioRating() returns (tenths: int)
      ensures store == [] ==> tenths == 0
      ensures store != [] ==> tenths == RoundTenths(Sum(Ratings(store, Radio)), |store|)
      ensures 0 <= tenths <= 50
      ensures store != [] && AllLabelsRecognised(store, Radio) ==> 10 <= tenths <= 50
    {
      var values := RatingsArray(store, Radio);
      tenths := GetAverageOf(values);
      if store != [] {
        RatingMeanBounds(store, Radio);
      }
    }

    /**
     * getAverageEatOutRating: 0 for an empty store, otherwise the mean eat-out score rounded
     * half-up to one decimal; within [0.0, 5.0], and within [1.0, 5.0]
     * when every label is recognised.
     */
    method GetAverageEatOutRating() returns (tenths: int)
      ensures store == [] ==> tenths == 0
      ensures store != [] ==> tenths == RoundTenths(Sum(Ratings(store, EatOut)), |store|)
      ensures 0 <= tenths <= 50
      ensures store != [] && AllLabelsRecognised(store, EatOut) ==> 10 <= tenths <= 50
    {
      var values := RatingsArray(store, EatOut);
      tenths := GetAverageOf(values);
      if store != [] {
        RatingMeanBounds(store, EatOut);
      }
    }

    /**
     * getAverageTvRating: 0 for an empty store, otherwise the mean TV score rounded
     * half-up to one decimal; within [0.0, 5.0], and within [1.0, 5.0]
     * when every label is recognised.
     */
    method GetAverageTvRating() returns (tenths: int)
      ensures store == [] ==> tenths == 0
      ensures store != [] ==> tenths == RoundTenths(Sum(Ratings(store, Tv)), |store|)
      ensures 0 <= tenths <= 50
      ensures store != [] && AllLabelsRecognised(store, Tv) ==> 10 <= tenths <= 50
    {
      var values := RatingsArray(store, Tv);
      tenths := GetAverageOf(values);
      if store != [] {
        RatingMeanBounds(store, Tv);
      }
    }

    /** The ratings of one activity in an array, as `toArray()` makes it. */
    static method RatingsArray(records: seq<SurveyResponse>, activity: Activity) returns (values: array<int>)
      ensures values[..] == Ratings(records, activity)
    {
      var ratings := Ratings(records, activity);
      values := new int[|ratings|](i requires 0 <= i < |ratings| => ratings[i]);
    }
  }

  /** Favourite foods Pizza, Pasta, Pizza give 66.7 and 33.3 percent. */
  lemma ExampleFoodShares(first: SurveyResponse, second: SurveyResponse, third: SurveyResponse)
    requires first.favouriteFoods == Some("Pizza") && second.favouriteFoods == Some("Pasta")
    requires third.favouriteFoods == Some("Pizza")
    ensures PercentTenths(CountFood([first, second, third], "Pizza"), 3) == 667
    ensures PercentTenths(CountFood([first, second, third], "Pasta"), 3) == 333
  {
    var records := [first, second, third];
    assert records[..2] == [first, second] && [first, second][..1] == [first];
    assert CountFood(records, "Pizza") == 2;
    assert CountFood(records, "Pasta") == 1;
  }

  /** Movie labels "Strongly Agree", "Agree", "Agree" average (1 + 2 + 2) / 3 = 1.7. */
  lemma ExampleMovieMean(first: SurveyResponse, second: SurveyResponse, third: SurveyResponse)
    requires first.watchMovies == "Strongly Agree"
    requires second.watchMovies == "Agree" && third.watchMovies == "Agree"
    ensures RoundTenths(Sum(Ratings([first, second, third], Movies)), 3) == 17
  {
    var ratings := Ratings([first, second, third], Movies);
    assert ratings == [1, 2, 2];
    assert ratings[..2] == [1, 2] && [1, 2][..1] == [1];
    assert Sum([1]) == 1;
    assert Sum(ratings) == 5;
  }

  /**
   * Three accepted submissions, favourite foods Pizza, Pasta, Pizza and movie
   * labels "Strongly Agree", "Agree", "Agree": Pizza is 66.7 percent, Pasta
   * 33.3 percent and the movie rating averages 1.7.
   */
  method ThreeSubmissionsExample() returns (pizza: int, pasta: int, movie: int)
    ensures pizza == 667 && pasta == 333 && movie == 17
  {
    var today: Date := CalendarDate(2024, 6, 1);
    var dob: Date := CalendarDate(2000, 2, 29);
    var first := SurveyResponse("Ann", "ann@example.com", Some(dob), "0110000000",
                                Some("Pizza"), "Agree", "Strongly Agree", "Neutral", "Neutral");
    var second := first.(favouriteFoods := Some("Pasta"), watchMovies := "Agree");
    var third := first.(watchMovies := "Agree");
    assert IsAgeValid(first, today) && IsAgeValid(second, today) && IsAgeValid(third, today);
    var service := new SurveyService();
    var outcome := service.SaveSurvey(first, today);
    outcome := service.SaveSurvey(second, today);
    outcome := service.SaveSurvey(third, today);
    assert service.store == [first, second, third];
    ExampleFoodShares(first, second, third);
    ExampleMovieMean(first, second, third);
    pizza := service.GetPizzaPercentage();
    pasta := service.GetPastaPercentage();
    movie := service.GetAverageMovieRating();
  }
}
