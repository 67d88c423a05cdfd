# Survey app: age gate and survey analytics in Dafny

This project models the backend core of a survey application. A survey
response holds personal details, a favourite food and four agreement
ratings (eat out, watch movies, watch TV, listen to the radio). The service
stores a response only when the respondent's age lies between 5 and 120. It
then answers analytics queries over all stored responses:

- the number of responses;
- the mean, oldest and youngest age;
- the share choosing Pizza, Pasta or "Pap and Wors";
- the mean score of each rated activity.

Modules, one per concern of the source:

- `Wrappers`: `Option`, standing for Java's null and for `OptionalInt`.
- `Dates`: valid calendar dates (`Date`, a subset type, as a `LocalDate` always is). It also holds
  `PeriodYears`, the years component of `Period.between`, written after the
  JDK's `LocalDate.until` algorithm: a difference of proleptic months, one month
  subtracted while the day of the month has not been reached, then division by 12
  truncating toward zero. The JDK is not part of this model. `FullYears` is the
  reference definition of an age ("year difference, less one before the
  birthday"), and `PeriodYearsIsFullYears` proves the two agree for every date of
  birth on or before today, including 29 February.
- `Rounding`: `Math.round(x * 10.0) / 10.0` on exact integers. A rounded mean is a
  whole number of tenths, `(20 * total + n) / (2 * n)`. A rounded percentage is a
  whole number of tenths of a percent, `(2000 * count + n) / (2 * n)`.
- `SurveyModel` (SurveyResponse.java): the record, the derived age, the age gate,
  the rating conversion and getters, and the favourite-food constraints as an
  explicit predicate.
- `Service` (SurveyService.java): class `SurveyService`. The repository is reduced
  to its field `store: seq<SurveyResponse>`, and "today" is a parameter. The class
  has these members:
  - `SaveSurvey` changes `store`.
  - `GetAverageAge` and the static `GetAverageOf` are loops, proved against `Sum`.
  - The stream pipelines (`GetOldestAge`, `GetYoungestAge`, `CalculateFoodPercentage`)
    are functions.
  - None of the analytics members has a `modifies` clause, so none can change the
    store. Each one's `ensures` fixes its result as a function of `store` (and
    `today`), so repeated calls with no save in between return the same result.

All fractional results are integers counting tenths: 667 means 66.7.

Rating fields are meant to hold one of the five agreement labels, but the code
only requires a rating to be non-blank. Any other text therefore reaches the
service and scores 0. The model follows the code here.
The model keeps that case: see `ConvertRating` and `UnrecognisedLabelAddsNothing`.

## Model

| member | source | states |
|---|---|---|
| `Dates.PeriodYears` | backend/survey-app/src/main/java/com/example/survey_app/service/SurveyService.java:144 | The years component of Period.between (also used at SurveyResponse.java:63). Its properties are stated by `PeriodYearsIsFullYears`, `PeriodYearsOfFutureDate` and the lemmas below |
| `Dates.WholeYears` | backend/survey-app/src/main/java/com/example/survey_app/service/SurveyService.java:144 | Period.between's division of the month count by 12, truncating toward zero: the remainder lies in [0, 12) for a non-negative count and in (-12, 0] for a negative one |
| `Dates.PeriodYearsIsFullYears` | backend/survey-app/src/main/java/com/example/survey_app/model/SurveyResponse.java:63 | For a date of birth on or before today, the years of Period.between equal the year difference, less one while this year's birthday (month, day) is still to come |
| `Dates.PeriodYearsOfFutureDate` | backend/survey-app/src/main/java/com/example/survey_app/service/SurveyService.java:144 | For a date of birth after today, the Period.between years are never positive |
| `Dates.PeriodYearsCases` | backend/survey-app/src/main/java/com/example/survey_app/service/SurveyService.java:142-145 | The two cases above together: full years when born on or before today, at most 0 when born later |
| `Dates.PeriodYearsMonotone` | backend/survey-app/src/main/java/com/example/survey_app/model/SurveyResponse.java:63 | From the date of birth on, the computed age never decreases as today moves forward |
| `Dates.PeriodYearsWithinYear` | backend/survey-app/src/main/java/com/example/survey_app/model/SurveyResponse.java:63 | Between two days of one year the age grows by exactly one if the birthday is passed, and otherwise stays the same |
| `Dates.PeriodYearsBirthdayStep` | backend/survey-app/src/main/java/com/example/survey_app/model/SurveyResponse.java:63 | For every birthday after the year of birth, 1 January included, the age on the birthday is one more than on the day before |
| `Dates.PeriodYearsOnBirthday` | backend/survey-app/src/main/java/com/example/survey_app/model/SurveyResponse.java:63 | On a birthday the age is exactly the difference of the years |
| `Rounding.RoundTenths` | backend/survey-app/src/main/java/com/example/survey_app/service/SurveyService.java:138 | The result in tenths lies within half a tenth of total / n, and a tie rounds up (half-up rounding to one decimal) |
| `Rounding.PercentTenths` | backend/survey-app/src/main/java/com/example/survey_app/service/SurveyService.java:91 | The result in tenths of a percent lies within half a tenth of 100 * count / n, and a tie rounds up |
| `Rounding.RoundTenthsBetween` | backend/survey-app/src/main/java/com/example/survey_app/service/SurveyService.java:49 | A mean between lo and hi rounds to a value between lo.0 and hi.0 |
| `Rounding.PercentTenthsBounds` | backend/survey-app/src/main/java/com/example/survey_app/service/SurveyService.java:91 | For 0 <= count <= n the percentage lies in [0.0, 100.0]. It is 0.0 when count is 0 and exactly 100.0 when count is n |
| `SurveyModel.GetAge` | backend/survey-app/src/main/java/com/example/survey_app/model/SurveyResponse.java:61-64 | 0 with no date of birth. Full years when born on or before today. At most 0 when born after today |
| `SurveyModel.IsAgeValid` | backend/survey-app/src/main/java/com/example/survey_app/model/SurveyResponse.java:68-71 | True iff there is a date of birth, it is on or before today, and the full years are between 5 and 120. So a record with no date of birth is never valid |
| `SurveyModel.ConvertRating` | backend/survey-app/src/main/java/com/example/survey_app/model/SurveyResponse.java:75-85 | The score is in 0..5, and it is non-zero iff the text is one of the five agreement labels |
| `SurveyModel.ConvertRatingInverse` | backend/survey-app/src/main/java/com/example/survey_app/model/SurveyResponse.java:77-82 | The conversion is the inverse of the label table "Strongly Agree"=1, "Agree"=2, "Neutral"=3, "Disagree"=4, "Strongly Disagree"=5, in both directions |
| `SurveyModel.GetEatOutRating` | backend/survey-app/src/main/java/com/example/survey_app/model/SurveyResponse.java:87-90 | The eat-out score is in 0..5 and is non-zero iff the eatOut label is one of the five agreement labels |
| `SurveyModel.GetMovieRating` | backend/survey-app/src/main/java/com/example/survey_app/model/SurveyResponse.java:92-95 | The same for the watchMovies label |
| `SurveyModel.GetTvRating` | backend/survey-app/src/main/java/com/example/survey_app/model/SurveyResponse.java:97-100 | The same for the watchTV label |
| `SurveyModel.GetRadioRating` | backend/survey-app/src/main/java/com/example/survey_app/model/SurveyResponse.java:102-105 | The same for the listenRadio label |
| `SurveyModel.RatingGettersReadOwnField` | backend/survey-app/src/main/java/com/example/survey_app/model/SurveyResponse.java:87-105 | Each rating getter is ConvertRating of its own field (eatOut, watchMovies, watchTV or listenRadio). Two records that agree on that field get the same score from that getter, whatever their other fields |
| `SurveyModel.NotBlank` | backend/survey-app/src/main/java/com/example/survey_app/model/SurveyResponse.java:40 | @NotBlank: the value is present and has a character above U+0020, the characters trim removes. Its effect on favourite foods is stated by `FavouriteFoodValidIff` |
| `SurveyModel.MatchesFoodPattern` | backend/survey-app/src/main/java/com/example/survey_app/model/SurveyResponse.java:41 | @Pattern: an absent value passes, otherwise the whole string must be one of the four choices. Its effect is stated by `FavouriteFoodValidIff` |
| `SurveyModel.FavouriteFoodValid` | backend/survey-app/src/main/java/com/example/survey_app/model/SurveyResponse.java:40-42 | Both constraints on favouriteFoods. `FavouriteFoodValidIff` proves it accepts exactly the four choices |
| `SurveyModel.FavouriteFoodValidIff` | backend/survey-app/src/main/java/com/example/survey_app/model/SurveyResponse.java:40-42 | @NotBlank together with @Pattern accept a favourite food iff it is present and exactly "Pizza", "Pasta", "Pap and Wors" or "Others" |
| `Service.Ages` | backend/survey-app/src/main/java/com/example/survey_app/service/SurveyService.java:55 | The age of each record, in store order (also used at SurveyService.java:62). `GetOldestAge`, `GetYoungestAge` and `GetAverageAge` state what is computed from it |
| `Service.Ratings` | backend/survey-app/src/main/java/com/example/survey_app/service/SurveyService.java:98-99 | Each record's score for one activity, in store order. `RatingMeanBounds`, `RecognisedRatingsInRange` and `UnrecognisedLabelAddsNothing` state its properties |
| `Service.FoodMatches` | backend/survey-app/src/main/java/com/example/survey_app/service/SurveyService.java:87 | A record matches a food only when its favourite food is present and exactly equal. `CountFood` and `CalculateFoodPercentage` state what follows from it |
| `Wrappers.Option.GetOr` | backend/survey-app/src/main/java/com/example/survey_app/service/SurveyService.java:56 | orElse: the maximum or minimum when there is one, and otherwise the default 0 (also at SurveyService.java:63). `GetOldestAge` and `GetYoungestAge` state the result |
| `Service.CalculateAge` | backend/survey-app/src/main/java/com/example/survey_app/service/SurveyService.java:142-145 | Full years when born on or before today, and at most 0 when born after today |
| `Service.MaxOf` | backend/survey-app/src/main/java/com/example/survey_app/service/SurveyService.java:56 | IntStream.max: empty iff there are no values. Otherwise the result is a value that occurs and bounds all the others from above |
| `Service.MinOf` | backend/survey-app/src/main/java/com/example/survey_app/service/SurveyService.java:63 | IntStream.min: empty iff there are no values. Otherwise the result is a value that occurs and bounds all the others from below |
| `Service.CountFood` | backend/survey-app/src/main/java/com/example/survey_app/service/SurveyService.java:86-88 | Counts exact matches of a present favourite food. It is at most the number of records, equals it iff every record matches, and is 0 iff none does |
| `Service.MeanBetween` | backend/survey-app/src/main/java/com/example/survey_app/service/SurveyService.java:130-139 | The rounded mean of values in [lo, hi] lies in [lo.0, hi.0] |
| `Service.MeanBetweenMinAndMax` | backend/survey-app/src/main/java/com/example/survey_app/service/SurveyService.java:40-64 | For a non-empty list, the minimum <= the rounded mean <= the maximum |
| `Service.RecognisedRatingsInRange` | backend/survey-app/src/main/java/com/example/survey_app/model/SurveyResponse.java:75-105 | When every label of an activity is recognised, each of its ratings is a score from 1 to 5 |
| `Service.UnrecognisedLabelAddsNothing` | backend/survey-app/src/main/java/com/example/survey_app/service/SurveyService.java:130-139 | A record whose label is not recognised adds 0 to that activity's rating total |
| `Service.RatingMeanBounds` | backend/survey-app/src/main/java/com/example/survey_app/service/SurveyService.java:96-139 | A rounded mean rating always lies in [0.0, 5.0]. It lies in [1.0, 5.0] when every label is recognised |
| `Service.SurveyService.constructor` | backend/survey-app/src/main/java/com/example/survey_app/service/SurveyService.java:15-16 | A new service over an empty repository, which satisfies the store invariant |
| `Service.SurveyService.SaveSurvey` | backend/survey-app/src/main/java/com/example/survey_app/service/SurveyService.java:19-24 | Saved iff the age is valid. On rejection it returns the age error message and the store is exactly as before. On success exactly that record is appended and all earlier records are unchanged. Every stored record has a date of birth |
| `Service.SurveyService.GetTotalSurveys` | backend/survey-app/src/main/java/com/example/survey_app/service/SurveyService.java:34-36 | The number of stored records. With SaveSurvey's contract, this grows by one on each accepted save and by nothing on a rejected one |
| `Service.SurveyService.GetAverageAge` | backend/survey-app/src/main/java/com/example/survey_app/service/SurveyService.java:40-50 | 0 on an empty store. Otherwise the mean of the stored records' ages, rounded half-up to tenths, and between 10 x youngest and 10 x oldest |
| `Service.SurveyService.GetOldestAge` | backend/survey-app/src/main/java/com/example/survey_app/service/SurveyService.java:53-57 | 0 on an empty store. Otherwise the age of some stored record, and no stored record is older |
| `Service.SurveyService.GetYoungestAge` | backend/survey-app/src/main/java/com/example/survey_app/service/SurveyService.java:60-64 | 0 on an empty store. Otherwise the age of some stored record, and no stored record is younger |
| `Service.SurveyService.CalculateFoodPercentage` | backend/survey-app/src/main/java/com/example/survey_app/service/SurveyService.java:81-92 | 0 on an empty store. Otherwise the half-up rounded share of records whose favourite food is exactly that food. Always within [0.0, 100.0]. 0.0 when no record matches, and 100.0 when every record matches |
| `Service.SurveyService.GetPizzaPercentage` | backend/survey-app/src/main/java/com/example/survey_app/service/SurveyService.java:66-68 | The food percentage for exactly "Pizza" |
| `Service.SurveyService.GetPastaPercentage` | backend/survey-app/src/main/java/com/example/survey_app/service/SurveyService.java:71-73 | The food percentage for exactly "Pasta" |
| `Service.SurveyService.GetPapAndWorsPercentage` | backend/survey-app/src/main/java/com/example/survey_app/service/SurveyService.java:75-77 | The food percentage for exactly "Pap and Wors" |
| `Service.SurveyService.GetAverageOf` | backend/survey-app/src/main/java/com/example/survey_app/service/SurveyService.java:130-139 | 0 for an empty array. Otherwise the sum of the array's values over their number, rounded half-up to tenths |
| `Service.SurveyService.RatingsArray` | backend/survey-app/src/main/java/com/example/survey_app/service/SurveyService.java:98-99 | The array holds each stored record's rating of the activity, in store order |
| `Service.SurveyService.GetAverageMovieRating` | backend/survey-app/src/main/java/com/example/survey_app/service/SurveyService.java:96-100 | 0 on an empty store. Otherwise the rounded mean movie score. Within [0.0, 5.0], and within [1.0, 5.0] when every movie label is recognised |
| `Service.SurveyService.GetAverageRadioRating` | backend/survey-app/src/main/java/com/example/survey_app/service/SurveyService.java:104-108 | The same for the radio ratings |
| `Service.SurveyService.GetAverageEatOutRating` | backend/survey-app/src/main/java/com/example/survey_app/service/SurveyService.java:113-116 | The same for the eat-out ratings |
| `Service.SurveyService.GetAverageTvRating` | backend/survey-app/src/main/java/com/example/survey_app/service/SurveyService.java:121-125 | The same for the TV ratings |
| `Service.ExampleFoodShares` | backend/survey-app/src/main/java/com/example/survey_app/service/SurveyService.java:81-92 | With favourite foods Pizza, Pasta, Pizza, Pizza is 66.7 percent and Pasta 33.3 percent |
| `Service.ExampleMovieMean` | backend/survey-app/src/main/java/com/example/survey_app/service/SurveyService.java:130-139 | Movie labels "Strongly Agree", "Agree", "Agree" average (1 + 2 + 2) / 3, which rounds to 1.7 |
| `Service.ThreeSubmissionsExample` | backend/survey-app/src/main/java/com/example/survey_app/service/SurveyService.java:19-125 | Three valid submissions go through SaveSurvey. The service's own queries then give 66.7 (Pizza), 33.3 (Pasta) and 1.7 (movies) |

## Left out

- SaveSurvey: an invalid age is an `IllegalArgumentException` in the source. Here it is the returned `Rejected(message)` outcome.
- Floating point: the source computes means and percentages in `double` and rounds with `Math.round`. The model gives the exact half-up result on integers. A `double` can differ from it at an x.x5 boundary that binary floating point cannot represent exactly. That difference is noted here but not proved.
- Integer width: `getAverageOf` sums into a 32-bit `int`, and list sizes are `int`. The model's integers are unbounded, so overflow with more than about 400 million ratings is not modelled. Ages and sizes are also assumed to fit their Java types.
- Years of `Period.between` are converted with `Math.toIntExact`. This overflow is unreachable for real dates and is not modelled.
- The clock: `LocalDate.now()` becomes a `today` parameter of every age-dependent member.
- Null rating labels: a Java `switch` on null throws. The model's labels are never null, because validation rejects blank ratings before the service runs.
- `calculateAge` on a null date of birth throws. The store invariant (`Valid`) shows this cannot happen for stored records, because the age gate rejects a missing date of birth. So `Ages` requires every record to have one.
- The `@Email` constraint: the validator's address grammar is not part of this model.
- The other `@NotBlank`/`@NotNull` constraints, and how the controller collects field errors into a map: this is framework validation wiring. Only the favourite-food constraints are modelled, as `FavouriteFoodValid`.
- Service.SurveyService.constructor: the model starts from an empty repository. Records that a persistent database keeps across a restart are not modelled. Every analytics contract still holds for any store that satisfies `Valid`.
- `getAllSurveys` and the repository: the repository is the `store` field, and `findAll` is reading it. Identity keys (`@GeneratedValue`) belong to the storage engine and are not modelled.
- SurveyController.java (HTTP routing and response wrapping), CorsConfig.java and the browser front end are not part of this model.
