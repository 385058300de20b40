/** The read-only collaborators the AI services consult: the user's profile
    (`UserService.getMyPage`) and the per-day diet and exercise records
    (`DietRecordService.getMyDiets`, `ExerciseService.getMyExerciseRecords`).
    Nutrient amounts, durations and burned calories are integers. */
module Collaborators {
  import opened Wrappers
  import opened Calendar

  datatype Health = Health(
    height: Option<int>, weight: Option<int>, goalWeight: Option<int>,
    activityLevel: Option<string>,
    hasDiabetes: Option<bool>, hasHypertension: Option<bool>, hasHyperlipidemia: Option<bool>,
    otherDisease: Option<string>, goal: Option<string>)

  /** `MyPageResponse`, reduced to the health block the prompts read. */
  datatype Profile = Profile(health: Option<Health>)

  /** `DietFoodDto`: any nutrient may be null. */
  datatype DietFood = DietFood(carbs: Option<int>, protein: Option<int>, fat: Option<int>, calories: Option<int>)

  /** `DietRecordDto`: the food list may be null. */
  datatype DietRecord = DietRecord(items: Option<seq<DietFood>>)

  /** `ExerciseRecordResponse`. */
  datatype ExerciseRecord = ExerciseRecord(durationMinutes: Option<int>, calories: Option<int>)

  /** The stored data of every user; a day without an entry has no records. */
  datatype Records = Records(
    accounts: set<string>,
    profiles: map<string, Profile>,
    diets: map<(string, Date), seq<DietRecord>>,
    exercises: map<(string, Date), seq<ExerciseRecord>>)

  /** `MAX_RECORDS_PER_DAY`: the page size the stats service asks for. */
  const MaxRecordsPerDay: nat := 1000

  /** `getMyDiets(email, date, 0, MAX_RECORDS_PER_DAY)`: the first page of the day's diet records. */
  function MyDiets(r: Records, email: string, date: Date): (ds: seq<DietRecord>)
    ensures |ds| <= MaxRecordsPerDay
  {
    var all := if (email, date) in r.diets then r.diets[(email, date)] else [];
    if |all| <= MaxRecordsPerDay then all else all[..MaxRecordsPerDay]
  }

  /** `getMyExerciseRecords(email, date)`. */
  function MyExercises(r: Records, email: string, date: Date): seq<ExerciseRecord> {
    if (email, date) in r.exercises then r.exercises[(email, date)] else []
  }

  /** `getMyPage(email)`: fails when the account or its profile is missing. */
  function MyPage(r: Records, email: string): (p: Result<Profile, ErrorCode>)
    ensures p.Ok? <==> email in r.accounts && email in r.profiles
    ensures p.Err? ==> p.error in {UserNotFound, ProfileNotFound}
  {
    if email !in r.accounts then Err(UserNotFound)
    else if email !in r.profiles then Err(ProfileNotFound)
    else Ok(r.profiles[email])
  }
}
