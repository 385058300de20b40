/** `AiExerciseReviewService`: one stored exercise review per user and
    evaluation date, generated on the first request and fetched afterwards. */
module ExerciseReview {
  import opened Wrappers
  import opened Text
  import opened Json
  import opened Calendar
  import opened Collaborators
  import opened WeeklyStats
  import opened Prompts
  import opened Gemini
  import opened ReviewParsing

  /** The `ai_exercise_review` row. */
  datatype AiExerciseReview = AiExerciseReview(
    email: string, weekStartDate: Date, evaluationDate: Date,
    summary: string, recommendation: Option<string>, createdAt: Timestamp)

  /** `ExerciseReviewResponse`; every field but the two dates may be null. */
  datatype ExerciseReviewResponse = ExerciseReviewResponse(
    weekStartDate: Date, evaluationDate: Date,
    summary: Option<string>, recommendation: Option<string>, createdAt: Option<Timestamp>)

  /** `toResponse`. */
  function ToResponse(review: AiExerciseReview): (r: ExerciseReviewResponse)
    ensures r.weekStartDate == review.weekStartDate && r.evaluationDate == review.evaluationDate
    ensures r.summary == Some(review.summary) && r.createdAt == Some(review.createdAt)
    ensures r.recommendation == review.recommendation
  {
    ExerciseReviewResponse(
      review.weekStartDate, review.evaluationDate,
      Some(review.summary), review.recommendation, Some(review.createdAt))
  }

  /** A row fit to be stored under `key`: its own email and evaluation date,
      the Monday of that date's week, and a non-blank summary. */
  predicate Stored(key: (string, Date), review: AiExerciseReview) {
    && review.email == key.0
    && review.evaluationDate == key.1
    && review.weekStartDate == WeekStart(key.1)
    && !IsBlank(review.summary)
  }

  /** What `parseAnswer` makes of `answer`, with `tree` for what `readTree`
      did with it and `clock` for `LocalDateTime.now(KST)`. */
  function ReviewOf(email: string, ref: Date, ev: Date, answer: string, tree: ReadTree, clock: Timestamp)
    : (r: Result<AiExerciseReview, ErrorCode>)
    ensures r.Ok? <==> !IsBlank(SummaryOf(answer, tree))
    ensures r.Err? ==> r.error == InternalServerError
    ensures r.Ok? ==> r.value == AiExerciseReview(
      email, WeekStart(ref), ev, SummaryOf(answer, tree), FieldOf(tree, "recommendation"), clock)
  {
    var summary := SummaryOf(answer, tree);
    if IsBlank(summary) then Err(InternalServerError)
    else Ok(AiExerciseReview(email, WeekStart(ref), ev, summary, FieldOf(tree, "recommendation"), clock))
  }

  /** `parseAnswer`: the builder starts from the raw answer and no
      recommendation; a parsed tree overwrites both; a blank summary throws. */
  method ParseAnswer(email: string, ref: Date, ev: Date, answer: string, tree: ReadTree, clock: Timestamp)
    returns (r: Result<AiExerciseReview, ErrorCode>)
    ensures r == ReviewOf(email, ref, ev, answer, tree, clock)
  {
    var summary := answer;
    var recommendation: Option<string> := None;
    if tree.Parsed? {
      var s := AsTextOr(Path(tree.root, "summary"), Some(answer));
      summary := s.value;
      recommendation := AsTextOr(Path(tree.root, "recommendation"), None);
    }
    var review := AiExerciseReview(email, WeekStart(ref), ev, summary, recommendation, clock);
    if IsBlank(review.summary) {
      return Err(InternalServerError);
    }
    r := Ok(review);
  }

  /** An answer that is not JSON becomes the summary as it is, with no
      recommendation; since the gateway only returns non-blank text, it is
      always accepted. */
  lemma {:induction false} NotJsonAnswer(email: string, ref: Date, ev: Date, answer: string, clock: Timestamp)
    requires !IsBlank(answer)
    ensures ReviewOf(email, ref, ev, answer, Unparsable, clock)
         == Ok(AiExerciseReview(email, WeekStart(ref), ev, answer, None, clock))
  {
  }

  /** A JSON answer without a usable `summary` keeps the raw answer as summary
      and whatever `recommendation` it carries. */
  lemma {:induction false} MissingSummaryFallsBack(
    email: string, ref: Date, ev: Date, answer: string, root: JsonNode, clock: Timestamp)
    requires !IsBlank(answer) && Absent(root, "summary")
    ensures var r := ReviewOf(email, ref, ev, answer, Parsed(root), clock);
      r.Ok? && r.value.summary == answer && r.value.recommendation == FieldOf(Parsed(root), "recommendation")
  {
  }

  /** A parsed summary that reads blank is rejected with `INTERNAL_SERVER_ERROR`. */
  lemma {:induction false} BlankSummaryRejected(
    email: string, ref: Date, ev: Date, answer: string, root: JsonNode, clock: Timestamp)
    requires !Absent(root, "summary") && IsBlank(AsText(Path(root, "summary")))
    ensures ReviewOf(email, ref, ev, answer, Parsed(root), clock) == Err(InternalServerError)
  {
  }

  /** `buildPrompt`: the evaluation date, the profile, and the week's exercise
      stats dated at most the evaluation date, in date order. */
  function ReviewPrompt(profile: Profile, weekly: WeeklyStatsResponse, ev: Date): (p: Prompt)
    ensures p.ExerciseReviewPrompt? && p.evaluationDate == ev && p.profile == profile
  {
    ExerciseReviewPrompt(ev, profile, Until(weekly.exerciseStats, ExerciseDate, ev))
  }

  /** The prompt of an evaluation holds exactly the days from the week's
      Monday up to the evaluation date, in order. */
  lemma {:induction false} ReviewPromptCoversWeekToDate(r: Records, email: string, ref: Date, now: Date, profile: Profile)
    ensures var ev := LimitDate(ref, now);
      var p := ReviewPrompt(profile, Weekly(r, email, ev), ev);
      && |p.exercise| == ev - WeekStart(ref) + 1
      && forall i :: 0 <= i < |p.exercise| ==>
           p.exercise[i] == Weekly(r, email, ev).exerciseStats[i] && p.exercise[i].date == WeekStart(ref) + i
  {
    var ev := LimitDate(ref, now);
    LimitDateIdempotent(ref, now);
    WeeklyExerciseUntil(r, email, ev);
    WeeklyWindow(r, email, ev);
  }

  /** The service: the review store (the mapper's table keyed by email and
      evaluation date), the gateway, and `readTree` on the gateway's answers. */
  class ExerciseReviewService {
    var reviews: map<(string, Date), AiExerciseReview>
    const client: GeminiClient
    const readTree: string -> ReadTree

    constructor (client: GeminiClient, readTree: string -> ReadTree)
      ensures this.client == client && this.readTree == readTree
      ensures reviews == map[] && Valid()
    {
      this.client := client;
      this.readTree := readTree;
      reviews := map[];
    }

    /** Every stored row is fit for its key. */
    ghost predicate Valid()
      reads this
    {
      forall key :: key in reviews ==> Stored(key, reviews[key])
    }

    /** What the miss path of `evaluate` produces: the profile lookup's error,
        the gateway's failure, or the parsed review. */
    function Generated(email: string, ref: Date, now: Date, clock: Timestamp, records: Records)
      : (r: Result<AiExerciseReview, ErrorCode>)
      ensures r.Ok? ==> Stored((email, LimitDate(ref, now)), r.value) && r.value.createdAt == clock
      ensures MyPage(records, email).Err? ==> r == Err(MyPage(records, email).error)
      ensures MyPage(records, email).Ok? && !KeyConfigured(client.apiKey) ==> r == Err(InternalServerError)
    {
      var ev := LimitDate(ref, now);
      match MyPage(records, email)
      case Err(e) => Err(e)
      case Ok(profile) =>
        var prompt := ReviewPrompt(profile, Weekly(records, email, ev), ev);
        match client.Outcome(prompt)
        case Err(f) => Err(FailureCode(f))
        case Ok(answer) =>
          LimitDateIdempotent(ref, now);
          ReviewOf(email, ref, ev, answer, readTree(answer), clock)
    }

    /** The gateway requests the miss path sends: one, once the profile is
        found and the key is configured; none otherwise. */
    function Calls(email: string, ref: Date, now: Date, records: Records): (c: seq<(string, Prompt)>)
      ensures |c| <= 1
      ensures |c| == 1 <==> MyPage(records, email).Ok? && KeyConfigured(client.apiKey)
    {
      var ev := LimitDate(ref, now);
      match MyPage(records, email)
      case Err(_) => []
      case Ok(profile) =>
        if KeyConfigured(client.apiKey) then [client.Request(ReviewPrompt(profile, Weekly(records, email, ev), ev))]
        else []
    }

    /** `get`: the stored review of the clamped date, or an empty response
        carrying the week start and the evaluation date. Reads only. */
    function Get(email: string, ref: Date, now: Date): (r: ExerciseReviewResponse)
      reads this
      ensures (email, LimitDate(ref, now)) !in reviews ==>
        r == ExerciseReviewResponse(WeekStart(ref), LimitDate(ref, now), None, None, None)
      ensures Valid() ==> r.weekStartDate == WeekStart(ref) && r.evaluationDate == LimitDate(ref, now)
      ensures Valid() ==> (r.summary.Some? <==> (email, LimitDate(ref, now)) in reviews)
    {
      var ev := LimitDate(ref, now);
      LimitDateIdempotent(ref, now);
      if (email, ev) in reviews then ToResponse(reviews[(email, ev)])
      else ExerciseReviewResponse(WeekStart(ref), ev, None, None, None)
    }

    /** `evaluate`: a stored review for the clamped date is returned as it is,
        with no gateway call and no insert; otherwise the profile, the week's
        stats, the prompt, the gateway and `parseAnswer` run in turn, and the
        review is inserted only when all of them succeed. */
    method Evaluate(email: string, ref: Date, now: Date, clock: Timestamp, records: Records)
      returns (r: Result<ExerciseReviewResponse, ErrorCode>)
      requires Valid()
      modifies this`reviews, client`sent
      ensures Valid()
      ensures var key := (email, LimitDate(ref, now));
        key in old(reviews) ==>
          r == Ok(ToResponse(old(reviews)[key])) && reviews == old(reviews) && client.sent == old(client.sent)
      ensures var key := (email, LimitDate(ref, now));
        var g := Generated(email, ref, now, clock, records);
        key !in old(reviews) ==>
          && client.sent == old(client.sent) + Calls(email, ref, now, records)
          && (g.Ok? ==> r == Ok(ToResponse(g.value)) && reviews == old(reviews)[key := g.value])
          && (g.Err? ==> r == Err(g.error) && reviews == old(reviews))
      ensures r.Ok? ==> r.value == Get(email, ref, now) && r.value.summary.Some? && !IsBlank(r.value.summary.value)
    {
      var ev := LimitDate(ref, now);
      var key := (email, ev);
      LimitDateIdempotent(ref, now);
      if key in reviews {
        return Ok(ToResponse(reviews[key]));
      }
      var profile := MyPage(records, email);
      if profile.Err? {
        return Err(profile.error);
      }
      var weekly := GetWeeklyStats(records, email, ev);
      var prompt := ReviewPrompt(profile.value, weekly, ev);
      var answer := client.Generate(prompt);
      if answer.Err? {
        return Err(FailureCode(answer.error));
      }
      var parsed := ParseAnswer(email, ref, ev, answer.value, readTree(answer.value), clock);
      if parsed.Err? {
        return Err(parsed.error);
      }
      reviews := reviews[key := parsed.value];
      r := Ok(ToResponse(parsed.value));
    }
  }
}
