/** `AiMealPlanService`: one generated meal plan per user and day, parsed from
    the gateway's answer through three layers (a JSON array, an object with a
    `meals` array, one item per non-blank line) and stored with its items. */
module MealPlan {
  import opened Wrappers
  import opened Text
  import opened Json
  import opened Calendar
  import opened Collaborators
  import opened WeeklyStats
  import opened Prompts
  import opened Gemini

  /** An `ai_meal_plan_item` row without its own id; the plan it belongs to is
      the key it is stored under. */
  datatype MealItem = MealItem(
    mealTime: Option<string>, menuDescription: string,
    calories: Option<int>, highlight: Option<string>, createdAt: Timestamp)

  /** An `ai_meal_plan` row; `promptContext` is the prompt by content. */
  datatype AiMealPlan = AiMealPlan(
    id: nat, email: string, planDate: Date,
    promptContext: Prompt, rawResponse: string, createdAt: Timestamp)

  /** `MealPlanItemDto`. */
  datatype MealPlanItemDto = MealPlanItemDto(
    mealTime: Option<string>, menuDescription: string, calories: Option<int>, highlight: Option<string>)

  /** `AiMealPlanResponse`. */
  datatype AiMealPlanResponse = AiMealPlanResponse(
    planDate: Date, generated: bool, generatedAt: Option<Timestamp>,
    meals: seq<MealPlanItemDto>, rawText: Option<string>)

  /** The menu text used when an element names no usable menu. */
  const MenuPlaceholder: string := "추천 식단 세부 내용을 확인할 수 없습니다."

  /** The meal slot used when an element names no usable slot. */
  const DefaultMealTime: string := "MEAL"

  /** `node.path(key).asText(null)`. */
  function TextField(node: JsonNode, key: string): Option<string> {
    AsTextOr(Path(node, key), None)
  }

  /** The element's slot: `mealTime`, or `meal_time` only when `mealTime` is
      null or absent, and "MEAL" when the chosen one is null or blank. */
  function MealTimeOf(node: JsonNode): (t: string)
    ensures !IsBlank(t)
    ensures TextField(node, "mealTime").Some? ==>
      t == if IsBlank(TextField(node, "mealTime").value) then DefaultMealTime else TextField(node, "mealTime").value
    ensures TextField(node, "mealTime").None? ==>
      t == if TextField(node, "meal_time").Some? && !IsBlank(TextField(node, "meal_time").value)
           then TextField(node, "meal_time").value else DefaultMealTime
  {
    assert !IsWhitespace(DefaultMealTime[0]);
    var mealTime := TextField(node, "mealTime");
    var chosen := if mealTime.None? then TextField(node, "meal_time") else mealTime;
    if chosen.None? || IsBlank(chosen.value) then DefaultMealTime else chosen.value
  }

  /** The element's menu: `menu`, or `menuDescription` only when `menu` is
      null or absent, and the placeholder when the chosen one is null or blank. */
  function MenuOf(node: JsonNode): (m: string)
    ensures !IsBlank(m)
    ensures TextField(node, "menu").Some? ==>
      m == if IsBlank(TextField(node, "menu").value) then MenuPlaceholder else TextField(node, "menu").value
    ensures TextField(node, "menu").None? ==>
      m == if TextField(node, "menuDescription").Some? && !IsBlank(TextField(node, "menuDescription").value)
           then TextField(node, "menuDescription").value else MenuPlaceholder
  {
    assert !IsWhitespace(MenuPlaceholder[0]);
    var menu := TextField(node, "menu");
    var chosen := if menu.None? then TextField(node, "menuDescription") else menu;
    if chosen.None? || IsBlank(chosen.value) then MenuPlaceholder else chosen.value
  }

  /** The element's calories: `null` exactly when the key is absent or null,
      otherwise the field's `asDouble()`. */
  function CaloriesOf(node: JsonNode): (c: Option<int>)
    ensures c.None? <==> !HasNonNull(node, "calories")
    ensures c.Some? ==> c.value == AsDouble(node.fields["calories"])
  {
    if HasNonNull(node, "calories") then Some(AsDouble(node.fields["calories"])) else None
  }

  /** The item `readArray` makes of one element. */
  function ReadItem(node: JsonNode, clock: Timestamp): (item: MealItem)
    ensures item.mealTime.Some? && !IsBlank(item.mealTime.value) && !IsBlank(item.menuDescription)
  {
    MealItem(Some(MealTimeOf(node)), MenuOf(node), CaloriesOf(node), TextField(node, "highlight"), clock)
  }

  /** One item per element, in order. */
  function ArrayItems(elems: seq<JsonNode>, clock: Timestamp): (items: seq<MealItem>)
    ensures |items| == |elems|
    ensures forall i :: 0 <= i < |elems| ==> items[i] == ReadItem(elems[i], clock)
  {
    seq(|elems|, i requires 0 <= i < |elems| => ReadItem(elems[i], clock))
  }

  /** The item of one fallback line: the trimmed line as menu, nothing else. */
  function LineItem(line: string, clock: Timestamp): MealItem {
    MealItem(None, Trim(line), None, None, clock)
  }

  /** The fallback layer: one item per non-blank line, in order. */
  function LineItems(lines: seq<string>, clock: Timestamp): (items: seq<MealItem>)
    ensures |items| <= |lines|
    ensures forall k :: 0 <= k < |items| ==>
      items[k].mealTime.None? && items[k].calories.None? && items[k].highlight.None? && items[k].createdAt == clock
  {
    if lines == [] then []
    else
      var last := lines[|lines| - 1];
      LineItems(lines[..|lines| - 1], clock) + (if IsBlank(last) then [] else [LineItem(last, clock)])
  }

  /** The `meals` array of an object, when it has one. */
  predicate HasMealsArray(root: JsonNode) {
    Has(root, "meals") && root.fields["meals"].JArray?
  }

  /** What `parseMealItems(rawText)` returns, with `tree` for what `readTree`
      did with the text. */
  function MealItems(raw: string, tree: ReadTree, clock: Timestamp): (items: seq<MealItem>)
    ensures tree.Parsed? && tree.root.JArray? ==> items == ArrayItems(tree.root.elems, clock)
    ensures tree.Parsed? && !tree.root.JArray? && HasMealsArray(tree.root) ==>
      items == ArrayItems(tree.root.fields["meals"].elems, clock)
    ensures tree.Unparsable? || (!tree.root.JArray? && !HasMealsArray(tree.root)) ==>
      items == LineItems(Pieces(raw), clock)
  {
    if tree.Parsed? && tree.root.JArray? then ArrayItems(tree.root.elems, clock)
    else if tree.Parsed? && HasMealsArray(tree.root) then ArrayItems(tree.root.fields["meals"].elems, clock)
    else LineItems(Pieces(raw), clock)
  }

  /** The body of `readArray`'s loop: one element's fields with their
      fallbacks. */
  method ReadElement(node: JsonNode, clock: Timestamp) returns (item: MealItem)
    ensures item == ReadItem(node, clock)
  {
    var mealTime := TextField(node, "mealTime");
    if mealTime.None? {
      mealTime := TextField(node, "meal_time");
    }
    var menu := TextField(node, "menu");
    if menu.None? {
      menu := TextField(node, "menuDescription");
    }
    var calories := if HasNonNull(node, "calories") then Some(AsDouble(node.fields["calories"])) else None;
    var highlight := TextField(node, "highlight");
    var safeMenu := if menu.None? || IsBlank(menu.value) then MenuPlaceholder else menu.value;
    var safeMealTime := if mealTime.None? || IsBlank(mealTime.value) then DefaultMealTime else mealTime.value;
    item := MealItem(Some(safeMealTime), safeMenu, calories, highlight, clock);
  }

  /** `readArray`: walks the elements in order, one item per element. */
  method ReadArray(arrayNode: JsonNode, clock: Timestamp) returns (result: seq<MealItem>)
    requires arrayNode.JArray?
    ensures result == ArrayItems(arrayNode.elems, clock)
  {
    var elems := arrayNode.elems;
    ghost var want := ArrayItems(elems, clock);
    result := [];
    for i := 0 to |elems|
      invariant result == want[..i]
    {
      var item := ReadElement(elems[i], clock);
      assert want[..i + 1] == want[..i] + [item];
      result := result + [item];
    }
    assert want[..|want|] == want;
  }

  /** `parseMealItems`: a top-level array, else an object's `meals` array,
      else one item per non-blank line of the raw text. */
  method ParseMealItems(raw: string, tree: ReadTree, clock: Timestamp) returns (items: seq<MealItem>)
    ensures items == MealItems(raw, tree, clock)
  {
    if tree.Parsed? {
      var root := tree.root;
      if root.JArray? {
        items := ReadArray(root, clock);
        return;
      }
      if Has(root, "meals") && Get(root, "meals").value.JArray? {
        items := ReadArray(root.fields["meals"], clock);
        return;
      }
    }
    var lines := Pieces(raw);
    items := [];
    for i := 0 to |lines|
      invariant items == LineItems(lines[..i], clock)
    {
      assert lines[..i + 1][..i] == lines[..i];
      var line := lines[i];
      if !IsBlank(line) {
        items := items + [MealItem(None, Trim(line), None, None, clock)];
      }
    }
    assert lines[..|lines|] == lines;
  }

  /** The fallback layer is empty exactly when every line is blank. */
  lemma {:induction false} LineItemsEmpty(lines: seq<string>, clock: Timestamp)
    ensures LineItems(lines, clock) == [] <==> forall j :: 0 <= j < |lines| ==> IsBlank(lines[j])
  {
    if lines != [] {
      LineItemsEmpty(lines[..|lines| - 1], clock);
      var init := lines[..|lines| - 1];
      assert forall j :: 0 <= j < |init| ==> init[j] == lines[j];
    }
  }

  /** Text that is not JSON, or JSON without either array, gives at least one
      item whenever it is not blank; the gateway never returns blank text. */
  lemma {:induction false} FallbackNeverEmpty(raw: string, tree: ReadTree, clock: Timestamp)
    requires !IsBlank(raw)
    requires tree.Unparsable? || (!tree.root.JArray? && !HasMealsArray(tree.root))
    ensures |MealItems(raw, tree, clock)| > 0
  {
    NonBlankHasNonBlankPiece(raw);
    LineItemsEmpty(Pieces(raw), clock);
  }

  /** So a non-blank answer parses to no item only through an empty array:
      the top-level array, or the `meals` array of an object. */
  lemma {:induction false} EmptyOnlyFromEmptyArray(raw: string, tree: ReadTree, clock: Timestamp)
    requires !IsBlank(raw) && MealItems(raw, tree, clock) == []
    ensures tree.Parsed?
    ensures tree.root == JArray([]) || (!tree.root.JArray? && HasMealsArray(tree.root) && tree.root.fields["meals"] == JArray([]))
  {
    if tree.Unparsable? || (!tree.root.JArray? && !HasMealsArray(tree.root)) {
      FallbackNeverEmpty(raw, tree, clock);
      assert false;
    }
  }

  /** An empty array is taken as it is: no items, and no line fallback. */
  lemma EmptyArrayHasNoItems(raw: string, clock: Timestamp)
    ensures MealItems(raw, Parsed(JArray([])), clock) == []
    ensures MealItems(raw, Parsed(JObject(map["meals" := JArray([])])), clock) == []
  {
  }

  /** Two newline-free, unpadded, non-blank lines with no JSON structure make
      exactly two items, each with its line as menu and nothing else. */
  lemma {:induction false} TwoLineFallback(a: string, b: string, clock: Timestamp)
    requires forall k :: 0 <= k < |a| ==> a[k] != '\n'
    requires forall k :: 0 <= k < |b| ==> b[k] != '\n'
    requires a != [] && a[0] > ' ' && !IsWhitespace(a[0]) && a[|a| - 1] > ' '
    requires b != [] && b[0] > ' ' && !IsWhitespace(b[0]) && b[|b| - 1] > ' '
    ensures MealItems(a + "\n" + b, Unparsable, clock)
         == [MealItem(None, a, None, None, clock), MealItem(None, b, None, None, clock)]
  {
    PiecesOfJoin(a, b);
    TrimUnpadded(a);
    TrimUnpadded(b);
    TwoLines(a, b, clock);
  }

  /** "grilled chicken salad\nsteamed rice", which is not JSON, makes two items. */
  lemma TwoLineExample(clock: Timestamp)
    ensures MealItems("grilled chicken salad\nsteamed rice", Unparsable, clock)
         == [MealItem(None, "grilled chicken salad", None, None, clock),
             MealItem(None, "steamed rice", None, None, clock)]
  {
    var a, b := "grilled chicken salad", "steamed rice";
    assert a + "\n" + b == "grilled chicken salad\nsteamed rice";
    TwoLineFallback(a, b, clock);
  }

  /** Two non-blank lines make two items. */
  lemma {:induction false} TwoLines(a: string, b: string, clock: Timestamp)
    requires a != [] && !IsWhitespace(a[0]) && b != [] && !IsWhitespace(b[0])
    ensures LineItems([a, b], clock) == [LineItem(a, clock), LineItem(b, clock)]
  {
    assert !IsBlank(a) && !IsBlank(b);
    var one, two := [a], [a, b];
    assert two[..1] == one && one[..0] == [];
    assert LineItems(one, clock) == [LineItem(a, clock)];
  }

  /** `trim` leaves a text whose two ends are above U+0020 as it is. */
  lemma {:induction false} TrimUnpadded(s: string)
    requires s != [] && s[0] > ' ' && s[|s| - 1] > ' '
    ensures Trim(s) == s
  {
  }

  /** Splitting `a + "\n" + b` with newline-free `a` and `b` gives `a` and `b`. */
  lemma {:induction false} PiecesOfJoin(a: string, b: string)
    requires forall k :: 0 <= k < |a| ==> a[k] != '\n'
    requires forall k :: 0 <= k < |b| ==> b[k] != '\n'
    ensures Pieces(a + "\n" + b) == [a, b]
  {
    if a == [] {
      assert a + "\n" + b == "\n" + b;
      assert ("\n" + b)[1..] == b;
      PiecesOfPlain(b);
    } else {
      assert (a + "\n" + b)[1..] == a[1..] + "\n" + b;
      PiecesOfJoin(a[1..], b);
      assert [a[0]] + a[1..] == a;
    }
  }

  /** A newline-free text is a single piece. */
  lemma {:induction false} PiecesOfPlain(b: string)
    requires forall k :: 0 <= k < |b| ==> b[k] != '\n'
    ensures Pieces(b) == [b]
  {
    if b != [] {
      PiecesOfPlain(b[1..]);
      assert [b[0]] + b[1..] == b;
    }
  }

  /** `toResponse`: the items as DTOs, same count, same order, same four fields. */
  function ToResponse(plan: AiMealPlan, items: seq<MealItem>, generated: bool): (r: AiMealPlanResponse)
    ensures r.planDate == plan.planDate && r.generated == generated
    ensures r.generatedAt == Some(plan.createdAt) && r.rawText == Some(plan.rawResponse)
    ensures |r.meals| == |items|
    ensures forall i :: 0 <= i < |items| ==>
      && r.meals[i].mealTime == items[i].mealTime && r.meals[i].menuDescription == items[i].menuDescription
      && r.meals[i].calories == items[i].calories && r.meals[i].highlight == items[i].highlight
  {
    var meals := seq(|items|, i requires 0 <= i < |items| =>
      MealPlanItemDto(items[i].mealTime, items[i].menuDescription, items[i].calories, items[i].highlight));
    AiMealPlanResponse(plan.planDate, generated, Some(plan.createdAt), meals, Some(plan.rawResponse))
  }

  /** `buildPrompt`'s content: the plan date, the profile and the week's diet
      stats dated at most the plan date, in date order. */
  function PlanPrompt(profile: Profile, weekly: WeeklyStatsResponse, planDate: Date): (p: Prompt)
    ensures p.MealPlanPrompt? && p.planDate == planDate && p.profile == profile
  {
    MealPlanPrompt(planDate, profile, Until(weekly.dietStats, DietDate, planDate))
  }

  /** The prompt's diet slice is the week's days from Monday up to the plan date. */
  lemma {:induction false} PlanPromptCoversWeekToDate(r: Records, email: string, planDate: Date, profile: Profile)
    ensures var p := PlanPrompt(profile, Weekly(r, email, planDate), planDate);
      && |p.diet| == planDate - WeekStart(planDate) + 1
      && forall i :: 0 <= i < |p.diet| ==>
           p.diet[i] == Weekly(r, email, planDate).dietStats[i] && p.diet[i].date == WeekStart(planDate) + i
  {
    WeeklyDietUntil(r, email, planDate);
    WeeklyWindow(r, email, planDate);
  }

  /** The service: plans keyed by email and date, their items keyed by plan
      id, the next id the plan table hands out, the gateway and `readTree`. */
  class MealPlanService {
    var plans: map<(string, Date), AiMealPlan>
    var planItems: map<nat, seq<MealItem>>
    var nextId: nat
    const client: GeminiClient
    const readTree: string -> ReadTree

    constructor (client: GeminiClient, readTree: string -> ReadTree)
      ensures this.client == client && this.readTree == readTree
      ensures plans == map[] && planItems == map[] && Valid()
    {
      this.client := client;
      this.readTree := readTree;
      plans := map[];
      planItems := map[];
      nextId := 1;
    }

    /** Every plan sits under its own email and date, has an id already
        handed out, and has a non-empty item list. */
    ghost predicate Valid()
      reads this
    {
      && (forall key :: key in plans ==>
            && plans[key].email == key.0 && plans[key].planDate == key.1
            && plans[key].id < nextId
            && plans[key].id in planItems && planItems[plans[key].id] != [])
      && (forall id :: id in planItems ==> id < nextId)
    }

    /** `findItemsByPlanId`. */
    function ItemsOf(id: nat): (items: seq<MealItem>)
      reads this
      ensures id !in planItems ==> items == []
    {
      if id in planItems then planItems[id] else []
    }

    /** `getExistingPlan`: the stored plan with its items, or an empty
        not-generated response. Reads only. */
    function GetExistingPlan(email: string, planDate: Date): (r: AiMealPlanResponse)
      reads this
      ensures (email, planDate) !in plans ==> r == AiMealPlanResponse(planDate, false, None, [], None)
      ensures (email, planDate) in plans ==> r.generated && r.rawText == Some(plans[(email, planDate)].rawResponse)
      ensures Valid() ==> r.planDate == planDate && (r.generated <==> r.meals != [])
    {
      if (email, planDate) in plans then
        var plan := plans[(email, planDate)];
        ToResponse(plan, ItemsOf(plan.id), true)
      else AiMealPlanResponse(planDate, false, None, [], None)
    }

    /** What the miss path of `generatePlan` produces: the prompt, the raw
        answer and the parsed items, or the error that stops it. */
    function Generated(email: string, planDate: Date, clock: Timestamp, records: Records)
      : (r: Result<(Prompt, string, seq<MealItem>), ErrorCode>)
      ensures MyPage(records, email).Err? ==> r == Err(MyPage(records, email).error)
      ensures r.Ok? ==> r.value.2 != [] && r.value.0.MealPlanPrompt? && r.value.0.planDate == planDate
      ensures r.Ok? ==> r.value.2 == MealItems(r.value.1, readTree(r.value.1), clock)
    {
      match MyPage(records, email)
      case Err(e) => Err(e)
      case Ok(profile) =>
        var prompt := PlanPrompt(profile, Weekly(records, email, planDate), planDate);
        match client.Outcome(prompt)
        case Err(f) => Err(FailureCode(f))
        case Ok(raw) =>
          var items := MealItems(raw, readTree(raw), clock);
          if items == [] then Err(InternalServerError) else Ok((prompt, raw, items))
    }

    /** The gateway requests the miss path sends. */
    function Calls(email: string, planDate: Date, records: Records): (c: seq<(string, Prompt)>)
      ensures |c| <= 1
      ensures |c| == 1 <==> MyPage(records, email).Ok? && KeyConfigured(client.apiKey)
    {
      match MyPage(records, email)
      case Err(_) => []
      case Ok(profile) =>
        if KeyConfigured(client.apiKey) then [client.Request(PlanPrompt(profile, Weekly(records, email, planDate), planDate))]
        else []
    }

    /** `generatePlan`: an existing plan is returned with its stored items and
        no gateway call or insert; otherwise the plan and its items are
        inserted together, and only when the answer parses to at least one
        item. */
    method GeneratePlan(email: string, planDate: Date, clock: Timestamp, records: Records)
      returns (r: Result<AiMealPlanResponse, ErrorCode>)
      requires Valid()
      modifies this`plans, this`planItems, this`nextId, client`sent
      ensures Valid()
      ensures (email, planDate) in old(plans) ==>
        && r == Ok(ToResponse(old(plans)[(email, planDate)], old(ItemsOf(plans[(email, planDate)].id)), true))
        && plans == old(plans) && planItems == old(planItems) && nextId == old(nextId)
        && client.sent == old(client.sent)
      ensures var g := Generated(email, planDate, clock, records);
        (email, planDate) !in old(plans) ==>
          && client.sent == old(client.sent) + Calls(email, planDate, records)
          && (g.Err? ==> r == Err(g.error) && plans == old(plans) && planItems == old(planItems) && nextId == old(nextId))
          && (g.Ok? ==>
                var plan := AiMealPlan(old(nextId), email, planDate, g.value.0, g.value.1, clock);
                && plans == old(plans)[(email, planDate) := plan]
                && planItems == old(planItems)[old(nextId) := g.value.2]
                && nextId == old(nextId) + 1
                && r == Ok(ToResponse(plan, g.value.2, true)))
      ensures r.Ok? ==> r.value == GetExistingPlan(email, planDate) && r.value.generated && r.value.meals != []
    {
      var key := (email, planDate);
      if key in plans {
        var existing := plans[key];
        return Ok(ToResponse(existing, ItemsOf(existing.id), true));
      }
      var profile := MyPage(records, email);
      if profile.Err? {
        return Err(profile.error);
      }
      var weekly := GetWeeklyStats(records, email, planDate);
      var prompt := PlanPrompt(profile.value, weekly, planDate);
      var raw := client.Generate(prompt);
      if raw.Err? {
        return Err(FailureCode(raw.error));
      }
      var items := ParseMealItems(raw.value, readTree(raw.value), clock);
      if items == [] {
        return Err(InternalServerError);
      }
      assert Generated(email, planDate, clock, records) == Ok((prompt, raw.value, items));
      var plan := AiMealPlan(nextId, email, planDate, prompt, raw.value, clock);
      Insert(key, plan, items);
      r := Ok(ToResponse(plan, items, true));
    }

    /** `insertPlan` followed by `insertItems`: the plan takes the next id and
        its items are stored under it. */
    method Insert(key: (string, Date), plan: AiMealPlan, items: seq<MealItem>)
      requires Valid()
      requires plan.id == nextId && plan.email == key.0 && plan.planDate == key.1 && items != []
      modifies this`plans, this`planItems, this`nextId
      ensures Valid()
      ensures plans == old(plans)[key := plan] && planItems == old(planItems)[plan.id := items]
      ensures nextId == old(nextId) + 1
    {
      plans := plans[key := plan];
      planItems := planItems[nextId := items];
      nextId := nextId + 1;
    }
  }
}
