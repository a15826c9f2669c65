/**
 * The user profile collected from the form (app.py:431-445) and the three prompt
 * templates sent to the text-generation service: the wellness-plan prompt
 * (`get_wellness_plan_prompt`), the local-information prompt
 * (`get_local_info_prompt`, with its `"region, country"` location) and the
 * chat prompt built inline for a question about the plan.
 */
module Prompts {
  import opened Text

  datatype Gender = Male | Female | Other
  datatype Diet = Omnivore | Pescatarian | Vegetarian | Vegan
  datatype Activity = Low | Medium | High

  function GenderName(g: Gender): string {
    match g
    case Male => "Male"
    case Female => "Female"
    case Other => "Other"
  }

  function DietName(d: Diet): string {
    match d
    case Omnivore => "Omnivore"
    case Pescatarian => "Pescatarian"
    case Vegetarian => "Vegetarian"
    case Vegan => "Vegan"
  }

  function ActivityName(a: Activity): string {
    match a
    case Low => "Low"
    case Medium => "Medium"
    case High => "High"
  }

  /** The `user_inputs` record; `age` comes from a slider over 1..100. */
  datatype Profile = Profile(
    country: string, state: string, region: string,
    age: nat, gender: Gender, diet: Diet, activity: Activity,
    health: string, goal: string, reason: string)

  /**
   * Builds the profile from the widget values. Only the health, goal and reason
   * text is passed through `sanitize_input`; country, state and region are kept
   * as typed.
   */
  function ReadProfile(
    country: string, state: string, region: string,
    age: nat, gender: Gender, diet: Diet, activity: Activity,
    healthInput: string, goalInput: string, reasonInput: string): (p: Profile)
    ensures p.country == country && p.state == state && p.region == region
    ensures p.age == age && p.gender == gender && p.diet == diet && p.activity == activity
    ensures NoMarkers(p.health) && Trimmed(p.health) && (healthInput == [] ==> p.health == [])
    ensures NoMarkers(p.goal) && Trimmed(p.goal) && (goalInput == [] ==> p.goal == [])
    ensures NoMarkers(p.reason) && Trimmed(p.reason) && (reasonInput == [] ==> p.reason == [])
  {
    Profile(country, state, region, age, gender, diet, activity,
            Sanitize(healthInput), Sanitize(goalInput), Sanitize(reasonInput))
  }

  /** Python's `x or fallback` on a string. */
  function OrElse(x: string, fallback: string): string {
    if x == [] then fallback else x
  }

  const PlanInstructions: string :=
    "\nYou are GlobalWell AI, an empathetic AI Wellness Buddy. Provide a personalized, "
    + "actionable wellness plan that aligns with **UN SDG 3**.\n\n\n"
    + "**Core Instructions:**\n"
    + "1. Accessibility & Affordability: Practical, low-cost, seasonal foods; minimal-equipment fitness.\n"
    + "2. Holistic: Cover nutrition, physical activity, mental well-being, and sleep.\n"
    + "3. Restriction: No specific supplements/medicines/drugs.\n"
    + "4. Add a section: **Alignment with SDG 3**.\n\n\n"
    + "**User Profile:**\n"

  /** `" | Health Conditions: "` with the health text, or `None` when it is empty. */
  function HealthEntry(health: string): seq<string> {
    [" | Health Conditions: ", OrElse(health, "None"), "\n"]
  }

  /** `" | Reason: "` with the reason text, or `Not specified` when it is empty. */
  function ReasonEntry(reason: string): seq<string> {
    [" | Reason: ", OrElse(reason, "Not specified"), "\n"]
  }

  /** The literal pieces and fields of `get_wellness_plan_prompt`, in order (app.py:62-78). */
  function PlanPromptParts(p: Profile): seq<string> {
    [PlanInstructions,
     "- Location: ", p.region, ", ", p.state, ", ", p.country,
     " | Age: ", NatToString(p.age), ", Gender: ", GenderName(p.gender), "\n",
     "- Diet: ", DietName(p.diet), ", Activity: ", ActivityName(p.activity)]
    + HealthEntry(p.health)
    + ["- Goal: ", p.goal]
    + ReasonEntry(p.reason)
  }

  /** `get_wellness_plan_prompt` (app.py:62-78). */
  function PlanPrompt(p: Profile): string {
    Concat(PlanPromptParts(p))
  }

  /** The location passed to the local-information prompt (app.py:608). */
  function Location(region: string, country: string): (r: string)
    ensures StartsWith(r, region) && r[|region|..] == ", " + country
  {
    region + ", " + country
  }

  const LocalInfoInstructions: string :=
    ":\n"
    + "1. **Hyper-Local Produce Guide:** List 3\U{2013}4 seasonal, affordable, nutritious "
    + "fruits/vegetables readily available now.\n"
    + "2. **Wellness Myth Buster:** One relevant \"Myth vs. Fact\" debunking an expensive "
    + "trend with a simple alternative.\n"
    + "Format clearly with markdown.\n"

  function LocalInfoPromptParts(location: string): seq<string> {
    ["\nAs GlobalWell AI, for a user in ", "**", location, "**", LocalInfoInstructions]
  }

  /** `get_local_info_prompt` (app.py:81-87). */
  function LocalInfoPrompt(location: string): string {
    Concat(LocalInfoPromptParts(location))
  }

  function ChatPromptParts(plan: string, question: string): seq<string> {
    ["Based on this plan:\n", plan, "\n\nUser question: ", question, "\nAnswer:"]
  }

  /** The prompt for a question about the current plan (app.py:638). */
  function ChatPrompt(plan: string, question: string): string {
    Concat(ChatPromptParts(plan, question))
  }

  // ---------------------------------------------------------------------------
  // Properties of the templates
  // ---------------------------------------------------------------------------

  lemma {:induction false} Concat3(a: string, b: string, c: string)
    ensures Concat([a, b, c]) == a + b + c
  {
    assert [a, b, c][1..] == [b, c];
    assert [b, c][1..] == [c];
    assert [c][1..] == [];
    assert Concat([c]) == c + [];
    assert c + [] == c;
  }

  /** The plan prompt embeds every profile field. */
  lemma {:induction false} PlanPromptEmbedsProfile(p: Profile)
    ensures Contains(PlanPrompt(p), p.region)
    ensures Contains(PlanPrompt(p), p.state)
    ensures Contains(PlanPrompt(p), p.country)
    ensures Contains(PlanPrompt(p), NatToString(p.age))
    ensures Contains(PlanPrompt(p), GenderName(p.gender))
    ensures Contains(PlanPrompt(p), DietName(p.diet))
    ensures Contains(PlanPrompt(p), ActivityName(p.activity))
    ensures Contains(PlanPrompt(p), p.goal)
  {
    var parts := PlanPromptParts(p);
    ConcatContainsPart(parts, p.region);
    ConcatContainsPart(parts, p.state);
    ConcatContainsPart(parts, p.country);
    ConcatContainsPart(parts, NatToString(p.age));
    ConcatContainsPart(parts, GenderName(p.gender));
    ConcatContainsPart(parts, DietName(p.diet));
    ConcatContainsPart(parts, ActivityName(p.activity));
    ConcatContainsPart(parts, p.goal);
  }

  /** The health entry: `None` exactly when no health condition was given. */
  lemma {:induction false} PlanPromptHealth(p: Profile)
    ensures Contains(PlanPrompt(p), " | Health Conditions: " + (if p.health == [] then "None" else p.health) + "\n")
  {
    var head := PlanPromptParts(p)[..16];
    var tail := ["- Goal: ", p.goal] + ReasonEntry(p.reason);
    assert PlanPromptParts(p) == head + HealthEntry(p.health) + tail;
    ConcatContainsGroup(head, HealthEntry(p.health), tail);
    Concat3(" | Health Conditions: ", OrElse(p.health, "None"), "\n");
  }

  /** The reason entry: `Not specified` exactly when no reason was given. */
  lemma {:induction false} PlanPromptReason(p: Profile)
    ensures Contains(PlanPrompt(p), " | Reason: " + (if p.reason == [] then "Not specified" else p.reason) + "\n")
  {
    var head := PlanPromptParts(p)[..21];
    assert PlanPromptParts(p) == head + ReasonEntry(p.reason) + [];
    ConcatContainsGroup(head, ReasonEntry(p.reason), []);
    Concat3(" | Reason: ", OrElse(p.reason, "Not specified"), "\n");
  }

  /** The local-information prompt embeds `region, country` in bold. */
  lemma {:induction false} LocalInfoPromptEmbedsLocation(region: string, country: string)
    ensures Contains(LocalInfoPrompt(Location(region, country)), "**" + region + ", " + country + "**")
  {
    var loc := Location(region, country);
    var parts := LocalInfoPromptParts(loc);
    assert parts == ["\nAs GlobalWell AI, for a user in "] + ["**", loc, "**"] + [LocalInfoInstructions];
    ConcatContainsGroup(["\nAs GlobalWell AI, for a user in "], ["**", loc, "**"], [LocalInfoInstructions]);
    Concat3("**", loc, "**");
    assert "**" + loc + "**" == "**" + region + ", " + country + "**";
  }

  /** The chat prompt embeds the whole plan text and the question. */
  lemma {:induction false} ChatPromptEmbeds(plan: string, question: string)
    ensures Contains(ChatPrompt(plan, question), plan)
    ensures Contains(ChatPrompt(plan, question), question)
  {
    ConcatContainsPart(ChatPromptParts(plan, question), plan);
    ConcatContainsPart(ChatPromptParts(plan, question), question);
  }
}
