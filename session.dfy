/**
 * The `st.session_state` record of one browser session (app.py:164-180) and the
 * transitions the script applies to it on a run. The store is a dictionary from
 * keys to values, as in the source; the generation service's reply, the clock
 * and the audio-file load are parameters of the actions.
 */
module Session {
  import opened Wrappers
  import opened Text
  import opened Prompts
  import opened Widgets

  datatype Role = User | Ai

  /** A transcript entry `{"role": ..., "content": ...}`; an answer may be `None`. */
  datatype ChatMessage = ChatMessage(role: Role, content: Option<string>)

  /** The session keys the script defines defaults for. */
  datatype Key =
    | WellnessPlan | ChatHistory | LocalInfo | Gratitude | LastHydration | DailyTip
    | NoisePlaying | NoiseBytes | NoiseChoice | ChimePlaying | ChimeDurationSec

  datatype Value =
    | OptText(text: Option<string>)
    | Chat(messages: seq<ChatMessage>)
    | Journal(days: map<string, seq<string>>)
    | Seconds(seconds: int)
    | Flag(on: bool)
    | Name(name: string)

  /** The kind of value the script keeps under each key. */
  predicate Fits(k: Key, v: Value) {
    match k
    case WellnessPlan | LocalInfo | DailyTip | NoiseBytes => v.OptText?
    case ChatHistory => v.Chat?
    case Gratitude => v.Journal?
    case LastHydration | ChimeDurationSec => v.Seconds?
    case NoisePlaying | ChimePlaying => v.Flag?
    case NoiseChoice => v.Name?
  }

  /** The keys of the `defaults` dictionary, in its order. */
  const DefaultKeys: seq<Key> := [
    WellnessPlan, ChatHistory, LocalInfo, Gratitude, LastHydration, DailyTip,
    NoisePlaying, NoiseBytes, NoiseChoice, ChimePlaying, ChimeDurationSec]

  /** Where each key stands in the `defaults` dictionary. */
  function Position(k: Key): (i: nat)
    ensures i < |DefaultKeys| && DefaultKeys[i] == k
  {
    match k
    case WellnessPlan => 0
    case ChatHistory => 1
    case LocalInfo => 2
    case Gratitude => 3
    case LastHydration => 4
    case DailyTip => 5
    case NoisePlaying => 6
    case NoiseBytes => 7
    case NoiseChoice => 8
    case ChimePlaying => 9
    case ChimeDurationSec => 10
  }

  lemma EveryKeyHasDefault()
    ensures forall k: Key :: k in DefaultKeys
  {
    forall k: Key
      ensures k in DefaultKeys
    {
      assert DefaultKeys[Position(k)] == k;
    }
  }

  /** The default for each key; `last_hydration` starts at the current time. */
  function Default(k: Key, now: int): (v: Value)
    ensures Fits(k, v)
  {
    match k
    case WellnessPlan => OptText(None)
    case ChatHistory => Chat([])
    case LocalInfo => OptText(None)
    case Gratitude => Journal(map[])
    case LastHydration => Seconds(now)
    case DailyTip => OptText(None)
    case NoisePlaying => Flag(false)
    case NoiseBytes => OptText(None)
    case NoiseChoice => Name(DefaultNoise)
    case ChimePlaying => Flag(false)
    case ChimeDurationSec => Seconds(10)
  }

  function Defaults(now: int): map<Key, Value> {
    map k | k in DefaultKeys :: Default(k, now)
  }

  /**
   * The journal after saving `items` for `today`: that day holds `items`, every
   * other day is untouched, and saving the same entries again changes nothing.
   */
  lemma SaveGratitudeUpsert(days: map<string, seq<string>>, today: string, items: seq<string>)
    ensures days[today := items].Keys == days.Keys + {today}
    ensures days[today := items][today] == items
    ensures forall d :: d in days && d != today ==> days[today := items][d] == days[d]
    ensures days[today := items][today := items] == days[today := items]
  {
  }

  /** What `GeneratePlan` reports. */
  datatype PlanOutcome = MissingGoal | Generated | NoPlan

  class Store {
    var entries: map<Key, Value>

    /** Every stored value has the kind its key calls for. */
    ghost predicate Valid()
      reads this
    {
      forall k :: k in entries ==> Fits(k, entries[k])
    }

    /** The defaults have been filled in: every key is present. */
    ghost predicate Ready()
      reads this
    {
      Valid() && forall k: Key :: k in entries
    }

    function Plan(): Option<string> reads this requires Ready() { entries[WellnessPlan].text }
    function Transcript(): seq<ChatMessage> reads this requires Ready() { entries[ChatHistory].messages }
    function LocalInfoText(): Option<string> reads this requires Ready() { entries[LocalInfo].text }
    function Days(): map<string, seq<string>> reads this requires Ready() { entries[Gratitude].days }
    function LastDrink(): int reads this requires Ready() { entries[LastHydration].seconds }
    function Tip(): Option<string> reads this requires Ready() { entries[DailyTip].text }
    function NoiseOn(): bool reads this requires Ready() { entries[NoisePlaying].on }
    function NoiseAudio(): Option<string> reads this requires Ready() { entries[NoiseBytes].text }
    function NoiseSelection(): string reads this requires Ready() { entries[NoiseChoice].name }
    function ChimeOn(): bool reads this requires Ready() { entries[ChimePlaying].on }

    /** A new session: nothing stored yet. */
    constructor ()
      ensures Valid() && entries == map[]
    {
      entries := map[];
    }

    /**
     * The defaults loop (app.py:178-180): each key that is missing gets its
     * default; keys already present keep their values.
     */
    method FillDefaults(now: int)
      requires Valid()
      modifies this
      ensures Ready()
      ensures entries == Defaults(now) + old(entries)
    {
      for i := 0 to |DefaultKeys|
        invariant Valid()
        invariant entries.Keys == old(entries).Keys + set j | 0 <= j < i :: DefaultKeys[j]
        invariant forall k :: k in entries ==>
          entries[k] == if k in old(entries) then old(entries)[k] else Default(k, now)
      {
        var k := DefaultKeys[i];
        if k !in entries {
          entries := entries[k := Default(k, now)];
        }
      }
      EveryKeyHasDefault();
      assert (set j | 0 <= j < |DefaultKeys| :: DefaultKeys[j]) == set k | k in DefaultKeys;
    }

    /**
     * "Generate My Wellness Plan" (app.py:451-461). With an empty goal only a
     * warning is shown. Otherwise the plan prompt is sent; a non-empty reply
     * becomes the plan, and the transcript and local information are cleared in
     * the same step. `sent` is the prompt handed to the service, `reply` its answer.
     */
    method GeneratePlan(p: Profile, reply: Option<string>) returns (outcome: PlanOutcome, sent: Option<string>)
      requires Ready()
      modifies this
      ensures Ready()
      ensures p.goal == [] ==> outcome == MissingGoal && sent == None && entries == old(entries)
      ensures p.goal != [] ==> sent == Some(PlanPrompt(p))
      ensures p.goal != [] && Truthy(reply) ==>
        && outcome == Generated
        && entries == old(entries)[WellnessPlan := OptText(reply)][ChatHistory := Chat([])][LocalInfo := OptText(None)]
      ensures p.goal != [] && !Truthy(reply) ==> outcome == NoPlan && entries == old(entries)
    {
      if p.goal == [] {
        outcome, sent := MissingGoal, None;
      } else {
        sent := Some(PlanPrompt(p));
        if Truthy(reply) {
          entries := entries[WellnessPlan := OptText(reply)];
          entries := entries[ChatHistory := Chat([])];
          entries := entries[LocalInfo := OptText(None)];
          outcome := Generated;
        } else {
          outcome := NoPlan;
        }
      }
    }

    /**
     * "Ask Question" (app.py:629-640), offered only while a plan is shown: a
     * non-empty question is appended, the chat prompt is sent, and the answer
     * (possibly `None`) is appended after it.
     */
    method AskQuestion(question: string, reply: Option<string>) returns (sent: Option<string>)
      requires Ready()
      modifies this
      ensures Ready()
      ensures Truthy(old(Plan())) && question != [] ==>
        && sent == Some(ChatPrompt(old(Plan()).value, question))
        && entries == old(entries)[ChatHistory := Chat(old(Transcript())
             + [ChatMessage(User, Some(question)), ChatMessage(Ai, reply)])]
      ensures !(Truthy(old(Plan())) && question != []) ==> sent == None && entries == old(entries)
    {
      sent := None;
      if Truthy(Plan()) && question != [] {
        ghost var before := Transcript();
        entries := entries[ChatHistory := Chat(Transcript() + [ChatMessage(User, Some(question))])];
        sent := Some(ChatPrompt(Plan().value, question));
        entries := entries[ChatHistory := Chat(Transcript() + [ChatMessage(Ai, reply)])];
        assert before + [ChatMessage(User, Some(question))] + [ChatMessage(Ai, reply)]
            == before + [ChatMessage(User, Some(question)), ChatMessage(Ai, reply)];
      }
    }

    /**
     * "Get Local Wellness Info" (app.py:606-610): the reply is stored as it is,
     * so a failed request stores `None`.
     */
    method FetchLocalInfo(region: string, country: string, reply: Option<string>) returns (sent: string)
      requires Ready()
      modifies this
      ensures Ready()
      ensures sent == LocalInfoPrompt(Location(region, country))
      ensures entries == old(entries)[LocalInfo := OptText(reply)]
    {
      sent := LocalInfoPrompt(Location(region, country));
      entries := entries[LocalInfo := OptText(reply)];
    }

    /** "Save Today's Gratitude" (app.py:581-582): the day's three entries, overwriting any earlier ones. */
    method SaveGratitude(today: string, g1: string, g2: string, g3: string)
      requires Ready()
      modifies this
      ensures Ready()
      ensures entries == old(entries)[Gratitude := Journal(old(Days())[today := [g1, g2, g3]])]
    {
      entries := entries[Gratitude := Journal(Days()[today := [g1, g2, g3]])];
    }

    /**
     * The ambient-noise selectbox (app.py:201-202): it opens at `NoiseIndex` of
     * the stored choice; `picked` is the option the user chose, `None` when the
     * box was left as it opened.
     */
    method SelectNoise(picked: Option<string>)
      requires Ready()
      requires picked.Some? ==> picked.value in NoiseOptions
      modifies this
      ensures Ready()
      ensures NoiseSelection() in NoiseOptions
      ensures entries == old(entries)[NoiseChoice := Name(
        if picked.Some? then picked.value else NoiseOptions[NoiseIndex(old(NoiseSelection()))])]
    {
      var shown := if picked.Some? then picked.value else NoiseOptions[NoiseIndex(NoiseSelection())];
      entries := entries[NoiseChoice := Name(shown)];
    }

    /**
     * The noise buttons (app.py:214-224). `loaded` is the encoded audio of the
     * selected track, `None` when reading it failed. Stop is handled after start.
     */
    method NoiseButtons(start: bool, stop: bool, loaded: Option<string>)
      requires Ready()
      modifies this
      ensures Ready()
      ensures NoiseOn() == (!stop && (if start then loaded.Some? else old(NoiseOn())))
      ensures NoiseAudio() == (if start && loaded.Some? then loaded else old(NoiseAudio()))
      ensures forall k :: k != NoisePlaying && k != NoiseBytes ==> entries[k] == old(entries)[k]
    {
      if start {
        if loaded.Some? {
          entries := entries[NoiseBytes := OptText(loaded)];
          entries := entries[NoisePlaying := Flag(true)];
        } else {
          entries := entries[NoisePlaying := Flag(false)];
        }
      }
      if stop {
        entries := entries[NoisePlaying := Flag(false)];
      }
    }

    /** The chime buttons (app.py:245-248); stop is handled after start. */
    method ChimeButtons(start: bool, stop: bool)
      requires Ready()
      modifies this
      ensures Ready()
      ensures ChimeOn() == (!stop && (start || old(ChimeOn())))
      ensures forall k :: k != ChimePlaying ==> entries[k] == old(entries)[k]
    {
      if start {
        entries := entries[ChimePlaying := Flag(true)];
      }
      if stop {
        entries := entries[ChimePlaying := Flag(false)];
      }
    }

    /** The tip of the day (app.py:420-421), chosen only while none is stored. */
    method ChooseDailyTip(now: int)
      requires Ready()
      modifies this
      ensures Ready()
      ensures Truthy(Tip())
      ensures Truthy(old(Tip())) ==> entries == old(entries)
      ensures !Truthy(old(Tip())) ==> entries == old(entries)[DailyTip := OptText(Some(TipOfTheDay(now)))]
    {
      if !Truthy(Tip()) {
        entries := entries[DailyTip := OptText(Some(TipOfTheDay(now)))];
      }
    }

    /**
     * The hydration reminder (app.py:481-483): more than two hours since the
     * last one shows a reminder and restarts the interval at `now`.
     */
    method CheckHydration(now: int) returns (remind: bool)
      requires Ready()
      modifies this
      ensures Ready()
      ensures remind == HydrationDue(now, old(LastDrink()))
      ensures entries == if remind then old(entries)[LastHydration := Seconds(now)] else old(entries)
    {
      remind := HydrationDue(now, LastDrink());
      if remind {
        entries := entries[LastHydration := Seconds(now)];
      }
    }
  }

  /**
   * Two plans in a row: the second discards the first plan, the questions
   * asked about it and the local information, with nothing merged.
   */
  method TwoPlansInARow(first: Profile, second: Profile, plan1: string, plan2: string, question: string, answer: Option<string>, info: string)
    requires first.goal != [] && second.goal != [] && plan1 != [] && plan2 != [] && question != []
  {
    var store := new Store();
    store.FillDefaults(0);
    assert store.Transcript() == [] && store.Plan() == None;
    var outcome, sent := store.GeneratePlan(first, Some(plan1));
    assert outcome == Generated && store.Plan() == Some(plan1);
    var asked := store.AskQuestion(question, answer);
    assert store.Transcript() == [ChatMessage(User, Some(question)), ChatMessage(Ai, answer)];
    var infoPrompt := store.FetchLocalInfo(first.region, first.country, Some(info));
    assert store.LocalInfoText() == Some(info);
    outcome, sent := store.GeneratePlan(second, Some(plan2));
    assert store.Plan() == Some(plan2) && store.Transcript() == [] && store.LocalInfoText() == None;
  }
}
