/**
 * The small pure rules behind the sidebar and the "Local Wellness & Tools" tab:
 * the ambient-noise selectbox index, the tip and fact of the day, the hydration
 * interval, the quiz check and the gratitude-history listing.
 */
module Widgets {
  import opened Wrappers
  import opened Text

  // ---------------------------------------------------------------------------
  // Ambient noise selectbox (app.py:194-201)
  // ---------------------------------------------------------------------------

  /** The keys of `NOISE_OPTIONS`, in their dictionary order. */
  const NoiseOptions: seq<string> := ["White Noise", "Rain", "Brown Noise"]

  const DefaultNoise: string := "White Noise"

  /** `xs.index(x)`: the position of the first occurrence of `x`. */
  function IndexOf(xs: seq<string>, x: string): (r: nat)
    requires x in xs
    ensures r < |xs| && xs[r] == x
    ensures forall j :: 0 <= j < r ==> xs[j] != x
  {
    if xs[0] == x then 0 else 1 + IndexOf(xs[1..], x)
  }

  /**
   * The index the selectbox opens at: the position of the stored choice when it
   * is one of the options, otherwise 0.
   */
  function NoiseIndex(choice: string): (r: nat)
    ensures r < |NoiseOptions|
    ensures choice in NoiseOptions ==> NoiseOptions[r] == choice
    ensures choice !in NoiseOptions ==> r == 0
  {
    if choice in NoiseOptions then IndexOf(NoiseOptions, choice) else 0
  }

  // ---------------------------------------------------------------------------
  // Tip and fact of the day (app.py:413-421, 594-601)
  // ---------------------------------------------------------------------------

  const DailyTips: seq<string> := [
    "A 5-minute walk after meals helps stabilize energy.",
    "Stack habits: tie water sips to app switches or calls.",
    "Slow your exhale: 4-in / 6-out reduces stress fast.",
    "Keep fruit visible; you\U{2019}ll eat it more.",
    "Protect sleep: same wake-up time every day."
  ]

  const Facts: seq<string> := [
    "Long exhale stimulates the parasympathetic (calming) response.",
    "Light morning sunlight helps anchor your body clock.",
    "Journaling for 5 minutes can reduce rumination.",
    "Walking meetings boost creativity in many small studies.",
    "A tidy desk can reduce cognitive load and decision fatigue."
  ]

  const SecondsPerDay: int := 86400

  /** `int(now) % len(DAILY_TIPS)`, `now` in whole seconds (Python's `%` is never negative here). */
  function TipIndex(now: int): (r: nat)
    ensures r < |DailyTips|
  {
    now % |DailyTips|
  }

  function TipOfTheDay(now: int): (tip: string)
    ensures tip in DailyTips && tip != []
  {
    DailyTips[TipIndex(now)]
  }

  /** `int(now // 86400) % len(facts)`: the day number since the epoch, modulo the list length. */
  function FactIndex(now: int): (r: nat)
    ensures r < |Facts|
  {
    (now / SecondsPerDay) % |Facts|
  }

  function FactOfTheDay(now: int): (fact: string)
    ensures fact in Facts
  {
    Facts[FactIndex(now)]
  }

  /** Within day `d` (seconds `86400 * d` up to, not including, `86400 * (d + 1)`) the fact is `d mod 5`. */
  lemma FactIndexOfDay(now: int, d: int)
    requires SecondsPerDay * d <= now < SecondsPerDay * (d + 1)
    ensures FactIndex(now) == d % |Facts|
  {
  }

  /** Two instants of the same day show the same fact. */
  lemma FactStableWithinDay(t1: int, t2: int, d: int)
    requires SecondsPerDay * d <= t1 < SecondsPerDay * (d + 1)
    requires SecondsPerDay * d <= t2 < SecondsPerDay * (d + 1)
    ensures FactIndex(t1) == FactIndex(t2)
  {
    FactIndexOfDay(t1, d);
    FactIndexOfDay(t2, d);
  }

  /** One day later the next fact of the list is shown, cycling after the last. */
  lemma FactNextDay(now: int)
    ensures FactIndex(now + SecondsPerDay) == (FactIndex(now) + 1) % |Facts|
  {
    var d := now / SecondsPerDay;
    FactIndexOfDay(now, d);
    FactIndexOfDay(now + SecondsPerDay, d + 1);
  }

  // ---------------------------------------------------------------------------
  // Hydration reminder (app.py:481-483)
  // ---------------------------------------------------------------------------

  /** `2 * 60 * 60` seconds. */
  const HydrationInterval: int := 2 * 60 * 60

  predicate HydrationDue(now: int, last: int) {
    now - last > HydrationInterval
  }

  // ---------------------------------------------------------------------------
  // Quiz (app.py:616-626)
  // ---------------------------------------------------------------------------

  const QuizOptions: seq<string> := [
    "Taking long daytime naps",
    "Keeping a consistent wake-up time",
    "Drinking more coffee in the afternoon",
    "Heavy late-night workouts"
  ]

  const QuizAnswer: string := "Keeping a consistent wake-up time"

  datatype QuizVerdict = NoPick | Correct | Wrong

  /** The feedback for the radio selection, `None` when nothing is picked. */
  function CheckAnswer(picked: Option<string>): (v: QuizVerdict)
    ensures v == NoPick <==> picked.None?
    ensures v == Correct <==> picked == Some(QuizAnswer)
    ensures v == Wrong <==> picked.Some? && picked.value != QuizAnswer
  {
    if picked.None? then NoPick
    else if picked.value == QuizAnswer then Correct
    else Wrong
  }

  /** Exactly one of the offered options, the second, is judged correct. */
  lemma {:induction false} ExactlyOneCorrectOption()
    ensures forall i :: 0 <= i < |QuizOptions| ==> (CheckAnswer(Some(QuizOptions[i])) == Correct <==> i == 1)
  {
    forall i | 0 <= i < |QuizOptions|
      ensures CheckAnswer(Some(QuizOptions[i])) == Correct <==> i == 1
    {
    }
  }

  // ---------------------------------------------------------------------------
  // Gratitude history (app.py:584-590)
  // ---------------------------------------------------------------------------

  /** `it and it.strip()`: the item has a character that is not whitespace (see `Text.StripEmpty`). */
  predicate NonBlank(item: string) {
    !AllSpace(item)
  }

  datatype NumberedItem = NumberedItem(number: nat, text: string)

  datatype HistoryDay = HistoryDay(date: string, items: seq<NumberedItem>)

  /**
   * `enumerate(items, start)` keeping only the non-blank items: each kept item
   * carries its original number.
   */
  function NumberNonBlank(items: seq<string>, start: nat): (r: seq<NumberedItem>)
    ensures |r| <= |items|
    ensures forall k :: 0 <= k < |r| ==> start <= r[k].number < start + |items|
    ensures forall k :: 0 <= k < |r| ==> r[k].text == items[r[k].number - start] && NonBlank(r[k].text)
  {
    if items == [] then []
    else
      var rest := NumberNonBlank(items[1..], start + 1);
      if NonBlank(items[0]) then [NumberedItem(start, items[0])] + rest else rest
  }

  predicate Increasing(r: seq<NumberedItem>) {
    forall k, l :: 0 <= k < l < |r| ==> r[k].number < r[l].number
  }

  /** The numbers of the listed items increase strictly. */
  lemma {:induction false} NumberNonBlankIncreasing(items: seq<string>, start: nat)
    ensures Increasing(NumberNonBlank(items, start))
  {
    if items != [] {
      var rest := NumberNonBlank(items[1..], start + 1);
      NumberNonBlankIncreasing(items[1..], start + 1);
      var r := NumberNonBlank(items, start);
      if NonBlank(items[0]) {
        assert r == [NumberedItem(start, items[0])] + rest;
      } else {
        assert r == rest;
      }
    }
  }

  /** Every non-blank item is listed, under its original number. */
  lemma {:induction false} NumberNonBlankComplete(items: seq<string>, start: nat, j: nat)
    requires j < |items| && NonBlank(items[j])
    ensures NumberedItem(start + j, items[j]) in NumberNonBlank(items, start)
  {
    var r := NumberNonBlank(items, start);
    var rest := NumberNonBlank(items[1..], start + 1);
    if j == 0 {
      assert r[0] == NumberedItem(start, items[0]);
    } else {
      NumberNonBlankComplete(items[1..], start + 1, j - 1);
      assert items[1..][j - 1] == items[j];
      assert r == rest || r == [NumberedItem(start, items[0])] + rest;
    }
  }

  ghost predicate IsLatest(m: string, dates: set<string>) {
    m in dates && forall k :: k in dates ==> k == m || Less(k, m)
  }

  lemma {:induction false} LatestExists(dates: set<string>)
    requires dates != {}
    ensures exists m :: IsLatest(m, dates)
    decreases |dates|
  {
    var x :| x in dates;
    var rest := dates - {x};
    if rest == {} {
      assert dates == {x};
      assert IsLatest(x, dates);
    } else {
      LatestExists(rest);
      var m :| IsLatest(m, rest);
      if Less(m, x) {
        forall k | k in dates
          ensures k == x || Less(k, x)
        {
          if k != x && k != m {
            LessTransitive(k, m, x);
          }
        }
        assert IsLatest(x, dates);
      } else {
        if x != m {
          LessTotal(x, m);
        }
        assert IsLatest(m, dates);
      }
    }
  }

  /** `sorted(dates, reverse=True)`: all the dates, latest first. */
  ghost function SortedDescending(dates: set<string>): (r: seq<string>)
    ensures |r| == |dates|
    ensures forall i :: 0 <= i < |r| ==> r[i] in dates
    ensures forall d :: d in dates ==> d in r
    ensures forall i, j :: 0 <= i < j < |r| ==> Less(r[j], r[i])
    decreases |dates|
  {
    if dates == {} then []
    else
      LatestExists(dates);
      var m :| IsLatest(m, dates);
      [m] + SortedDescending(dates - {m})
  }

  /** One history entry per date, in the order given, each with its non-blank items numbered from 1. */
  function HistoryOf(dates: seq<string>, journal: map<string, seq<string>>): (r: seq<HistoryDay>)
    requires forall i :: 0 <= i < |dates| ==> dates[i] in journal
    ensures |r| == |dates|
    ensures forall i :: 0 <= i < |r| ==> r[i] == HistoryDay(dates[i], NumberNonBlank(journal[dates[i]], 1))
  {
    if dates == [] then []
    else [HistoryDay(dates[0], NumberNonBlank(journal[dates[0]], 1))] + HistoryOf(dates[1..], journal)
  }

  /** Listing the dates in descending order keeps the entries in descending order. */
  lemma HistoryOfOrder(dates: seq<string>, journal: map<string, seq<string>>)
    requires forall i :: 0 <= i < |dates| ==> dates[i] in journal
    requires forall i, j :: 0 <= i < j < |dates| ==> Less(dates[j], dates[i])
    ensures forall i, j :: 0 <= i < j < |HistoryOf(dates, journal)| ==>
      Less(HistoryOf(dates, journal)[j].date, HistoryOf(dates, journal)[i].date)
  {
  }

  /** Every date of the journal has an entry in `r`. */
  ghost predicate CoversJournal(r: seq<HistoryDay>, journal: map<string, seq<string>>) {
    forall d :: d in journal ==> exists i :: 0 <= i < |r| && r[i].date == d
  }

  /** A date that is listed has an entry. */
  lemma HistoryOfCovers(dates: seq<string>, journal: map<string, seq<string>>)
    requires forall i :: 0 <= i < |dates| ==> dates[i] in journal
    requires forall d :: d in journal ==> d in dates
    ensures CoversJournal(HistoryOf(dates, journal), journal)
  {
    var r := HistoryOf(dates, journal);
    forall d | d in journal
      ensures exists i :: 0 <= i < |r| && r[i].date == d
    {
      var i :| 0 <= i < |dates| && dates[i] == d;
      assert r[i].date == d;
    }
  }

  /**
   * The "View Gratitude History" listing: one entry per saved date, latest
   * first, each with its non-blank items numbered from 1.
   */
  ghost function GratitudeHistory(journal: map<string, seq<string>>): (r: seq<HistoryDay>)
    ensures |r| == |journal|
    ensures forall i :: 0 <= i < |r| ==> r[i].date in journal && r[i].items == NumberNonBlank(journal[r[i].date], 1)
    ensures forall d :: d in journal ==> exists i :: 0 <= i < |r| && r[i].date == d
    ensures forall i, j :: 0 <= i < j < |r| ==> Less(r[j].date, r[i].date)
  {
    var dates := SortedDescending(journal.Keys);
    HistoryOfOrder(dates, journal);
    HistoryOfCovers(dates, journal);
    HistoryOf(dates, journal)
  }
}
