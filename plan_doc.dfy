/**
 * What the script does with the stored plan text: the sections shown one box
 * each (`re.split(r'\n(?=## )', plan)`, app.py:471) and the list of blocks that
 * `generate_plan_pdf` hands to the document builder (app.py:41-47).
 */
module PlanDoc {
  import opened Text

  // ---------------------------------------------------------------------------
  // Section split
  // ---------------------------------------------------------------------------

  /** A split point of `\n(?=## )`: a newline followed by `"## "`. */
  predicate IsBreak(s: string, i: int) {
    0 <= i < |s| && s[i] == '\n' && StartsWith(s[i + 1..], "## ")
  }

  /** The first split point at or after `from`, or `|s|` when there is none. */
  function FirstBreak(s: string, from: nat): (r: nat)
    requires from <= |s|
    ensures from <= r <= |s|
    ensures r < |s| ==> IsBreak(s, r)
    ensures forall j :: from <= j < r ==> !IsBreak(s, j)
    decreases |s| - from
  {
    if from == |s| then |s|
    else if IsBreak(s, from) then from
    else FirstBreak(s, from + 1)
  }

  /** `re.split(r'\n(?=## )', s)`: the pieces between split points, the newlines dropped. */
  function SplitSections(s: string): (r: seq<string>)
    ensures |r| >= 1
    decreases |s|
  {
    var i := FirstBreak(s, 0);
    if i == |s| then [s] else [s[..i]] + SplitSections(s[i + 1..])
  }

  /** Joining the sections with newlines gives the plan back. */
  lemma {:induction false} SectionsJoin(s: string)
    ensures Join(SplitSections(s), "\n") == s
    decreases |s|
  {
    var i := FirstBreak(s, 0);
    if i < |s| {
      var rest := SplitSections(s[i + 1..]);
      SectionsJoin(s[i + 1..]);
      assert SplitSections(s)[1..] == rest;
      assert s == s[..i] + "\n" + s[i + 1..];
    }
  }

  /** The first section of a text that starts with `"## "` starts with it too. */
  lemma {:induction false} FirstSectionKeepsHeading(t: string)
    requires StartsWith(t, "## ")
    ensures StartsWith(SplitSections(t)[0], "## ")
  {
    assert !IsBreak(t, 0) && !IsBreak(t, 1) && !IsBreak(t, 2);
    var i := FirstBreak(t, 0);
    assert i >= 3;
    if i < |t| {
      assert SplitSections(t)[0] == t[..i];
      assert t[..i][..3] == t[..3];
    }
  }

  /** Every section after the first begins with `"## "`. */
  lemma {:induction false} SectionsStartWithHeading(s: string)
    ensures forall k :: 0 < k < |SplitSections(s)| ==> StartsWith(SplitSections(s)[k], "## ")
    decreases |s|
  {
    var i := FirstBreak(s, 0);
    if i < |s| {
      var t := s[i + 1..];
      SectionsStartWithHeading(t);
      FirstSectionKeepsHeading(t);
      assert SplitSections(s)[1..] == SplitSections(t);
    }
  }

  /** A text without split points does not contain `"\n## "`. */
  lemma {:induction false} NoBreakNoMarker(s: string, n: nat)
    requires n <= |s|
    requires forall j :: 0 <= j < n ==> !IsBreak(s, j)
    ensures !Contains(s[..n], "\n## ")
  {
    if Contains(s[..n], "\n## ") {
      var j :| 0 <= j <= n && OccursAt(s[..n], "\n## ", j);
      assert s[..n][j..j + 4] == s[j..j + 4];
      assert s[j + 1..][..3] == s[j + 1..j + 4];
      assert IsBreak(s, j);
      assert false;
    }
  }

  /** No section contains `"\n## "`: every such place was a split point. */
  lemma {:induction false} SectionsHaveNoBreak(s: string)
    ensures forall k :: 0 <= k < |SplitSections(s)| ==> !Contains(SplitSections(s)[k], "\n## ")
    decreases |s|
  {
    var i := FirstBreak(s, 0);
    NoBreakNoMarker(s, i);
    assert s[..|s|] == s;
    if i < |s| {
      SectionsHaveNoBreak(s[i + 1..]);
      assert SplitSections(s)[1..] == SplitSections(s[i + 1..]);
    }
  }

  lemma {:induction false} BreakIsMarker(s: string, j: int)
    requires IsBreak(s, j)
    ensures OccursAt(s, "\n## ", j)
  {
    assert s[j + 1..][..3] == s[j + 1..j + 4];
  }

  lemma {:induction false} JoinStartsWithFirst(parts: seq<string>, sep: string)
    requires |parts| >= 1
    ensures StartsWith(Join(parts, sep), parts[0])
  {
    if |parts| > 1 {
      assert Join(parts, sep) == parts[0] + (sep + Join(parts[1..], sep));
    }
  }

  /**
   * The split is the only one with these properties: any list of pieces that
   * joins to `s`, whose later pieces start with `"## "` and none of which
   * contains `"\n## "`, is `SplitSections(s)`.
   */
  lemma {:induction false} SectionsUnique(s: string, r: seq<string>)
    requires |r| >= 1 && Join(r, "\n") == s
    requires forall k :: 0 < k < |r| ==> StartsWith(r[k], "## ")
    requires forall k :: 0 <= k < |r| ==> !Contains(r[k], "\n## ")
    ensures r == SplitSections(s)
    decreases |r|
  {
    var i := FirstBreak(s, 0);
    if |r| == 1 {
      if i < |s| {
        BreakIsMarker(s, i);
      }
    } else {
      var n := |r[0]|;
      var t := Join(r[1..], "\n");
      assert s == r[0] + "\n" + t;
      assert s[n + 1..] == t;
      JoinStartsWithFirst(r[1..], "\n");
      assert StartsWith(r[1], "## ");
      assert t[..3] == r[1][..3];
      assert IsBreak(s, n);
      forall j | 0 <= j < n
        ensures !IsBreak(s, j)
      {
        if j + 4 <= n {
          assert s[j..j + 4] == r[0][j..j + 4];
          assert !OccursAt(r[0], "\n## ", j);
          assert s[j + 1..][..3] == s[j + 1..j + 4];
        } else {
          assert s[n] == '\n';
          assert s[j + 1..][n - j - 1] == '\n';
        }
      }
      assert i == n;
      assert s[..n] == r[0];
      SectionsUnique(t, r[1..]);
      assert r == [r[0]] + r[1..];
    }
  }

  // ---------------------------------------------------------------------------
  // generate_plan_pdf: the list of blocks
  // ---------------------------------------------------------------------------

  /** Paragraphs in the `h1`, `h2` and `Normal` styles, and a spacer. */
  datatype Block = Title(text: string) | Spacer(width: nat, height: nat) | Heading(text: string) | Body(text: string)

  const StoryTitle: string := "Your Personalized Wellness Plan"

  /** `plan_text.replace('###', '').replace('**', '')`. */
  function CleanPlan(planText: string): string {
    Replace(Replace(planText, "###", ""), "**", "")
  }

  /** The document's blocks for a plan: the title, a spacer, then one block per line. */
  method BuildStory(planText: string) returns (story: seq<Block>)
    ensures var lines := SplitLines(CleanPlan(planText));
      && |story| == |lines| + 2
      && story[0] == Title(StoryTitle) && story[1] == Spacer(1, 24)
      && forall i :: 0 <= i < |lines| ==>
           && (story[i + 2].Heading? <==> StartsWith(lines[i], "## "))
           && (story[i + 2].Heading? ==> story[i + 2].text == Replace(lines[i], "## ", ""))
           && (!story[i + 2].Heading? ==> story[i + 2] == Body(lines[i]))
  {
    story := [Title(StoryTitle), Spacer(1, 24)];
    var lines := SplitLines(CleanPlan(planText));
    for n := 0 to |lines|
      invariant |story| == n + 2
      invariant story[0] == Title(StoryTitle) && story[1] == Spacer(1, 24)
      invariant forall i :: 0 <= i < n ==>
           && (story[i + 2].Heading? <==> StartsWith(lines[i], "## "))
           && (story[i + 2].Heading? ==> story[i + 2].text == Replace(lines[i], "## ", ""))
           && (!story[i + 2].Heading? ==> story[i + 2] == Body(lines[i]))
    {
      var line := lines[n];
      if |line| >= 3 && line[..3] == "## " {
        story := story + [Heading(Replace(line, "## ", ""))];
      } else {
        story := story + [Body(line)];
      }
    }
  }

  /** No two consecutive `*` characters. */
  predicate NoStarPair(t: string) {
    forall j :: 0 <= j < |t| - 1 ==> !(t[j] == '*' && t[j + 1] == '*')
  }

  /** Removing `"**"` from a text that does not start with it keeps its first character. */
  lemma {:induction false} RemoveBoldKeepsHead(s: string)
    requires s != [] && !StartsWith(s, "**")
    ensures Replace(s, "**", "") != [] && Replace(s, "**", "")[0] == s[0]
  {
  }

  /** After `replace('**', '')` no `*` is followed by another: a kept `*` never precedes one. */
  lemma {:induction false} RemoveBoldLeavesNoPair(s: string)
    ensures NoStarPair(Replace(s, "**", ""))
    decreases |s|
  {
    var r := Replace(s, "**", "");
    if |s| >= 2 {
      if s[..2] == "**" {
        RemoveBoldLeavesNoPair(s[2..]);
        assert r == "" + Replace(s[2..], "**", "");
        assert "" + Replace(s[2..], "**", "") == Replace(s[2..], "**", "");
      } else {
        var rest := Replace(s[1..], "**", "");
        RemoveBoldLeavesNoPair(s[1..]);
        assert r == [s[0]] + rest;
        if s[0] == '*' {
          assert s[1] != '*';
          RemoveBoldKeepsHead(s[1..]);
        }
        forall j | 0 <= j < |r| - 1
          ensures !(r[j] == '*' && r[j + 1] == '*')
        {
          if j > 0 {
            assert r[j] == rest[j - 1] && r[j + 1] == rest[j];
          }
        }
      }
    }
  }

  /** After `replace('**', '')` no `"**"` is left. */
  lemma {:induction false} RemoveBoldLeavesNone(s: string)
    ensures !Contains(Replace(s, "**", ""), "**")
  {
    var r := Replace(s, "**", "");
    RemoveBoldLeavesNoPair(s);
    forall j | 0 <= j <= |r|
      ensures !OccursAt(r, "**", j)
    {
      if j <= |r| - 2 {
        assert r[j..j + 2][0] == r[j] && r[j..j + 2][1] == r[j + 1];
      }
    }
  }

  /** The text whose lines become blocks has no `"**"` markers left. */
  lemma {:induction false} CleanPlanHasNoBold(planText: string)
    ensures !Contains(CleanPlan(planText), "**")
  {
    RemoveBoldLeavesNone(Replace(planText, "###", ""));
  }

  /**
   * A heading line's text: the leading `## ` and, as `str.replace` does, every
   * later `## ` are removed; a heading without a second `## ` keeps the rest of
   * its line unchanged.
   */
  lemma {:induction false} HeadingText(rest: string)
    ensures Replace("## " + rest, "## ", "") == Replace(rest, "## ", "")
    ensures (forall i :: !OccursAt(rest, "## ", i)) ==> Replace("## " + rest, "## ", "") == rest
  {
    ReplaceFirst([], "## ", rest, "");
    assert [] + "## " + rest == "## " + rest;
  }

  /**
   * Because `###` is removed before `**`, a `**` inside a run of `#` can leave
   * a `###` behind: `"#**##"` cleans to `"###"`.
   */
  lemma CleanPlanCanLeaveHashes()
    ensures CleanPlan("#**##") == "###"
    ensures Contains(CleanPlan("#**##"), "###")
  {
    var t := "#**##";
    forall i ensures !OccursAt(t, "###", i) {
      if i == 0 {
        assert t[0..3][1] == '*';
      } else if i == 1 {
        assert t[1..4][0] == '*';
      } else if i == 2 {
        assert t[2..5][0] == '*';
      }
    }
    assert Replace(t, "###", "") == t;
    assert t == "#" + "**" + "##";
    assert !OccursAt(t, "**", 0) by {
      assert t[0..2][0] == '#';
    }
    ReplaceFirst("#", "**", "##", "");
    forall i ensures !OccursAt("##", "**", i) {
      if i == 0 {
        assert "##"[0..2][0] == '#';
      }
    }
    assert Replace("##", "**", "") == "##";
    assert CleanPlan(t) == "#" + "" + "##";
    assert CleanPlan(t) == "###";
    assert OccursAt("###", "###", 0);
  }
}
