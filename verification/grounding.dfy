/**
 * Fitting the keyword search results into the query-decomposition prompt:
 * the `gen_msg` generator of `CollectLinks.run`, which states the prompt and
 * then trims the longest result list one item at a time, and the consumer
 * that takes the first yielded prompt within the token budget.
 */
module Grounding {
  import opened Wrappers
  import opened Text
  import opened Search

  /** The per-keyword result lists; list i belongs to keyword i. */
  type Lists = seq<seq<SearchResult>>

  datatype GroundingError =
    | MaxOfEmpty     // `max` over an empty list of result lists
    | PopFromEmpty   // `pop` on a result list that is already empty
    | ReduceFailed   // every yielded prompt was over budget

  /** One resumption of the generator: the trimmed lists and whether it then stops. */
  datatype Step = Step(next: Lists, stop: bool)

  /** What a fully drained generator produced: its states and how it ended. */
  datatype Trace = Trace(states: seq<Lists>, end: GroundingError)

  /** Number of search results over all lists. */
  function Total(rs: Lists): nat {
    if |rs| == 0 then 0 else Total(rs[..|rs| - 1]) + |rs[|rs| - 1]|
  }

  /** Number of lists holding at least one result. */
  function NonEmptyCount(rs: Lists): nat {
    if |rs| == 0 then 0
    else NonEmptyCount(rs[..|rs| - 1]) + (if |rs[|rs| - 1]| > 0 then 1 else 0)
  }

  const PromptHead: string :=
    "### Requirements\n"
    + "1. The keywords related to your research topic and the search results are shown in the \"Search Result Information\" section.\n"
    + "2. Provide up to "
  const PromptMiddle: string :=
    " queries related to your research topic base on the search results.\n"
    + "3. Please respond in the following JSON format: [\"query1\", \"query2\", \"query3\", ...].\n"
    + "\n"
    + "### Search Result Information\n"

  /** The "Search Result Information" block: one entry per keyword paired with its list. */
  function ResultsBlock(keywords: seq<string>, rs: Lists): string {
    var n := if |keywords| < |rs| then |keywords| else |rs|;
    Join("\n", seq(n, i requires 0 <= i < n =>
      "#### Keyword: " + keywords[i] + "\n Search Result: " + ShowList(rs[i]) + "\n"))
  }

  /** The prompt yielded for the current lists. */
  function Prompt(nums: int, keywords: seq<string>, rs: Lists): string {
    PromptHead + IntToString(nums) + PromptMiddle + ResultsBlock(keywords, rs) + "\n"
  }

  /** Python's `max(rs, key=len)`: the index of the first longest list. */
  function FirstLongest(rs: Lists): (i: nat)
    requires |rs| > 0
    ensures i < |rs|
    ensures forall j :: 0 <= j < |rs| ==> |rs[j]| <= |rs[i]|
    ensures forall j :: 0 <= j < i ==> |rs[j]| < |rs[i]|
  {
    if |rs| == 1 then 0
    else
      var j := FirstLongest(rs[..|rs| - 1]);
      if |rs[|rs| - 1]| > |rs[j]| then |rs| - 1 else j
  }

  /** Replacing one list changes the total by the difference in its length. */
  lemma {:induction false} TotalUpdate(rs: Lists, i: nat, x: seq<SearchResult>)
    requires i < |rs|
    ensures Total(rs[i := x]) == Total(rs) - |rs[i]| + |x|
    ensures (|rs[i]| > 0 && |x| > 0) ==> NonEmptyCount(rs[i := x]) == NonEmptyCount(rs)
  {
    var n := |rs| - 1;
    if i < n {
      TotalUpdate(rs[..n], i, x);
      assert rs[i := x][..n] == rs[..n][i := x];
    } else {
      assert rs[i := x][..n] == rs[..n];
    }
  }

  /** A total of zero means every list is empty. */
  lemma {:induction false} TotalZero(rs: Lists)
    ensures Total(rs) == 0 <==> forall j :: 0 <= j < |rs| ==> |rs[j]| == 0
  {
    if |rs| > 0 {
      TotalZero(rs[..|rs| - 1]);
      assert forall j :: 0 <= j < |rs| - 1 ==> rs[..|rs| - 1][j] == rs[j];
    }
  }

  /** When no list holds more than one result, the total is the number of non-empty lists. */
  lemma {:induction false} TotalOfSingletons(rs: Lists)
    requires forall j :: 0 <= j < |rs| ==> |rs[j]| <= 1
    ensures Total(rs) == NonEmptyCount(rs)
  {
    if |rs| > 0 {
      TotalOfSingletons(rs[..|rs| - 1]);
    }
  }

  /** There are never more non-empty lists than results. */
  lemma {:induction false} NonEmptyAtMostTotal(rs: Lists)
    ensures NonEmptyCount(rs) <= Total(rs)
    ensures Total(rs) > 0 ==> NonEmptyCount(rs) >= 1
  {
    if |rs| > 0 {
      NonEmptyAtMostTotal(rs[..|rs| - 1]);
    }
  }

  /**
   * One resumption of the generator after a yield: pop the last item of the
   * first longest list, and stop if that list is now empty.
   */
  function TrimStep(rs: Lists): (r: Result<Step, GroundingError>)
    ensures |rs| == 0 ==> r == Err(MaxOfEmpty)
    ensures |rs| > 0 && Total(rs) == 0 ==> r == Err(PopFromEmpty)
    ensures r.Ok? <==> Total(rs) > 0
    ensures r.Ok? ==>
      var i := FirstLongest(rs);
      && |rs[i]| >= 1
      && |r.value.next| == |rs|
      && r.value.next[i] == rs[i][..|rs[i]| - 1]
      && (forall j :: 0 <= j < |rs| && j != i ==> r.value.next[j] == rs[j])
      && Total(r.value.next) == Total(rs) - 1
      && (r.value.stop <==> |rs[i]| == 1)
  {
    TotalZero(rs);
    if |rs| == 0 then Err(MaxOfEmpty)
    else
      var i := FirstLongest(rs);
      if |rs[i]| == 0 then Err(PopFromEmpty)
      else
        var next := rs[i := rs[i][..|rs[i]| - 1]];
        TotalUpdate(rs, i, rs[i][..|rs[i]| - 1]);
        Ok(Step(next, |next[i]| == 0))
  }

  /** Everything the generator states when its consumer keeps asking, and how it ends. */
  function Drain(rs: Lists): (t: Trace)
    ensures |t.states| >= 1 && t.states[0] == rs
    ensures forall k :: 0 <= k < |t.states| - 1 ==>
      TrimStep(t.states[k]) == Ok(Step(t.states[k + 1], false))
    ensures var last := t.states[|t.states| - 1];
      match TrimStep(last)
      case Err(e) => t.end == e
      case Ok(st) => st.stop && t.end == ReduceFailed
    decreases Total(rs)
  {
    match TrimStep(rs)
    case Err(e) => Trace([rs], e)
    case Ok(st) =>
      if st.stop then Trace([rs], ReduceFailed)
      else
        var t := Drain(st.next);
        Trace([rs] + t.states, t.end)
  }

  /**
   * The generator states `Total - NonEmptyCount + 1` prompts, each with one
   * result fewer than the one before, and then runs dry; it fails on its
   * first resumption when there are no results at all.
   */
  lemma DrainCount(rs: Lists)
    ensures Total(rs) > 0 ==>
      |Drain(rs).states| == Total(rs) - NonEmptyCount(rs) + 1 && Drain(rs).end == ReduceFailed
    ensures Total(rs) == 0 ==> |Drain(rs).states| == 1
    ensures forall k :: 0 <= k < |Drain(rs).states| ==>
      Total(Drain(rs).states[k]) == Total(rs) - k && |Drain(rs).states[k]| == |rs|
  {
    DrainLength(rs);
    DrainTotals(rs);
  }

  /** The number of states and how the generator ends. */
  lemma {:induction false} DrainLength(rs: Lists)
    ensures Total(rs) > 0 ==>
      |Drain(rs).states| == Total(rs) - NonEmptyCount(rs) + 1 && Drain(rs).end == ReduceFailed
    ensures Total(rs) == 0 ==> |Drain(rs).states| == 1
    decreases Total(rs)
  {
    var r := TrimStep(rs);
    if r.Ok? {
      var i := FirstLongest(rs);
      var st := r.value;
      if !st.stop {
        var x := rs[i][..|rs[i]| - 1];
        assert st.next == rs[i := x];
        assert |rs[i]| >= 2 && |x| >= 1;
        TotalUpdate(rs, i, x);
        TotalZero(st.next);
        assert Total(st.next) == Total(rs) - 1 > 0;
        assert NonEmptyCount(st.next) == NonEmptyCount(rs);
        DrainLength(st.next);
        assert Drain(rs) == Trace([rs] + Drain(st.next).states, Drain(st.next).end);
      } else {
        assert forall j :: 0 <= j < |rs| ==> |rs[j]| <= 1;
        TotalOfSingletons(rs);
      }
    }
  }

  /** Each state holds one result fewer than the one before it, over as many lists. */
  lemma {:induction false} DrainTotals(rs: Lists)
    ensures forall k :: 0 <= k < |Drain(rs).states| ==>
      Total(Drain(rs).states[k]) == Total(rs) - k && |Drain(rs).states[k]| == |rs|
    decreases Total(rs)
  {
    var r := TrimStep(rs);
    if r.Ok? && !r.value.stop {
      var next := r.value.next;
      DrainTotals(next);
      var ys, t := Drain(rs).states, Drain(next).states;
      assert ys == [rs] + t;
      forall k | 0 <= k < |ys|
        ensures Total(ys[k]) == Total(rs) - k && |ys[k]| == |rs|
      {
        if k > 0 {
          assert ys[k] == t[k - 1];
        }
      }
    }
  }

  /** The number of states never exceeds the number of search results. */
  lemma YieldsAtMostTotal(rs: Lists)
    requires Total(rs) > 0
    ensures |Drain(rs).states| <= Total(rs)
  {
    DrainCount(rs);
    NonEmptyAtMostTotal(rs);
  }

  /**
   * The last prompt the generator states still carries results: it gives up
   * while every list holds at most one item, not once every list is empty.
   */
  lemma LastYieldHasSingletons(rs: Lists)
    requires Total(rs) > 0
    ensures var ys := Drain(rs).states; var last := ys[|ys| - 1];
      && Total(last) >= 1
      && |last| == |rs|
      && forall j :: 0 <= j < |last| ==> |last[j]| <= 1
  {
    DrainCount(rs);
    var ys := Drain(rs).states;
    var last := ys[|ys| - 1];
    var i := FirstLongest(last);
    assert |last[i]| == 1;
  }

  /**
   * `reduce_message_length` over `gen_msg`, where `render` turns the current
   * lists into the yielded prompt: the first yielded prompt the
   * budget predicate accepts; the generator is resumed only while prompts
   * are rejected.
   */
  function Fit(render: Lists -> string, rs: Lists, fits: string -> bool): Result<string, GroundingError>
    decreases Total(rs)
  {
    var p := render(rs);
    if fits(p) then Ok(p)
    else
      match TrimStep(rs)
      case Err(e) => Err(e)
      case Ok(st) => if st.stop then Err(ReduceFailed) else Fit(render, st.next, fits)
  }

  /** The prompt text of every state the generator yields. */
  function Prompts(render: Lists -> string, ys: seq<Lists>): (ps: seq<string>)
    ensures |ps| == |ys|
  {
    seq(|ys|, k requires 0 <= k < |ys| => render(ys[k]))
  }

  /** `ps[k]` is the first prompt the budget accepts. */
  ghost predicate FirstAccepted(fits: string -> bool, ps: seq<string>, k: int) {
    0 <= k < |ps| && fits(ps[k]) && forall j :: 0 <= j < k ==> !fits(ps[j])
  }

  /** `r` is the first prompt of `ps` that `fits` accepts, or `end` when it accepts none. */
  ghost predicate FirstAcceptedOrNone(r: Result<string, GroundingError>, ps: seq<string>, fits: string -> bool, end: GroundingError) {
    && (r.Ok? ==> exists k :: FirstAccepted(fits, ps, k) && r.value == ps[k])
    && (r.Err? ==> r.error == end && forall k :: 0 <= k < |ps| ==> !fits(ps[k]))
  }

  /**
   * The fitted prompt is the first yielded prompt the budget accepts; when
   * fitting fails, no yielded prompt is accepted and the error is how the
   * generator ended.
   */
  lemma {:induction false} FitIsFirstAccepted(render: Lists -> string, rs: Lists, fits: string -> bool)
    ensures FirstAcceptedOrNone(Fit(render, rs, fits), Prompts(render, Drain(rs).states), fits, Drain(rs).end)
    decreases Total(rs)
  {
    var r := Fit(render, rs, fits);
    if fits(render(rs)) {
      assert Prompts(render, Drain(rs).states)[0] == render(rs);
      assert FirstAccepted(fits, Prompts(render, Drain(rs).states), 0);
    } else {
      var step := TrimStep(rs);
      if step.Ok? && !step.value.stop {
        var next := step.value.next;
        FitIsFirstAccepted(render, next, fits);
        FitUnroll(render, rs, fits);
        PromptsCons(render, rs, Drain(next).states);
        RejectedHeadKeepsFirst(r, render(rs), Prompts(render, Drain(next).states), fits, Drain(rs).end);
      }
    }
  }

  /** Rejecting a prompt and resuming the generator is fitting from the trimmed lists. */
  lemma FitUnroll(render: Lists -> string, rs: Lists, fits: string -> bool)
    requires !fits(render(rs)) && TrimStep(rs).Ok? && !TrimStep(rs).value.stop
    ensures var next := TrimStep(rs).value.next;
      && Fit(render, rs, fits) == Fit(render, next, fits)
      && Drain(rs) == Trace([rs] + Drain(next).states, Drain(next).end)
  {
  }

  lemma PromptsCons(render: Lists -> string, x: Lists, ys: seq<Lists>)
    ensures Prompts(render, [x] + ys) == [render(x)] + Prompts(render, ys)
  {
  }

  /** A rejected prompt in front shifts the first accepted one by one place. */
  lemma RejectedHeadKeepsFirst(r: Result<string, GroundingError>, p: string, qs: seq<string>, fits: string -> bool, end: GroundingError)
    requires FirstAcceptedOrNone(r, qs, fits, end) && !fits(p)
    ensures FirstAcceptedOrNone(r, [p] + qs, fits, end)
  {
    var ps := [p] + qs;
    if r.Ok? {
      var k :| FirstAccepted(fits, qs, k) && r.value == qs[k];
      assert FirstAccepted(fits, ps, k + 1);
    } else {
      forall k | 0 <= k < |ps|
        ensures !fits(ps[k])
      {
        if k > 0 { assert ps[k] == qs[k - 1]; }
      }
    }
  }
}
