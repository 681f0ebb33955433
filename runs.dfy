/**
 * The run-polling state machine shared by both drivers: a run is retrieved
 * again and again; a `requires_action` snapshot triggers the driver's
 * action (observe and submit tool outputs); the loop stops after the first
 * snapshot whose status is terminal. The remote service is a script: the
 * sequence of snapshots successive retrievals return.
 */
module Runs {
  import opened Wrappers
  import opened ToolCalls

  /**
   * A run as `runs.retrieve` returns it; `toolCalls` is
   * `required_action.submit_tool_outputs.tool_calls`.
   */
  datatype RunSnapshot = RunSnapshot(id: string, threadId: string, status: string, toolCalls: seq<ToolCall>)

  const RequiresAction: string := "requires_action"
  const FinishStatuses: seq<string> := ["cancelled", "failed", "completed", "expired"]

  predicate IsTerminal(status: string) {
    status in FinishStatuses
  }

  /** The calls a driver makes on the remote service and on its observer, in order. */
  datatype Event =
    | Retrieved(run: RunSnapshot)
    | Observed(calls: seq<ToolCall>)
    | Submitted(submission: Submission)

  /** What a driver does for one requires_action snapshot: its calls, then possibly the error it throws. */
  datatype Step = Step(events: seq<Event>, error: Option<Error>)

  /**
   * How a drive ends: with the snapshot it returns, with an error it throws,
   * or unfinished because the script ran out before a terminal status.
   */
  datatype Outcome = Finished(run: RunSnapshot) | Aborted(error: Error) | Unfinished

  /**
   * The do-while loop of retrieveRunUntilFinish: retrieve; on requires_action
   * run the action; stop on an error or on a terminal status, else poll again.
   */
  function Drive(script: seq<RunSnapshot>, act: RunSnapshot -> Step): (r: (Outcome, seq<Event>))
    ensures r.1 == [] <==> script == []
    ensures script != [] ==> r.1[0] == Retrieved(script[0])
    ensures r.0.Finished? ==> IsTerminal(r.0.run.status)
    decreases |script|
  {
    if script == [] then (Unfinished, [])
    else Poll(script[0], StepOf(script[0], act), Drive(script[1..], act))
  }

  /**
   * One iteration: retrieving `run` and taking `step` either ends the drive
   * or continues with the drive of the rest of the script, `next`.
   */
  function Poll(run: RunSnapshot, step: Step, next: (Outcome, seq<Event>)): (r: (Outcome, seq<Event>)) {
    var head := [Retrieved(run)] + step.events;
    if step.error.Some? then (Aborted(step.error.value), head)
    else if IsTerminal(run.status) then (Finished(run), head)
    else (next.0, head + next.1)
  }

  /** Unfolding the drive of the script from position i. */
  lemma DriveAt(script: seq<RunSnapshot>, i: nat, act: RunSnapshot -> Step)
    requires i < |script|
    ensures Drive(script[i..], act) == Poll(script[i], StepOf(script[i], act), Drive(script[i + 1..], act))
  {
    assert script[i..][1..] == script[i + 1..];
  }

  /** What one poll does after retrieving `run`: the action on requires_action, nothing otherwise. */
  function StepOf(run: RunSnapshot, act: RunSnapshot -> Step): (r: Step) {
    if run.status == RequiresAction then act(run) else Step([], None)
  }

  /**
   * One iteration of a loop that has produced `trace` and has the drive of
   * script[i..] still to do: the drive ends here on an error or a terminal
   * status, or goes on with script[i + 1..].
   */
  lemma DriveAdvance(script: seq<RunSnapshot>, i: nat, act: RunSnapshot -> Step, trace: seq<Event>)
    requires i < |script|
    ensures var run := script[i];
            var step := StepOf(run, act);
            var t := trace + ([Retrieved(run)] + step.events);
            var rest := Drive(script[i..], act);
            var next := Drive(script[i + 1..], act);
            (step.error.Some? ==> rest.0 == Aborted(step.error.value) && trace + rest.1 == t) &&
            (step.error.None? && IsTerminal(run.status) ==> rest.0 == Finished(run) && trace + rest.1 == t) &&
            (step.error.None? && !IsTerminal(run.status) ==> rest.0 == next.0 && trace + rest.1 == t + next.1)
  {
    var run := script[i];
    var step := StepOf(run, act);
    var head := [Retrieved(run)] + step.events;
    var next := Drive(script[i + 1..], act);
    DriveAt(script, i, act);
    assert Drive(script[i..], act) == Poll(run, step, next);
    if step.error.None? && !IsTerminal(run.status) {
      assert trace + (head + next.1) == (trace + head) + next.1;
    }
  }

  /** A loop that has read the whole script has done the whole drive. */
  lemma DriveDone(script: seq<RunSnapshot>, i: nat, act: RunSnapshot -> Step, trace: seq<Event>)
    requires i == |script|
    requires Drive(script, act).0 == Drive(script[i..], act).0
    requires Drive(script, act).1 == trace + Drive(script[i..], act).1
    ensures Drive(script, act).0 == Unfinished && Drive(script, act).1 == trace
  {
    var rest := script[i..];
    assert rest == [];
    assert Drive(rest, act) == (Unfinished, []);
    assert trace + [] == trace;
  }

  /** The snapshots retrieved, in order. */
  function Retrievals(events: seq<Event>): seq<RunSnapshot> {
    if events == [] then []
    else (if events[0].Retrieved? then [events[0].run] else []) + Retrievals(events[1..])
  }

  /** The submissions made, in order. */
  function Submissions(events: seq<Event>): seq<Submission> {
    if events == [] then []
    else (if events[0].Submitted? then [events[0].submission] else []) + Submissions(events[1..])
  }

  /** The number of requires_action snapshots among `runs`. */
  function ActionCount(runs: seq<RunSnapshot>): nat {
    if runs == [] then 0
    else (if runs[0].status == RequiresAction then 1 else 0) + ActionCount(runs[1..])
  }

  /** The calls of one poll: the retrieval, then the action when the snapshot requires one. */
  function Block(run: RunSnapshot, act: RunSnapshot -> Step): seq<Event> {
    [Retrieved(run)] + (if run.status == RequiresAction then act(run).events else [])
  }

  function Blocks(runs: seq<RunSnapshot>, act: RunSnapshot -> Step): seq<Event> {
    if runs == [] then [] else Block(runs[0], act) + Blocks(runs[1..], act)
  }

  /** The action never retrieves the run itself. */
  ghost predicate RetrievesNothing(act: RunSnapshot -> Step) {
    forall r :: Retrievals(act(r).events) == []
  }

  /** The action submits exactly once when it succeeds and not at all when it throws. */
  ghost predicate SubmitsOnce(act: RunSnapshot -> Step) {
    forall r :: |Submissions(act(r).events)| == if act(r).error.None? then 1 else 0
  }

  lemma {:induction false} RetrievalsAppend(a: seq<Event>, b: seq<Event>)
    ensures Retrievals(a + b) == Retrievals(a) + Retrievals(b)
  {
    if a != [] {
      assert (a + b)[1..] == a[1..] + b;
      RetrievalsAppend(a[1..], b);
    } else {
      assert a + b == b;
    }
  }

  lemma {:induction false} SubmissionsAppend(a: seq<Event>, b: seq<Event>)
    ensures Submissions(a + b) == Submissions(a) + Submissions(b)
  {
    if a != [] {
      assert (a + b)[1..] == a[1..] + b;
      SubmissionsAppend(a[1..], b);
    } else {
      assert a + b == b;
    }
  }

  lemma {:induction false} ActionCountAppend(a: seq<RunSnapshot>, b: seq<RunSnapshot>)
    ensures ActionCount(a + b) == ActionCount(a) + ActionCount(b)
  {
    if a != [] {
      assert (a + b)[1..] == a[1..] + b;
      ActionCountAppend(a[1..], b);
    } else {
      assert a + b == b;
    }
  }

  /** The first poll retrieves exactly the first snapshot of the script. */
  lemma HeadRetrievals(run: RunSnapshot, act: RunSnapshot -> Step)
    requires RetrievesNothing(act)
    ensures var step := StepOf(run, act);
            Retrievals([Retrieved(run)] + step.events) == [run]
  {
    var step := StepOf(run, act);
    RetrievalsAppend([Retrieved(run)], step.events);
    assert Retrievals(step.events) == [];
  }

  /** The snapshots a drive retrieves are a prefix of the script, all of it when unfinished. */
  lemma {:induction false} DriveRetrievesPrefix(script: seq<RunSnapshot>, act: RunSnapshot -> Step)
    requires RetrievesNothing(act)
    ensures var (o, t) := Drive(script, act);
            var k := |Retrievals(t)|;
            k <= |script| && Retrievals(t) == script[..k] &&
            (o.Unfinished? ==> k == |script|)
  {
    if script != [] {
      var run := script[0];
      var step := StepOf(run, act);
      var head := [Retrieved(run)] + step.events;
      HeadRetrievals(run, act);
      if step.error.None? && !IsTerminal(run.status) {
        var tail := script[1..];
        var next := Drive(tail, act);
        DriveRetrievesPrefix(tail, act);
        RetrievalsAppend(head, next.1);
        var k := |Retrievals(next.1)|;
        assert script[..k + 1] == [run] + tail[..k];
      }
    }
  }

  /**
   * The last snapshot retrieved decides how the drive ends: a finished
   * drive returns it and it is terminal; an aborted drive stopped on it
   * because its action threw.
   */
  lemma {:induction false} DriveEndsAtLastRetrieved(script: seq<RunSnapshot>, act: RunSnapshot -> Step)
    requires RetrievesNothing(act)
    ensures var (o, t) := Drive(script, act);
            var r := Retrievals(t);
            (o.Finished? ==> |r| > 0 && o.run == r[|r| - 1] && IsTerminal(o.run.status)) &&
            (o.Aborted? ==> |r| > 0 && r[|r| - 1].status == RequiresAction &&
                            act(r[|r| - 1]).error == Some(o.error))
  {
    if script != [] {
      var run := script[0];
      var step := StepOf(run, act);
      var head := [Retrieved(run)] + step.events;
      HeadRetrievals(run, act);
      if step.error.None? && !IsTerminal(run.status) {
        var next := Drive(script[1..], act);
        DriveEndsAtLastRetrieved(script[1..], act);
        RetrievalsAppend(head, next.1);
      }
    }
  }

  /**
   * Every snapshot retrieved before the last one is non-terminal and its
   * action succeeded; an unfinished drive met no terminal status at all.
   */
  lemma {:induction false} DrivePassesEarlierSnapshots(script: seq<RunSnapshot>, act: RunSnapshot -> Step)
    requires RetrievesNothing(act)
    ensures var (o, t) := Drive(script, act);
            var r := Retrievals(t);
            (forall j :: 0 <= j < |r| - 1 ==> !IsTerminal(r[j].status)) &&
            (forall j :: 0 <= j < |r| - 1 && r[j].status == RequiresAction ==> act(r[j]).error.None?) &&
            (o.Unfinished? ==> forall j :: 0 <= j < |r| ==> !IsTerminal(r[j].status))
  {
    if script != [] {
      var run := script[0];
      var step := StepOf(run, act);
      var head := [Retrieved(run)] + step.events;
      HeadRetrievals(run, act);
      if step.error.None? && !IsTerminal(run.status) {
        var next := Drive(script[1..], act);
        DrivePassesEarlierSnapshots(script[1..], act);
        RetrievalsAppend(head, next.1);
        var r' := Retrievals(next.1);
        var r := [run] + r';
        forall j | 0 < j < |r|
          ensures r[j] == r'[j - 1]
        {
        }
      }
    }
  }

  /** Facts about the retrieved snapshots `r`, restated by their positions in the script. */
  lemma RetrievedAsScript(script: seq<RunSnapshot>, act: RunSnapshot -> Step, o: Outcome, r: seq<RunSnapshot>)
    requires |r| <= |script| && r == script[..|r|] && (o.Unfinished? ==> |r| == |script|)
    requires o.Finished? ==> |r| > 0 && o.run == r[|r| - 1] && IsTerminal(o.run.status)
    requires o.Aborted? ==> |r| > 0 && r[|r| - 1].status == RequiresAction && act(r[|r| - 1]).error == Some(o.error)
    requires forall j :: 0 <= j < |r| - 1 ==> !IsTerminal(r[j].status)
    requires forall j :: 0 <= j < |r| - 1 && r[j].status == RequiresAction ==> act(r[j]).error.None?
    requires o.Unfinished? ==> forall j :: 0 <= j < |r| ==> !IsTerminal(r[j].status)
    ensures var k := |r|;
            k <= |script| && r == script[..k] &&
            (forall j :: 0 <= j < k - 1 ==> !IsTerminal(script[j].status)) &&
            (forall j :: 0 <= j < k - 1 && script[j].status == RequiresAction ==> act(script[j]).error.None?) &&
            (o.Finished? ==> k > 0 && o.run == script[k - 1] && IsTerminal(o.run.status)) &&
            (o.Aborted? ==> k > 0 && script[k - 1].status == RequiresAction &&
                            act(script[k - 1]).error == Some(o.error)) &&
            (o.Unfinished? ==> k == |script| && forall j :: 0 <= j < k ==> !IsTerminal(script[j].status))
  {
    forall j | 0 <= j < |r|
      ensures script[j] == r[j]
    {
    }
  }

  /**
   * The drive retrieves a prefix of the script and no further: every
   * snapshot before the last one retrieved is non-terminal and its action
   * succeeded, and the last one ends the drive.
   */
  lemma DriveStopsAtFirstTerminal(script: seq<RunSnapshot>, act: RunSnapshot -> Step)
    requires RetrievesNothing(act)
    ensures var (o, t) := Drive(script, act);
            var k := |Retrievals(t)|;
            k <= |script| && Retrievals(t) == script[..k] &&
            (forall j :: 0 <= j < k - 1 ==> !IsTerminal(script[j].status)) &&
            (forall j :: 0 <= j < k - 1 && script[j].status == RequiresAction ==> act(script[j]).error.None?) &&
            (o.Finished? ==> k > 0 && o.run == script[k - 1] && IsTerminal(o.run.status)) &&
            (o.Aborted? ==> k > 0 && script[k - 1].status == RequiresAction &&
                            act(script[k - 1]).error == Some(o.error)) &&
            (o.Unfinished? ==> k == |script| && forall j :: 0 <= j < k ==> !IsTerminal(script[j].status))
  {
    DriveRetrievesPrefix(script, act);
    DriveEndsAtLastRetrieved(script, act);
    DrivePassesEarlierSnapshots(script, act);
    var d := Drive(script, act);
    RetrievedAsScript(script, act, d.0, Retrievals(d.1));
  }

  /**
   * Conversely: when snapshot i is the first terminal one and every
   * requires_action snapshot before it is answered without error, the
   * drive returns snapshot i after retrieving exactly the first i + 1.
   */
  lemma {:induction false} DriveReturnsFirstTerminal(script: seq<RunSnapshot>, act: RunSnapshot -> Step, i: nat)
    requires RetrievesNothing(act)
    requires i < |script| && IsTerminal(script[i].status)
    requires forall j :: 0 <= j < i ==> !IsTerminal(script[j].status)
    requires forall j :: 0 <= j < i && script[j].status == RequiresAction ==> act(script[j]).error.None?
    ensures Drive(script, act).0 == Finished(script[i])
    ensures Retrievals(Drive(script, act).1) == script[..i + 1]
  {
    DriveStopsAtFirstTerminal(script, act);
    if i > 0 {
      assert !IsTerminal(script[0].status);
      assert script[0].status == RequiresAction ==> act(script[0]).error.None?;
      DriveReturnsFirstTerminal(script[1..], act, i - 1);
    }
  }

  /**
   * The calls a drive makes are one block per retrieved snapshot: a
   * status other than requires_action causes nothing but its retrieval.
   */
  lemma {:induction false} DriveIsBlocks(script: seq<RunSnapshot>, act: RunSnapshot -> Step)
    requires RetrievesNothing(act)
    ensures Drive(script, act).1 == Blocks(Retrievals(Drive(script, act).1), act)
  {
    if script != [] {
      var run := script[0];
      var step := StepOf(run, act);
      var head := [Retrieved(run)] + step.events;
      HeadRetrievals(run, act);
      if step.error.Some? || IsTerminal(run.status) {
        assert Blocks([run], act) == Block(run, act) + Blocks([], act);
      } else {
        var next := Drive(script[1..], act);
        DriveIsBlocks(script[1..], act);
        RetrievalsAppend(head, next.1);
        assert ([run] + Retrievals(next.1))[1..] == Retrievals(next.1);
      }
    }
  }

  /**
   * One submission per requires_action snapshot retrieved, less the one
   * whose action threw when the drive was aborted.
   */
  lemma {:induction false} DriveSubmitsOncePerAction(script: seq<RunSnapshot>, act: RunSnapshot -> Step)
    requires RetrievesNothing(act) && SubmitsOnce(act)
    ensures var (o, t) := Drive(script, act);
            |Submissions(t)| + (if o.Aborted? then 1 else 0) == ActionCount(Retrievals(t))
  {
    if script != [] {
      var run := script[0];
      var step := StepOf(run, act);
      var head := [Retrieved(run)] + step.events;
      HeadRetrievals(run, act);
      SubmissionsAppend([Retrieved(run)], step.events);
      assert ActionCount([run]) == (if run.status == RequiresAction then 1 else 0) + ActionCount([]);
      if step.error.None? && !IsTerminal(run.status) {
        var next := Drive(script[1..], act);
        DriveSubmitsOncePerAction(script[1..], act);
        RetrievalsAppend(head, next.1);
        SubmissionsAppend(head, next.1);
        ActionCountAppend([run], Retrievals(next.1));
      }
    }
  }
}
