/** What one process does on its own, as a list of its operations, and how such a list becomes part of a run. */
module AgentTurns {
  import opened Wrappers
  import opened AtomicFile
  import opened Disk
  import opened Pki
  import opened Agent

  /** One operation of a process and the time of its clock then. */
  datatype Turn = Turn(now: int, action: Action)

  /** Where a process and the files are after these turns, if it can take them all. */
  function After(w: Setup, from: Place, turns: seq<Turn>): Option<Place>
    decreases |turns|
  {
    if turns == [] then Some(from)
    else
      var turn := turns[|turns| - 1];
      var p := After(w, from, turns[..|turns| - 1]);
      if p.None? || !Can(w, p.value.files, p.value.phase, turn.action) then None
      else Some(Perform(w, turn.now, p.value.files, p.value.phase, turn.action))
  }

  lemma Onward(w: Setup, from: Place, turns: seq<Turn>, turn: Turn)
    requires var p := After(w, from, turns);
             p.Some? && Can(w, p.value.files, p.value.phase, turn.action)
    ensures var p := After(w, from, turns);
            After(w, from, turns + [turn]) == Some(Perform(w, turn.now, p.value.files, p.value.phase, turn.action))
  {
    hide Perform, Can;
    assert (turns + [turn])[..|turns|] == turns;
  }

  lemma {:induction false} AfterBoth(w: Setup, from: Place, turns: seq<Turn>, more: seq<Turn>)
    requires After(w, from, turns).Some?
    ensures After(w, from, turns + more) == After(w, After(w, from, turns).value, more)
    decreases |more|
  {
    hide Perform, Can;
    if more == [] {
      assert turns + more == turns;
    } else {
      var all := turns + more;
      AfterBoth(w, from, turns, more[..|more| - 1]);
      assert all[..|all| - 1] == turns + more[..|more| - 1];
    }
  }

  /** All the turns are at one time. */
  ghost predicate AllAt(turns: seq<Turn>, now: int) {
    forall t :: t in turns ==> t.now == now
  }

  /** None of the turns asks the broker. */
  ghost predicate NoAsk(turns: seq<Turn>) {
    forall t :: t in turns ==> !t.action.Ask?
  }

  /******* Atomic writes as turns *******/

  /** A run of an atomic write is so many turns of the process that makes it. */
  lemma {:induction false} WriteTurns(w: Setup, now: int, job: Job, run: seq<Moved>, n: nat)
    returns (turns: seq<Turn>)
    requires JobSized(w, job) && IsWriterRun(JobPath(w, job), JobData(job), run) && n < |run|
    ensures AllAt(turns, now) && NoAsk(turns)
    ensures After(w, Place(run[0].files, Writing(job, Starting)), turns)
            == Some(Place(run[n].files, WriterPhase(w, job, run[n].writer)))
  {
    hide WriterNext, JobPath, JobData;
    turns := [];
    if n > 0 {
      turns := WriteTurns(w, now, job, run, n - 1);
      assert Follows(JobPath(w, job), JobData(job), run[n - 1], run[n]);
      var e :| WriterCan(JobData(job), run[n - 1].files, run[n - 1].writer, e)
               && run[n] == WriterNext(JobPath(w, job), JobData(job), run[n - 1].files, run[n - 1].writer, e);
      Onward(w, Place(run[0].files, Writing(job, Starting)), turns, Turn(now, Operate(e)));
      turns := turns + [Turn(now, Operate(e))];
    }
  }

  lemma JobTurns(w: Setup, now: int, job: Job, run: seq<Moved>, before: Files, after: Files, ok: bool)
    returns (turns: seq<Turn>)
    requires JobSized(w, job) && WriteRun(JobPath(w, job), JobData(job), run, before, after, ok)
    ensures AllAt(turns, now) && NoAsk(turns)
    ensures After(w, Place(before, Writing(job, Starting)), turns)
            == Some(Place(after, if ok then AfterJob(w, job) else Leaving(false)))
  {
    turns := WriteTurns(w, now, job, run, |run| - 1);
  }

  /** Where the writing of a bundle is after so many of its parts. */
  function PartPhase(w: Setup, i: nat, publicKey: string, bundle: Bundle, parts: nat, ok: bool): Phase {
    if !ok then Leaving(false)
    else if parts < 3 then Writing(PartJob(i, publicKey, bundle, parts), Starting)
    else Reloading(i)
  }

  lemma {:induction false} BundleTurns(
      w: Setup, now: int, i: nat, publicKey: string, bundle: Bundle, runs: seq<seq<Moved>>,
      before: Files, after: Files, ok: bool)
    returns (turns: seq<Turn>)
    requires i < |w.certificates| && WriteRuns(bundle, w.certificates[i].Paths(), runs, before, after, ok)
    ensures AllAt(turns, now) && NoAsk(turns)
    ensures After(w, Place(before, Writing(PartJob(i, publicKey, bundle, 0), Starting)), turns)
            == Some(Place(after, PartPhase(w, i, publicKey, bundle, |runs|, ok)))
    decreases |runs|
  {
    hide WriteRun, After;
    turns := [];
    if runs == [] {
      StaysPut(w, Place(before, Writing(PartJob(i, publicKey, bundle, 0), Starting)));
    } else {
      var n := |runs| - 1;
      var paths := w.certificates[i].Paths();
      var middle: Files :|
        WriteRuns(bundle, paths, runs[..n], before, middle, true)
        && WriteRun(paths[n], Parts(bundle)[n], runs[n], middle, after, ok);
      turns := BundleTurns(w, now, i, publicKey, bundle, runs[..n], before, middle, true);
      var more := JobTurns(w, now, PartJob(i, publicKey, bundle, n), runs[n], middle, after, ok);
      AfterBoth(w, Place(before, Writing(PartJob(i, publicKey, bundle, 0), Starting)), turns, more);
      turns := turns + more;
    }
  }

  lemma StaysPut(w: Setup, from: Place)
    ensures After(w, from, []) == Some(from)
  {
  }

  /******* Turns inside a run *******/

  /** Times that start no earlier than this and never go back. */
  ghost predicate InOrder(start: int, turns: seq<Turn>) {
    && (forall i :: 0 <= i < |turns| ==> start <= turns[i].now)
    && forall i, j :: 0 <= i < j < |turns| ==> turns[i].now <= turns[j].now
  }

  /** The state in which one process and the files have come to a place, with the rest as it was. */
  function Come(s: State, clock: int, a: string, p: Place): State {
    State(clock, p.files, s.agents[a := p.phase])
  }

  function LastOf(states: seq<State>): State
    requires states != []
  {
    states[|states| - 1]
  }

  lemma RunTakes(w: Setup, states: seq<State>, steps: seq<Step>, step: Step)
    returns (more: seq<State>, taken: seq<Step>)
    requires states != [] && IsRun(w, states, steps) && Enabled(w, LastOf(states), step)
    ensures more == states + [Next(w, LastOf(states), step)] && taken == steps + [step] && IsRun(w, more, taken)
  {
    hide Enabled, Next, Initial;
    more, taken := states + [Next(w, LastOf(states), step)], steps + [step];
    forall i | 0 <= i < |taken| ensures Enabled(w, more[i], taken[i]) && more[i + 1] == Next(w, more[i], taken[i]) {
      if i < |steps| {
        assert Enabled(w, states[i], steps[i]) && states[i + 1] == Next(w, states[i], steps[i]);
      }
    }
  }

  /** A step that a process takes from a place that its turns lead to. */
  ghost predicate TurnTaken(w: Setup, from: Place, turns: seq<Turn>, a: string, s: State, step: Step) {
    step.Tick?
    || exists j :: 0 <= j < |turns|
         && step == Act(a, turns[j].action) && s.clock == turns[j].now && a in s.agents
         && After(w, from, turns[..j]) == Some(Place(s.files, s.agents[a]))
  }

  /**
   A process that is at a place of a run can take its turns there, one after the other and time
   passing in between, while the others stand still.
   */
  lemma {:induction false} TurnsInRun(
      w: Setup, states: seq<State>, steps: seq<Step>, a: string, from: Place, turns: seq<Turn>, n: nat)
    returns (more: seq<State>, taken: seq<Step>)
    requires states != [] && IsRun(w, states, steps) && n <= |turns|
    requires a in LastOf(states).agents && from == Place(LastOf(states).files, LastOf(states).agents[a])
    requires InOrder(LastOf(states).clock, turns) && After(w, from, turns[..n]).Some?
    ensures more != [] && IsRun(w, more, taken) && states <= more && steps <= taken && |more| == |taken| + 1
    ensures var clock := if n == 0 then LastOf(states).clock else turns[n - 1].now;
            LastOf(more) == Come(LastOf(states), clock, a, After(w, from, turns[..n]).value)
    ensures forall k :: |steps| <= k < |taken| ==> TurnTaken(w, from, turns, a, more[k], taken[k])
  {
    hide Perform, Can, IsRun;
    RunHasLength(w, states, steps);
    var s := LastOf(states);
    if n == 0 {
      more, taken := states, steps;
      assert turns[..0] == [];
      assert s.agents[a := s.agents[a]] == s.agents;
    } else {
      var turn := turns[n - 1];
      assert turns[..n][..n - 1] == turns[..n - 1];
      more, taken := TurnsInRun(w, states, steps, a, from, turns, n - 1);
      var t := LastOf(more);
      var done := |taken|;
      more, taken := RunTakes(w, more, taken, Tick(turn.now - t.clock));
      var u := LastOf(more);
      assert u == t.(clock := turn.now);
      assert TurnTaken(w, from, turns, a, u, Act(a, turn.action));
      more, taken := RunTakes(w, more, taken, Act(a, turn.action));
    }
  }

  lemma RunHasLength(w: Setup, states: seq<State>, steps: seq<Step>)
    requires IsRun(w, states, steps)
    ensures |states| == |steps| + 1
  {
    hide Enabled, Next, Initial;
  }
}
