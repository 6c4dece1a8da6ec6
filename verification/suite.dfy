/**
 * The suite runner: choose the tests from the command line, run them one
 * after another (each to its end), print a verdict after each, and repeat
 * the whole list the requested number of times.
 *
 * A test's run is an input here: either it completes, adding some number of
 * failures to the test object's running count, or it ends the process.
 */
module Suite {
  /** The tests the suite knows, by number; the button test is not registered. */
  const Registry: seq<int> := [1, 2, 3, 4]

  // ----- selecting the tests -----

  /** The tests to run, or the number that has no test (the runner exits with code 2). */
  datatype Selection = Selected(tests: seq<int>) | NoSuchTest(n: int)

  /** The exit code of a bad selection. */
  const BadSelectionExitCode: int := 2

  /** A number names a registered test. */
  predicate Names(n: int) {
    1 <= n <= |Registry|
  }

  /** The check the selection loop applies as written: a number below the registry's length. */
  predicate AcceptedAsWritten(n: int) {
    0 < n < |Registry|
  }

  /**
   * The selection loop as written: it accepts a number only when it is below
   * the registry's length, keeps the accepted tests in the order given, one
   * per number, and otherwise reports the first number it rejects.
   */
  function PickAsWritten(numbers: seq<int>): (s: Selection)
    ensures s.Selected? <==> forall k :: 0 <= k < |numbers| ==> AcceptedAsWritten(numbers[k])
    ensures s.Selected? ==> |s.tests| == |numbers|
    ensures s.Selected? ==> forall k :: 0 <= k < |numbers| ==> s.tests[k] == Registry[numbers[k] - 1]
    ensures s.NoSuchTest? ==>
              exists k :: 0 <= k < |numbers| && numbers[k] == s.n && !AcceptedAsWritten(numbers[k])
                          && forall j :: 0 <= j < k ==> AcceptedAsWritten(numbers[j])
    decreases |numbers|
  {
    if |numbers| == 0 then Selected([])
    else
      var n := numbers[0];
      if AcceptedAsWritten(n) then
        match PickAsWritten(numbers[1..])
        case Selected(rest) =>
          assert forall k :: 1 <= k < |numbers| ==> numbers[k] == numbers[1..][k - 1];
          Selected([Registry[n - 1]] + rest)
        case NoSuchTest(m) =>
          var k :| 0 <= k < |numbers[1..]| && numbers[1..][k] == m && !AcceptedAsWritten(numbers[1..][k])
                   && forall j :: 0 <= j < k ==> AcceptedAsWritten(numbers[1..][j]);
          assert numbers[k + 1] == m && forall j :: 0 <= j < k + 1 ==> AcceptedAsWritten(numbers[j]);
          NoSuchTest(m)
      else NoSuchTest(n)
  }

  /** The last registered test cannot be chosen by number as written. */
  lemma LastTestRejectedAsWritten()
    ensures PickAsWritten([4]) == NoSuchTest(4)
    ensures Pick([4]) == Selected([4])
  {
  }

  /**
   * The selection loop with every registered number accepted: the tests in
   * the order given (duplicates kept), or the first number that names no
   * test.
   */
  function Pick(numbers: seq<int>): (s: Selection)
    ensures s.Selected? <==> forall k :: 0 <= k < |numbers| ==> Names(numbers[k])
    ensures s.Selected? ==> s.tests == numbers
    ensures s.NoSuchTest? ==>
              exists k :: 0 <= k < |numbers| && numbers[k] == s.n && !Names(numbers[k])
                          && forall j :: 0 <= j < k ==> Names(numbers[j])
    decreases |numbers|
  {
    if |numbers| == 0 then Selected([])
    else
      var n := numbers[0];
      if Names(n) then
        match Pick(numbers[1..])
        case Selected(rest) =>
          assert numbers == [n] + numbers[1..];
          Selected([n] + rest)
        case NoSuchTest(m) =>
          var k :| 0 <= k < |numbers[1..]| && numbers[1..][k] == m && !Names(numbers[1..][k])
                   && forall j :: 0 <= j < k ==> Names(numbers[1..][j]);
          assert numbers[k + 1] == m && forall j :: 0 <= j < k + 1 ==> Names(numbers[j]);
          NoSuchTest(m)
      else NoSuchTest(n)
  }

  /** `--all` runs the whole registry; otherwise the numbers choose. */
  function Select(runAll: bool, numbers: seq<int>): (s: Selection)
    ensures runAll ==> s == Selected(Registry)
    ensures !runAll ==> s == Pick(numbers)
    ensures s.Selected? ==> forall k :: 0 <= k < |s.tests| ==> Names(s.tests[k])
  {
    if runAll then Selected(Registry) else Pick(numbers)
  }

  // ----- running the tests -----

  /** How the process ends, as far as the runner can tell. */
  datatype End = Exited(code: int) | Raised(error: string) | StillRunning

  /** How one started test ends: it completes having added failures to its count, or it ends the process. */
  datatype TestRun = Done(added: nat) | Ended(end: End)

  /** A test started, with the skip-the-bootstrap flag it was given. */
  datatype Start = Start(test: int, skipInitialUpdate: bool)

  /** What `print_test_results` prints. */
  datatype Verdict = Pass(test: int) | Fail(test: int, failures: nat)

  /** Everything the runner does: the tests it starts, the verdicts it prints, and how it ends. */
  datatype Report = Report(starts: seq<Start>, verdicts: seq<Verdict>, end: End)

  /**
   * The runner's state between tests: the list, the position in it, the
   * pass through the list, whether the bootstrap was done, and each test
   * object's failure count (test objects are shared, so counts accumulate
   * across repeated runs).
   */
  datatype Runner = Runner(toRun: seq<int>, index: nat, loop: nat, initialDone: bool, failures: seq<nat>)

  predicate WellFormed(s: Runner) {
    && |s.failures| == |Registry|
    && (forall k :: 0 <= k < |s.toRun| ==> Names(s.toRun[k]))
  }

  /** The runner as the suite starts it. */
  function Initial(toRun: seq<int>): (s: Runner)
    requires forall k :: 0 <= k < |toRun| ==> Names(toRun[k])
    ensures WellFormed(s) && s.index == 0 && s.loop == 0 && !s.initialDone
    ensures forall n :: Names(n) ==> s.failures[n - 1] == 0
  {
    Runner(toRun, 0, 0, false, [0, 0, 0, 0])
  }

  /** `FAIL` exactly when the test's running count is positive. */
  function VerdictOf(test: int, failures: nat): (v: Verdict)
    ensures v.test == test
    ensures v.Pass? <==> failures == 0
    ensures v.Fail? ==> v.failures == failures
  {
    if failures > 0 then Fail(test, failures) else Pass(test)
  }

  /** Run the current test, adding what it reports to its count. */
  function Account(s: Runner, added: nat): (s': Runner)
    requires WellFormed(s) && s.index < |s.toRun|
    ensures WellFormed(s') && s'.toRun == s.toRun && s'.index == s.index && s'.loop == s.loop
    ensures s'.initialDone
    ensures s'.failures[s.toRun[s.index] - 1] == s.failures[s.toRun[s.index] - 1] + added
    ensures forall n :: Names(n) && n != s.toRun[s.index] ==> s'.failures[n - 1] == s.failures[n - 1]
  {
    var n := s.toRun[s.index];
    s.(failures := s.failures[n - 1 := s.failures[n - 1] + added], initialDone := true)
  }

  /**
   * `runLoop` as written: the verdict is read from the registry at the
   * list's position rather than from the list, and after a pass through the
   * list that is not the last, the position is never reset, so the next
   * look at the running test indexes past the list's end.
   */
  function RunLoopAsWritten(loops: int, s: Runner, runs: seq<TestRun>): (rep: Report)
    requires WellFormed(s)
    ensures s.index >= |s.toRun| ==> rep == Report([], [], Raised("IndexError"))
    ensures |rep.verdicts| <= |rep.starts|
    ensures rep.end == Exited(0) && |rep.verdicts| == |rep.starts| ==> s.loop + 1 >= loops
    decreases |runs|
  {
    if s.index >= |s.toRun| then Report([], [], Raised("IndexError"))
    else
      var st := Start(s.toRun[s.index], s.initialDone);
      if |runs| == 0 then Report([st], [], StillRunning)
      else match runs[0]
        case Ended(e) => Report([st], [], e)
        case Done(added) =>
          var s1 := Account(s, added);
          if s.index >= |Registry| then Report([st], [], Raised("IndexError"))
          else
            var v := VerdictOf(Registry[s.index], s1.failures[s.index]);
            if s.index + 1 >= |s.toRun| then
              if s.loop + 1 >= loops then Report([st], [v], Exited(0))
              else Report([st], [v], Raised("IndexError"))
            else
              var rest := RunLoopAsWritten(loops, AdvanceAsWritten(s, added), runs[1..]);
              Report([st] + rest.starts, [v] + rest.verdicts, rest.end)
  }

  /** The next position the runner as written moves to after the test at `s.index` reports `added` failures. */
  function AdvanceAsWritten(s: Runner, added: nat): (s': Runner)
    requires WellFormed(s) && s.index < |s.toRun|
    ensures WellFormed(s') && s'.toRun == s.toRun && s'.index == s.index + 1
  {
    Account(s, added).(index := s.index + 1)
  }

  /** One test run by the runner as written, when more of the list remains: its start and verdict come first, then the rest's. */
  lemma AsWrittenStep(loops: int, s: Runner, runs: seq<TestRun>)
    requires WellFormed(s) && s.index + 1 < |s.toRun| && s.index < |Registry| && |runs| > 0 && runs[0].Done?
    ensures var rep := RunLoopAsWritten(loops, s, runs);
      var rest := RunLoopAsWritten(loops, AdvanceAsWritten(s, runs[0].added), runs[1..]);
      && rep.starts == [Start(s.toRun[s.index], s.initialDone)] + rest.starts
      && |rep.verdicts| == 1 + |rest.verdicts| && rep.verdicts[0].test == Registry[s.index]
      && rep.verdicts[1..] == rest.verdicts
  {
  }

  /** When the list ends, the test fails to report, or the registry runs out, the runner as written stops after at most the current test. */
  lemma AsWrittenLast(loops: int, s: Runner, runs: seq<TestRun>)
    requires WellFormed(s)
    requires !(s.index + 1 < |s.toRun| && s.index < |Registry| && |runs| > 0 && runs[0].Done?)
    ensures var rep := RunLoopAsWritten(loops, s, runs);
      && |rep.starts| <= 1 && |rep.verdicts| <= |rep.starts|
      && (|rep.starts| == 1 ==> s.index < |s.toRun| && rep.starts[0].test == s.toRun[s.index])
      && (|rep.verdicts| == 1 ==> s.index < |Registry| && rep.verdicts[0].test == Registry[s.index])
  {
  }

  /** `starts` names the tests of `toRun` in order from position `i`. */
  predicate StartsFrom(toRun: seq<int>, i: nat, starts: seq<Start>) {
    && (|starts| > 0 ==> i + |starts| <= |toRun|)
    && forall k :: 0 <= k < |starts| ==> starts[k].test == toRun[i + k]
  }

  /** `verdicts` name the registry's tests in order from position `i`. */
  predicate VerdictsFrom(i: nat, verdicts: seq<Verdict>) {
    && (|verdicts| > 0 ==> i + |verdicts| <= |Registry|)
    && forall k :: 0 <= k < |verdicts| ==> verdicts[k].test == Registry[i + k]
  }

  lemma StartsFromCons(toRun: seq<int>, i: nat, st: Start, rest: seq<Start>)
    requires i < |toRun| && st.test == toRun[i] && StartsFrom(toRun, i + 1, rest)
    ensures StartsFrom(toRun, i, [st] + rest)
  {
    var starts := [st] + rest;
    forall k | 0 <= k < |starts| ensures starts[k].test == toRun[i + k] {
      if k > 0 {
        assert starts[k] == rest[k - 1];
      }
    }
  }

  lemma VerdictsFromCons(i: nat, v: Verdict, rest: seq<Verdict>)
    requires i < |Registry| && v.test == Registry[i] && VerdictsFrom(i + 1, rest)
    ensures VerdictsFrom(i, [v] + rest)
  {
    var verdicts := [v] + rest;
    forall k | 0 <= k < |verdicts| ensures verdicts[k].test == Registry[i + k] {
      if k > 0 {
        assert verdicts[k] == rest[k - 1];
      }
    }
  }

  /** The runner as written starts the list's tests in order from its position, and never past the list's end. */
  lemma {:induction false} AsWrittenStartsFollowList(loops: int, s: Runner, runs: seq<TestRun>)
    requires WellFormed(s)
    ensures StartsFrom(s.toRun, s.index, RunLoopAsWritten(loops, s, runs).starts)
    decreases |runs|
  {
    if s.index + 1 < |s.toRun| && s.index < |Registry| && |runs| > 0 && runs[0].Done? {
      var s2 := AdvanceAsWritten(s, runs[0].added);
      AsWrittenStep(loops, s, runs);
      AsWrittenStartsFollowList(loops, s2, runs[1..]);
      StartsFromCons(s.toRun, s.index, Start(s.toRun[s.index], s.initialDone), RunLoopAsWritten(loops, s2, runs[1..]).starts);
    } else {
      AsWrittenLast(loops, s, runs);
    }
  }

  /**
   * Each verdict the runner as written prints names the registry's test at
   * the list's position, whichever test was run there.
   */
  lemma {:induction false} AsWrittenVerdictsFromRegistry(loops: int, s: Runner, runs: seq<TestRun>)
    requires WellFormed(s)
    ensures VerdictsFrom(s.index, RunLoopAsWritten(loops, s, runs).verdicts)
    decreases |runs|
  {
    var rep := RunLoopAsWritten(loops, s, runs);
    if s.index + 1 < |s.toRun| && s.index < |Registry| && |runs| > 0 && runs[0].Done? {
      var s2 := AdvanceAsWritten(s, runs[0].added);
      AsWrittenStep(loops, s, runs);
      AsWrittenVerdictsFromRegistry(loops, s2, runs[1..]);
      VerdictsFromCons(s.index, rep.verdicts[0], RunLoopAsWritten(loops, s2, runs[1..]).verdicts);
      assert rep.verdicts == [rep.verdicts[0]] + rep.verdicts[1..];
    } else {
      AsWrittenLast(loops, s, runs);
    }
  }

  /** With a second pass requested, the runner as written raises after the first pass, having run every test once. */
  lemma SecondPassRaisesAsWritten(runs: seq<TestRun>)
    requires |runs| == 2 && runs[0].Done? && runs[1].Done?
    ensures RunLoopAsWritten(2, Initial([1, 2]), runs).end == Raised("IndexError")
    ensures RunLoop(2, Initial([1, 2]), runs).end == StillRunning
  {
    var s1 := Account(Initial([1, 2]), runs[0].added).(index := 1);
    var s2 := Account(s1, runs[1].added).(index := 0, loop := 1);
    assert runs[1..][1..] == [];
    assert RunLoop(2, s2, []).end == StillRunning;
    assert RunLoop(2, s1, runs[1..]).end == StillRunning;
  }

  /** The verdict printed for test 2 alone is the verdict of test 1, which never ran: a failing test 2 is reported as passing. */
  lemma WrongVerdictAsWritten()
    ensures RunLoopAsWritten(1, Initial([2]), [Done(3)]).verdicts == [Pass(1)]
    ensures RunLoop(1, Initial([2]), [Done(3)]).verdicts == [Fail(2, 3)]
  {
  }

  /**
   * The runner with the verdict read from the list and the position reset
   * for each further pass: each started test gets the verdict for its own
   * running count, every start after the first skips the bootstrap, and
   * the runner exits with code 0 after the last pass.
   */
  function RunLoop(loops: int, s: Runner, runs: seq<TestRun>): (rep: Report)
    requires WellFormed(s)
    ensures |rep.starts| >= |rep.verdicts|
    ensures |rep.starts| <= |runs| + 1
    ensures |s.toRun| == 0 ==> rep == Report([], [], Raised("IndexError"))
    ensures s.index < |s.toRun| ==> |rep.starts| > 0 && rep.starts[0] == Start(s.toRun[s.index], s.initialDone)
    ensures forall k :: 0 < k < |rep.starts| ==> rep.starts[k].skipInitialUpdate
    ensures forall k :: 0 <= k < |rep.verdicts| ==> rep.verdicts[k].test == rep.starts[k].test
    ensures forall k :: 0 <= k < |rep.starts| ==> rep.starts[k].test in s.toRun
    decreases |runs|
  {
    if s.index >= |s.toRun| then Report([], [], Raised("IndexError"))
    else
      var st := Start(s.toRun[s.index], s.initialDone);
      if |runs| == 0 then Report([st], [], StillRunning)
      else match runs[0]
        case Ended(e) => Report([st], [], e)
        case Done(added) =>
          var s1 := Account(s, added);
          var v := VerdictOf(s.toRun[s.index], s1.failures[s.toRun[s.index] - 1]);
          if s.index + 1 >= |s.toRun| && s.loop + 1 >= loops then Report([st], [v], Exited(0))
          else
            var rest := RunLoop(loops, Next(s1), runs[1..]);
            Report([st] + rest.starts, [v] + rest.verdicts, rest.end)
  }

  /** The position after a completed test: the next test of the list, or the start of the next pass. */
  function Next(s: Runner): (n: Runner)
    requires s.index < |s.toRun|
    ensures n.toRun == s.toRun && n.initialDone == s.initialDone && n.failures == s.failures
  {
    if s.index + 1 >= |s.toRun| then s.(index := 0, loop := s.loop + 1) else s.(index := s.index + 1)
  }

  /** A completed test that is not the last of the last pass: its start and verdict come first, and the runner goes on from the next position. */
  lemma RunLoopStep(loops: int, s: Runner, runs: seq<TestRun>)
    requires WellFormed(s) && s.index < |s.toRun| && |runs| > 0 && runs[0].Done?
    requires !(s.index + 1 >= |s.toRun| && s.loop + 1 >= loops)
    ensures var rep := RunLoop(loops, s, runs);
            var rest := RunLoop(loops, Next(Account(s, runs[0].added)), runs[1..]);
            && rep.end == rest.end
            && rep.starts == [Start(s.toRun[s.index], s.initialDone)] + rest.starts
            && |rep.verdicts| == 1 + |rest.verdicts|
  {
  }

  /** The schedule: the list, once per pass. */
  function Schedule(toRun: seq<int>, passes: nat): (sched: seq<int>)
    ensures forall k :: 0 <= k < |sched| ==> sched[k] in toRun
  {
    if passes == 0 then [] else toRun + Schedule(toRun, passes - 1)
  }

  /** The schedule holds every test of the list once per pass. */
  lemma {:induction false} ScheduleLength(toRun: seq<int>, passes: nat)
    ensures |Schedule(toRun, passes)| == passes * |toRun|
  {
    if passes > 0 {
      ScheduleLength(toRun, passes - 1);
    }
  }

  /** The schedule from a position on: the test there, then the rest of its pass or the following passes. */
  lemma ScheduleStep(toRun: seq<int>, passes: nat, index: nat)
    requires passes > 0 && index < |toRun|
    ensures Schedule(toRun, passes)[index..] ==
            [toRun[index]] + (if index + 1 >= |toRun| then Schedule(toRun, passes - 1) else Schedule(toRun, passes)[index + 1..])
  {
    var sched := Schedule(toRun, passes);
    assert sched == toRun + Schedule(toRun, passes - 1);
    assert sched[index..] == [sched[index]] + sched[index + 1..];
    if index + 1 >= |toRun| {
      assert sched[index + 1..] == Schedule(toRun, passes - 1);
    }
  }

  /**
   * When every test completes, the runner starts exactly the schedule from
   * its position to the end of the last pass, prints a verdict after each,
   * and exits with code 0.
   */
  lemma {:induction false} RunLoopFollowsSchedule(loops: int, s: Runner, runs: seq<TestRun>)
    requires WellFormed(s) && s.index < |s.toRun| && s.loop < loops
    requires forall k :: 0 <= k < |runs| ==> runs[k].Done?
    requires |runs| + s.index >= |Schedule(s.toRun, loops - s.loop)|
    ensures var rep := RunLoop(loops, s, runs);
            var sched := Schedule(s.toRun, loops - s.loop)[s.index..];
            && rep.end == Exited(0)
            && |rep.starts| == |rep.verdicts| == |sched|
            && forall k :: 0 <= k < |sched| ==> rep.starts[k].test == sched[k]
    decreases |runs|
  {
    var passes: nat := loops - s.loop;
    assert |runs| > 0;
    if s.index + 1 >= |s.toRun| && s.loop + 1 >= loops {
      assert passes == 1 && |Schedule(s.toRun, passes)[s.index..]| == 1;
    } else {
      var next := Next(Account(s, runs[0].added));
      RunLoopFollowsSchedule(loops, next, runs[1..]);
      RunLoopStep(loops, s, runs);
      ScheduleStep(s.toRun, passes, s.index);
    }
  }

  /** What the first `n` runs added to `test`'s count: only the completed runs that started `test` add. */
  function Added(starts: seq<Start>, runs: seq<TestRun>, test: int, n: nat): nat
    requires n <= |starts| && n <= |runs|
  {
    if n == 0 then 0
    else (if starts[0].test == test && runs[0].Done? then runs[0].added else 0) + Added(starts[1..], runs[1..], test, n - 1)
  }

  /**
   * Each verdict is the one for its test's count so far: the count in
   * `failures` before the first run, plus what every completed run of that
   * test up to and including this one added.
   */
  predicate CountsFrom(failures: seq<nat>, starts: seq<Start>, verdicts: seq<Verdict>, runs: seq<TestRun>) {
    && |verdicts| <= |runs|
    && |verdicts| <= |starts|
    && forall k: nat :: k < |verdicts| ==> CountedAt(failures, starts, verdicts, runs, k)
  }

  /** Verdict `k` is the one for its test's count after the first `k + 1` runs. */
  predicate CountedAt(failures: seq<nat>, starts: seq<Start>, verdicts: seq<Verdict>, runs: seq<TestRun>, k: nat)
    requires k < |verdicts| && |verdicts| <= |runs| && |verdicts| <= |starts|
  {
    && 0 < starts[k].test <= |failures|
    && verdicts[k] == VerdictOf(starts[k].test, failures[starts[k].test - 1] + Added(starts, runs, starts[k].test, k + 1))
  }

  /** One verdict after the first: it counts from the old counts once it counts from the counts after the first run. */
  lemma CountedAtCons(failures: seq<nat>, t0: int, added: nat, st: Start, starts: seq<Start>, verdicts: seq<Verdict>, runs: seq<TestRun>, k: nat)
    requires 0 < t0 <= |failures| && st.test == t0 && |runs| > 0 && runs[0] == Done(added)
    requires 0 < k <= |verdicts| <= |starts| && |verdicts| < |runs|
    requires CountedAt(failures[t0 - 1 := failures[t0 - 1] + added], starts, verdicts, runs[1..], k - 1)
    ensures CountedAt(failures, [st] + starts, [VerdictOf(t0, failures[t0 - 1] + added)] + verdicts, runs, k)
  {
    var t := starts[k - 1].test;
    assert ([st] + starts)[1..] == starts;
    assert ([st] + starts)[k] == starts[k - 1];
    assert Added([st] + starts, runs, t, k + 1) == (if t == t0 then added else 0) + Added(starts, runs[1..], t, k);
  }

  /** A completed run of `t0` followed by verdicts that count from the updated counts count from the old ones. */
  lemma CountsFromCons(failures: seq<nat>, t0: int, added: nat, st: Start, starts: seq<Start>, verdicts: seq<Verdict>, runs: seq<TestRun>)
    requires 0 < t0 <= |failures| && st.test == t0 && |runs| > 0 && runs[0] == Done(added)
    requires CountsFrom(failures[t0 - 1 := failures[t0 - 1] + added], starts, verdicts, runs[1..])
    ensures CountsFrom(failures, [st] + starts, [VerdictOf(t0, failures[t0 - 1] + added)] + verdicts, runs)
  {
    var starts' := [st] + starts;
    var verdicts' := [VerdictOf(t0, failures[t0 - 1] + added)] + verdicts;
    forall k: nat | k < |verdicts'|
      ensures CountedAt(failures, starts', verdicts', runs, k)
    {
      if k > 0 {
        CountedAtCons(failures, t0, added, st, starts, verdicts, runs, k);
      } else {
        assert Added(starts', runs, t0, 1) == added;
      }
    }
  }

  /** The last test of the last pass: its verdict counts from the runner's counts. */
  lemma RunLoopCountsLast(loops: int, s: Runner, runs: seq<TestRun>)
    requires WellFormed(s) && s.index < |s.toRun| && |runs| > 0 && runs[0].Done?
    requires s.index + 1 >= |s.toRun| && s.loop + 1 >= loops
    ensures var rep := RunLoop(loops, s, runs); CountsFrom(s.failures, rep.starts, rep.verdicts, runs)
  {
    var t0 := s.toRun[s.index];
    var added := runs[0].added;
    var rep := RunLoop(loops, s, runs);
    assert rep == Report([Start(t0, s.initialDone)], [VerdictOf(t0, s.failures[t0 - 1] + added)], Exited(0));
    assert Added(rep.starts, runs, t0, 1) == added;
    assert CountedAt(s.failures, rep.starts, rep.verdicts, runs, 0);
  }

  /** A report made of a completed run's start and verdict before `rest` counts from the old counts once `rest` counts from the updated ones. */
  lemma CountsFromReport(failures: seq<nat>, t0: int, added: nat, st: Start, rep: Report, rest: Report, runs: seq<TestRun>)
    requires 0 < t0 <= |failures| && st.test == t0 && |runs| > 0 && runs[0] == Done(added)
    requires rep.starts == [st] + rest.starts && rep.verdicts == [VerdictOf(t0, failures[t0 - 1] + added)] + rest.verdicts
    requires CountsFrom(failures[t0 - 1 := failures[t0 - 1] + added], rest.starts, rest.verdicts, runs[1..])
    ensures CountsFrom(failures, rep.starts, rep.verdicts, runs)
  {
    CountsFromCons(failures, t0, added, st, rest.starts, rest.verdicts, runs);
  }

  /** A completed test the runner goes on from: its verdict counts from the runner's counts once the rest counts from the updated ones. */
  lemma RunLoopCountsNext(loops: int, s: Runner, runs: seq<TestRun>)
    requires WellFormed(s) && s.index < |s.toRun| && |runs| > 0 && runs[0].Done?
    requires !(s.index + 1 >= |s.toRun| && s.loop + 1 >= loops)
    requires var s1 := Next(Account(s, runs[0].added));
             var rest := RunLoop(loops, s1, runs[1..]);
             CountsFrom(s1.failures, rest.starts, rest.verdicts, runs[1..])
    ensures var rep := RunLoop(loops, s, runs); CountsFrom(s.failures, rep.starts, rep.verdicts, runs)
  {
    CountsFromReport(s.failures, s.toRun[s.index], runs[0].added, Start(s.toRun[s.index], s.initialDone),
                     RunLoop(loops, s, runs), RunLoop(loops, Next(Account(s, runs[0].added)), runs[1..]), runs);
  }

  /** Every verdict the runner prints is the one for its test's count so far. */
  lemma {:induction false} RunLoopVerdictsCount(loops: int, s: Runner, runs: seq<TestRun>)
    requires WellFormed(s)
    ensures var rep := RunLoop(loops, s, runs); CountsFrom(s.failures, rep.starts, rep.verdicts, runs)
    decreases |runs|
  {
    if s.index < |s.toRun| && |runs| > 0 && runs[0].Done? {
      if s.index + 1 >= |s.toRun| && s.loop + 1 >= loops {
        RunLoopCountsLast(loops, s, runs);
      } else {
        RunLoopVerdictsCount(loops, Next(Account(s, runs[0].added)), runs[1..]);
        RunLoopCountsNext(loops, s, runs);
      }
    }
  }

  /**
   * The printed verdict counts every run of the test so far: a test
   * selected twice that fails once is reported as failing on its second
   * run even when that run adds no failure.
   */
  lemma FailuresAccumulate()
    ensures RunLoop(1, Initial([1, 1]), [Done(1), Done(0)]).verdicts == [Fail(1, 1), Fail(1, 1)]
  {
  }

  /** A selection with no tests raises as soon as the runner starts. */
  lemma EmptySelectionRaises(loops: int, runs: seq<TestRun>)
    ensures RunLoop(loops, Initial([]), runs) == Report([], [], Raised("IndexError"))
    ensures RunLoopAsWritten(loops, Initial([]), runs) == Report([], [], Raised("IndexError"))
  {
  }
}
