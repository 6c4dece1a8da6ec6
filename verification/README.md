# LeakSentinel shadow test harness, modelled in Dafny

The harness drives a LeakSentinel valve through its AWS IoT device shadow.
It has five hardware-in-the-loop tests, and each one is a step machine polled by `resume`:

- **Prepare**: configure the run from the command line.
- **SendUpdate / VerifyUpdate**: write the Wi-Fi timing values to the shadow.
- **SendGet / VerifyGet**: read the shadow back, check the valve, and wait until the device reports the timing values.
- **Delay**: wait before the next iteration.
- **RunIteration / VerifyIteration**: each test's own request and check.
- **LoopBack**: count the iteration.
- **Finish**: end the test.

A suite runner (`runtest.py`) chooses the tests to run and sequences them over a number of loops.
It prints a PASS or FAIL verdict for each test.

This project models that core as pure functions over immutable data:

- `Json` is the shadow document: a string, or an object mapping keys to documents.
  `LookupDoc` reads along a path; `Nest` and `Put` build and update one.
- `Shadow` models the registry of the 36 shadow items, each with a category, a key and optional toggle values.
  It models the read accessor (`get_reported_value_from_json_dict`) and the write accessor (`set_desired_value_to_json_dict`), including the write accessor's nesting quirk.
  The per-item desired and reported values are a map of slots.
- `Coordination` is the `globals` record: the acceptance flags, the abort flag and reason, and the incoming and outgoing documents.
  It also holds the shadow callbacks, as functions that turn an event into a new record.
- `TestBase` is the `Test` base class: argument clamping, the bootstrap steps with their retry-then-abort cycle, `check_valve_params`, the delay step, the iteration timeout that counts a failure, `loop_back` and `finish_test`.
- `UpdateFrequency`, `SingleParameter`, `MultipleParameters`, `OpenClose` and `ButtonShadow` are tests 1 to 5.
  Each overrides the iteration steps, and test 5 also overrides the start and loop-back steps.
- `Resume` is one pass of `resume`: the abort check first, then the current step with the variant's override.
  It also runs a script of passes, each preceded by the callback events that arrived.
  The step machine runs the corrected `Configure` and test 5's corrected `LoopBackMatrix` (see "## Findings"); the as-written versions are modelled on their own.
- `Suite` models test selection, `runLoop` sequencing and the verdict.
- `Clock` models `format_time` for whole seconds. `Numerals` models decimal text and Python's `int()` on it.

A tick is a function `World × now × draw → TickResult`.

- `World` holds the run state of the test, the coordination record and the slots.
- `now` is the clock reading and `draw` a random draw.
- A `TickResult` carries the new world, an outcome and the shadow requests made.
- The outcome is to continue, complete, exit with a code, or raise a Python exception.

The wall clock, the random generator and the shadow service are inputs, and the requests are outputs.

## Model

| member | source | states |
|---|---|---|
| Json.LookupNest | tests/classes/shadow.py:89-94 | a document built fresh along a path reads back the value at exactly that path |
| Json.LookupNestOff | tests/classes/shadow.py:89-94 | a freshly built document has nothing at any path that diverges from the built one |
| Json.LookupPut | tests/classes/shadow.py:103-105 | writing at a path whose prefix is made of objects makes that path read back the written value |
| Json.LookupPutFrame | tests/classes/shadow.py:103-105 | writing at a path leaves every diverging path reading as before (siblings are preserved) |
| Shadow.FindEntry | tests/classes/shadow.py:115-160 | every registry item is found again by its (category, key) pair |
| Shadow.FindSound | tests/classes/shadow.py:115-160 | whatever the lookup by (category, key) returns is the registry item with exactly that category and key |
| Shadow.IdentityIsUnique | tests/classes/shadow.py:115-160 | no two registry items share both category and key |
| Shadow.ToggleValuesDistinct | tests/classes/shadow.py:123-148 | an item has a first toggle value exactly when it has a second one, and the two always differ |
| Shadow.UncategorisedKeysAreNotSections | tests/classes/shadow.py:51-60 | a key looked up directly under `reported` never collides with a category section name |
| Shadow.GetReportedFollowsPath | tests/classes/shadow.py:43-61 | the read accessor's nested tests are exactly a lookup along `state.reported[.category].key` |
| Shadow.ReadReported | tests/classes/shadow.py:43-61 | found exactly when the whole path exists; the item's reported value is then the value at the path; otherwise nothing changes; no other item and no desired value is touched |
| Shadow.ReadIsIdempotent | tests/classes/shadow.py:43-61 | reading the same document twice gives the same result as reading it once |
| Shadow.MatchAfterRead | tests/tests/test3.py:81-93 | after a successful read, an item matches (desired equals reported) exactly when the document reports the desired value |
| Shadow.Toggle | tests/tests/test2.py:88-91 | the new desired value is one of the two toggle values, and it is the second exactly when the first is reported |
| Shadow.ToggleMovesAway | tests/tests/test2.py:88-91 | toggling from either reported toggle value asks for the other value, and toggling twice returns to where it started |
| Shadow.SetDesiredSlot | tests/tests/test4.py:64 | setting an item's desired value changes only that item's desired value |
| Shadow.SetDesiredFresh | tests/classes/shadow.py:89-94 | writing into a document with no `state` gives exactly the nested `state.desired[.category].key` document |
| Shadow.SetDesiredMerge | tests/classes/shadow.py:103-105 | when the item's section exists, the written path reads back the value and every diverging path is unchanged |
| Shadow.SetDesiredMissingSection | tests/classes/shadow.py:97-98 | when `state` lacks `desired`, the whole `desired` wrapper lands under `state.desired`, the item's own path stays absent, and nothing else changes |
| Shadow.SetDesiredMissingCategory | tests/classes/shadow.py:101-102 | when the category is missing, `{category: {key: value}}` lands under the category name, the item's own path stays absent, and nothing else changes |
| Shadow.SetDesiredShape | tests/classes/shadow.py:64-108 | every write leaves `state` and `state.desired` as objects; an existing `desired` gains the item's category section; a document without `state` is replaced by the wrapper, and otherwise the other top-level members are kept |
| Shadow.SetDesiredKeepsWritable | tests/classes/shadow.py:64-108 | every write keeps the outgoing document in the object shape the next write needs |
| Shadow.SetDesiredValues | tests/classes/shadow.py:111-113 | writing a list keeps the document writable; an empty list leaves it unchanged, and a non-empty one creates `state` |
| Shadow.SameCategoryPair | tests/classes/shadow.py:101-105 | two items of one category written into an empty document both read back at their own paths |
| Shadow.SameCategoryMerge | tests/classes/shadow.py:111-113 | writing two items of one category from their slots makes both desired values readable at their paths |
| Coordination.Initial | tests/classes/globals.py:10-20 | both acceptance flags and the abort flag start false, with an empty reason and empty incoming and outgoing documents |
| Coordination.InitialDocuments | tests/classes/globals.py:17-20 | on the initial record every read finds nothing and changes nothing, and the first write builds the full `state.desired` document |
| Coordination.OnBootstrapUpdate | tests/classes/test.py:394-407 | acceptance sets only the update flag; a timeout raises the abort flag with the callback's own reason, a rejection with the shared initial-update rejection text, and either leaves the update flag as it was |
| Coordination.OnInitialGet | tests/classes/test.py:409-423 | acceptance sets the get flag and stores the payload; any other answer raises the abort flag and keeps the old payload |
| Coordination.UpdateAbortReasons | tests/tests/test2.py:140-179 | delivered to their callbacks, the three update timeouts (base-class bootstrap, single-parameter bootstrap, the harness's own update) abort with three different reasons, while a rejection of any of the three reports the same "initial update" reason |
| Coordination.OnShadowGet | tests/tests/test2.py:157-162 | whatever the status, the payload is stored and the get flag is set |
| Coordination.OnMyShadowUpdate | tests/tests/test2.py:165-179 | acceptance of the harness's own update clears the update flag, so only the device's update can satisfy a check; any other answer aborts |
| Coordination.OnAnyShadowUpdate | tests/tests/test2.py:182-187 | whatever the status, the payload is stored and the update flag is set |
| Coordination.Deliver | tests/classes/globals.py:13-14 | no callback ever clears the abort flag or touches the outgoing document |
| Coordination.DeliverAll | tests/classes/globals.py:13-14 | a run of callbacks never clears the abort flag or touches the outgoing document |
| Coordination.RejectionAborts | tests/tests/test2.py:142-154 | a rejected or timed-out answer to any of the harness's own requests raises the abort flag with a reason |
| TestBase.Configure | tests/classes/test.py:66-85 | iterations are in 1..9999 and cycles in 1..99, with in-range arguments kept and others replaced by 10 and 2; the cycle lasts 61 s on mains, else cycles × (connect-not-flowing × multiplier + 60) |
| TestBase.ConfigureIsIdempotent | tests/classes/test.py:78-81 | configuring again from an already configured test changes nothing |
| TestBase.ConfigureAsWritten | tests/classes/test.py:82-85 | as written, configuration succeeds exactly on mains power, and then agrees with the corrected configuration |
| TestBase.BatteryConfigurationRaises | tests/classes/test.py:85 | as written, a run with `ac_power` false (the argument values already resolved) raises AttributeError with the default arguments, where a 360 s cycle was meant |
| TestBase.MainsCycleIgnoresOtherArguments | tests/classes/test.py:82-83 | on mains power the cycle length is 61 s whatever the other arguments |
| TestBase.Advance | tests/classes/test.py:109-110 | advancing moves to the step numbered one higher |
| TestBase.StepNumbersAreDistinct | tests/classes/test.py:312-332 | different steps carry different numbers, so the dispatch is unambiguous |
| TestBase.NewRun | tests/classes/test.py:44-64 | a new test is idle at step 0, with no failures, iteration 0, matrix counters at 0, no button held and no delay running |
| TestBase.Start | tests/classes/test.py:101-106 | starting a run goes to step 0 with the given skip flag and keeps the failure count and status the test object already had |
| TestBase.PrepareForTest | tests/classes/test.py:113-122 | the run is configured, iteration resets to 0, and the next step is Delay when the bootstrap is skipped and SendUpdate otherwise |
| TestBase.SendInitialUpdate | tests/classes/test.py:125-139 | exactly one update request goes out, answered by the initial-update callback; cycle 0 starts now, the update flag is cleared and the step moves on to VerifyUpdate |
| TestBase.InitialUpdateCarriesConfig | tests/classes/test.py:131-135 | the bootstrap document carries both configured Wi-Fi timing values, in decimal, at the paths the registry reads them back from |
| TestBase.BootstrapTimeout | tests/classes/test.py:346-355 | before the deadline nothing changes; at the deadline the cycle counter goes up by one, and the abort flag is raised exactly when it reaches the configured cycles; otherwise the clock restarts; the step is kept |
| TestBase.VerifyInitialUpdate | tests/classes/test.py:142-162 | an accepted update advances to SendGet and clears the flag; otherwise the bootstrap timeout applies |
| TestBase.UpdateRetryBound | tests/classes/test.py:151-162 | after n missed cycles the cycle counter is up by n, and the abort flag is raised exactly when it has reached the configured cycles |
| TestBase.TwoCycleBootstrapAborts | tests/classes/test.py:151-162 | with two cycles configured, the first miss only restarts the clock, and the second aborts with the "update never accepted" reason |
| TestBase.SendInitialGet | tests/classes/test.py:165-173 | exactly one get is requested, the get flag is cleared and the cycle clock restarts |
| TestBase.IntOf | tests/tests/test4.py:63 | Python's `int()` on a reported value: it converts exactly a string that parses as an integer, raises TypeError on a missing or non-string value, and raises ValueError otherwise |
| TestBase.IntOfPrinted | tests/tests/test4.py:63-64 | `int()` of a printed integer gives that integer back |
| TestBase.CheckValveParams | tests/classes/test.py:357-376 | the exit-3 fault holds exactly when both valve fields are reported and either of them is "0"; desired values and items other than the two valve fields are untouched |
| TestBase.ReadTiming | tests/classes/test.py:184-193 | the bootstrap has converged exactly when both Wi-Fi timing values are reported equal to their desired values |
| TestBase.VerifyInitialGet | tests/classes/test.py:176-212 | an accepted get with a valve fault exits 3; otherwise the step moves to Delay exactly when the timing values converged, and the get flag ends cleared |
| TestBase.ConsumeGet | tests/classes/test.py:178-208 | consuming a get exits 3 exactly on a valve fault and otherwise reads the valve fields without changing any desired value |
| TestBase.TimingDependsOnDesired | tests/classes/test.py:188 | whether the timing values converged depends only on the desired values, not on any earlier reads |
| TestBase.AwaitTiming | tests/classes/test.py:183-208 | the step moves on to Delay exactly when the timing values have converged; otherwise the bootstrap timeout applies and the step stays at VerifyGet |
| TestBase.RandomDelay | tests/classes/test.py:232-233 | the random pre-iteration delay lies between zero and one cycle |
| TestBase.DelayBeforeIteration | tests/classes/test.py:215-243 | the delay is chosen as random, `delay + iteration × offset` or none; the first tick starts the iteration's cycle clock at cycle 0 BEFORE the wait, so the first cycle's deadline includes the delay (a random delay can use up to a whole cycle of it); the step moves on once the delay has elapsed; iteration, failures, documents and slots are unchanged |
| TestBase.IterationTimeout | tests/classes/test.py:251-280 | at the cycle deadline the counter goes up by one; the timeout that reaches the configured cycles adds exactly one failure and moves to LoopBack; earlier ones restart the clock |
| TestBase.IterationRetryBound | tests/classes/test.py:259-277 | after n missed cycles, the counter is up by n and LoopBack is reached exactly when it hits the configured cycles, with exactly one failure counted then |
| TestBase.CountMatches | tests/tests/test3.py:81-93 | the match count never exceeds the number of items, and equals it exactly when every item is reported at its desired value |
| TestBase.VerifyAllMatch | tests/tests/test3.py:75-98 | without an accepted update nothing happens; with one, a valve fault exits 3, and otherwise the step advances exactly when every item matches |
| TestBase.ToggleOne | tests/tests/test3.py:50-64 | an item found in the incoming document is asked for its toggled value and written; an absent item is skipped; no other item's desired value changes |
| TestBase.ToggleAll | tests/tests/test3.py:50-64 | every item found is toggled and written, every other item is untouched, and when none is found the document is unchanged |
| TestBase.LoopBackStep | tests/classes/test.py:284-290 | the iteration goes up by one, and the step is Finish exactly when all iterations are done and Delay otherwise |
| TestBase.PassesCount | tests/classes/test.py:284-290 | k passes through `loop_back` raise the iteration by exactly k |
| TestBase.BodyRunsIterationsTimes | tests/classes/test.py:284-290 | starting from iteration 0, the k-th `loop_back` finishes the test exactly when k reaches the configured iterations |
| TestBase.FinishTest | tests/classes/test.py:293-295 | the test completes and moves to step -1, keeping its failure count and documents |
| UpdateFrequency.RunOneIteration | tests/tests/test1.py:44-49 | the iteration subscribes to device updates, sends no update and advances one step |
| UpdateFrequency.VerifyOneIteration | tests/tests/test1.py:52-61 | the base timeout runs first; an accepted device update is consumed and checked, exits 3 on a valve fault, and otherwise advances |
| UpdateFrequency.UpdateInTimeSucceeds | tests/tests/test1.py:52-61 | a device update arriving within the cycle completes the iteration with no failure counted |
| UpdateFrequency.DoubleAdvanceSkipsLoopBack | tests/tests/test1.py:53-61 | an update consumed on the tick its last cycle times out advances twice, skipping `loop_back` and finishing the test early with a failure counted |
| SingleParameter.CurrentItem | tests/tests/test2.py:135-137 | the current parameter is always a toggleable entry of the parameter list |
| SingleParameter.CurrentItemIsRoundRobin | tests/tests/test2.py:135-137 | the parameter repeats every list length, and the first pass visits the list in order |
| SingleParameter.LiteralDocumentMissesMultiplier | tests/tests/test2.py:45-50 | the literal bootstrap document carries connect-not-flowing at its registry path, but nothing at the multiplier's registry path, because it uses the key `sleep_multiplier` |
| SingleParameter.SendInitialUpdate | tests/tests/test2.py:41-54 | the base request is followed by the literal Wi-Fi document, and the step advances twice to SendGet |
| SingleParameter.SendLiteralUpdate | tests/tests/test2.py:45-54 | the literal document is sent with the update flag cleared, and the step is advanced once more |
| SingleParameter.VerifyInitialUpdate | tests/tests/test2.py:57-64 | verifying the bootstrap update sends nothing and continues |
| SingleParameter.RunOneIteration | tests/tests/test2.py:77-102 | nothing happens until a get is accepted; it advances exactly when the current parameter was found, sending one update with its toggled value |
| SingleParameter.FirstValueTogglesToSecond | tests/tests/test2.py:88-91 | when the current parameter is reported at its first toggle value, the request asks for the second one |
| SingleParameter.VerifyOneIteration | tests/tests/test2.py:105-125 | the base timeout runs; an accepted update advances exactly when the current parameter is reported at its desired value |
| MultipleParameters.CurrentItem | tests/tests/test3.py:103-105 | the current parameter is always an entry of the parameter list |
| MultipleParameters.BuildRequest | tests/tests/test3.py:49-64 | starting from an empty document, every parameter found is toggled and written, the rest are skipped, and none found gives an empty request |
| MultipleParameters.RunOneIteration | tests/tests/test3.py:42-72 | the iteration subscribes, then sends exactly one update carrying the built document, and advances |
| MultipleParameters.VerifyOneIteration | tests/tests/test3.py:75-98 | all five parameters must match for the step to advance; without an accepted update nothing happens |
| MultipleParameters.AdcFirst | tests/classes/shadow.py:93-94 | the first parameter written builds the fresh `state.desired.adc` document |
| MultipleParameters.DelayIntoMissingMotor | tests/classes/shadow.py:101-102 | the motor delay written when `motor` is absent lands at `desired.motor.motor.delayT` |
| MultipleParameters.MergeKeepsDelay | tests/classes/shadow.py:103-105 | later motor writes merge beside the misplaced delay without disturbing it |
| MultipleParameters.MotorMergesKeepDelay | tests/tests/test3.py:50-64 | the remaining motor parameters all merge beside the misplaced delay |
| MultipleParameters.ToggleAllWrites | tests/tests/test3.py:50-64 | the document the iteration builds is the fold of one write per found parameter, in list order, whatever the registry slots hold |
| MultipleParameters.RequestAfterTwo | tests/tests/test3.py:50-64 | the request is the first two parameters' document with the remaining motor parameters written on top |
| MultipleParameters.AdcThenDelay | tests/tests/test3.py:50-64 | once the ADC sample count and the motor delay are found, the delay lands one level too deep |
| MultipleParameters.DelayIsWrittenTooDeep | tests/tests/test3.py:50-64 | whenever both the ADC sample count and the motor delay are reported, the iteration's request carries the delay at `motor.motor.delayT`, not at its registry path |
| OpenClose.BumpCounter | tests/tests/test4.py:61-64 | the step raises exactly when the counter is reported but is not an integer, with the error `int()` raises; otherwise the document stays writable |
| OpenClose.BumpCounterWrites | tests/tests/test4.py:58-64 | a missing counter writes nothing; a found one is asked for its reported integer plus one, in the slots and as the document's only write; no other desired value changes |
| OpenClose.RequestReadsBack | tests/tests/test4.py:81-84 | the counter and the valve request written into one document both read back at their own paths |
| OpenClose.BuildRequest | tests/tests/test4.py:57-81 | the request fails exactly when the counter is reported but is not an integer, with the error `int()` raises |
| OpenClose.BuildRequestCounter | tests/tests/test4.py:58-79 | a reported counter is asked for one more than its value, and that value still reads back at the counter's path after the valve write |
| OpenClose.BuildRequestValve | tests/tests/test4.py:58-79 | a reported valve state is asked for its other toggle value, which reads back from the request at the valve's path |
| OpenClose.BuildRequestFrame | tests/tests/test4.py:57-79 | with neither field reported the request is empty, and no desired value outside the two fields ever changes |
| OpenClose.ValveFlips | tests/tests/test4.py:70-74 | a valve reported as `1` or `2` is asked for the other of the two |
| OpenClose.RunOneIteration | tests/tests/test4.py:50-87 | it raises exactly when the counter is not an integer; otherwise it subscribes, sends one update with both fields, and advances |
| OpenClose.CounterAdvancesByOne | tests/tests/test4.py:62-64 | the desired counter is the reported counter plus one |
| OpenClose.RequestFlipsValve | tests/tests/test4.py:70-74 | a valve reported open is asked to close and vice versa |
| OpenClose.VerifyOneIteration | tests/tests/test4.py:90-108 | without an accepted update nothing happens; a valve fault exits 3; otherwise the step advances exactly when both fields match |
| OpenClose.EchoCompletesIteration | tests/tests/test4.py:96-108 | a device update that echoes both desired values completes the iteration |
| OpenClose.RequestAsksForBoth | tests/tests/test4.py:81-84 | when both fields are reported, one request carries both new desired values |
| ButtonShadow.Direction.Text | tests/tests/test5.py:33-34 | the text written for a direction parses back to its numeric code |
| ButtonShadow.ButtonFor | tests/tests/test5.py:133-136 | the power button is used exactly for opening |
| ButtonShadow.MatrixCoversEveryPair | tests/tests/test5.py:36-45 | every (method, direction) pair appears exactly twice in the matrix |
| ButtonShadow.MatrixAlternates | tests/tests/test5.py:36-45 | consecutive entries, wrapping around, always move the valve in opposite directions |
| ButtonShadow.PrepareForTest | tests/tests/test5.py:74-77 | the base preparation runs and both matrix counters reset to 0 |
| ButtonShadow.StartIndex | tests/tests/test5.py:94-103 | a start index exists exactly when the valve reports "1" or "2", and the first entry then moves the valve away from its reported state |
| ButtonShadow.VerifyInitialGet | tests/tests/test5.py:83-103 | the base step runs; when it moves on to Delay, the start index is chosen from the reported valve state, and any other state exits 4 |
| ButtonShadow.FirstEntryReversesValve | tests/tests/test5.py:93-100 | after a good initial get, the first entry moves the valve to the opposite of its reported state |
| ButtonShadow.ShadowRequest | tests/tests/test5.py:142-166 | no button is held; it raises exactly when the counter is not an integer; otherwise one update asks for the counter plus one and the entry's direction |
| ButtonShadow.SendBumped | tests/tests/test5.py:148-166 | the request document and the slots carry the counter plus one and the direction's text at their paths |
| ButtonShadow.RunOneIteration | tests/tests/test5.py:109-169 | the iteration subscribes first; a button entry presses the direction's button and starts the hold timer, and a shadow entry sends the shadow request; the matrix counters are unchanged |
| ButtonShadow.HoldButton | tests/tests/test5.py:177-189 | a pressed button is held until 8 seconds have passed, then released, and nothing else happens while it is held |
| ButtonShadow.CheckArrival | tests/tests/test5.py:192-208 | an accepted update is consumed; it exits 3 on a valve fault, and otherwise advances exactly when the valve reports the entry's direction |
| ButtonShadow.ReadArrival | tests/tests/test5.py:196-208 | the valve state is read, and the step advances only when it equals the entry's direction code; a missing or non-numeric state raises |
| ButtonShadow.VerifyOneIteration | tests/tests/test5.py:172-211 | while a button is held nothing happens; otherwise an accepted update is checked against the entry's direction, and without one the base timeout runs |
| ButtonShadow.ReportedTargetCompletesEntry | tests/tests/test5.py:192-208 | a shadow entry whose target state is reported completes the iteration |
| ButtonShadow.ButtonHeldUntilTime | tests/tests/test5.py:177-189 | before 8 seconds have passed, a held button leaves everything unchanged |
| ButtonShadow.NextIndex | tests/tests/test5.py:215-217 | the matrix index advances by one and wraps to 0 after the last entry |
| ButtonShadow.LoopBackMatrixAsWritten | tests/tests/test5.py:214-223 | as written, every entry before the eighth sets the step to 9, which `resume` dispatches to `finish_test` |
| ButtonShadow.AsWrittenStopsAfterOneEntry | tests/tests/test5.py:223 | as written, the first `loop_back` finishes the test, where the corrected one returns to Delay |
| ButtonShadow.LoopBackMatrix | tests/tests/test5.py:214-223 | the index wraps, the count goes up by one, entries before the eighth return to Delay, and the eighth runs the base `loop_back` |
| ButtonShadow.WalkVisitsInOrder | tests/tests/test5.py:215-218 | k loop-backs visit the matrix in order modulo 8 and raise the count by k, with the iteration unchanged within the first pass |
| ButtonShadow.LaterIterationsTakeOneEntry | tests/tests/test5.py:218-221 | once the count has reached 8 it is never reset, so every later entry counts as a whole iteration |
| Resume.UpdateStep | tests/classes/test.py:312-317 | the steps that send and confirm the bootstrap update never complete the test and never lower the failure count |
| Resume.GetStep | tests/classes/test.py:318-323 | the steps that fetch the shadow and wait out the delay never complete the test and never lower the failure count |
| Resume.IterationStep | tests/classes/test.py:324-325 | no test's `run_one_iteration` completes the test or lowers the failure count |
| Resume.VerifyStep | tests/classes/test.py:326-327 | no test's `verify_one_iteration` completes the test or lowers the failure count |
| Resume.RunStep | tests/classes/test.py:312-332 | the test completes exactly at step 9, and then with status Complete, and no step lowers the failure count |
| Resume.Tick | tests/classes/test.py:304-310 | a raised abort flag ends the process with code 2 before any step runs; otherwise the step runs |
| Resume.Resume | tests/classes/test.py:304-334 | the polling loop stops at the first pass that ends the run; failures never decrease; once the abort flag is raised, the next pass exits 2 with no request |
| Resume.RejectionEndsRun | tests/classes/test.py:304-310 | a rejected answer to one of the harness's requests ends the run at the next pass with exit code 2 |
| Resume.LastLoopBackCompletes | tests/classes/test.py:284-295 | after the last iteration, `loop_back` then `finish_test` complete the test with its failure count unchanged |
| Resume.UpdateFrequencyLastUpdate | tests/tests/test1.py:52-61 | a device update arriving in time on the last iteration of test 1 completes the test with no failure |
| Resume.UpdateFrequencyLastIteration | tests/tests/test1.py:44-61 | the whole last iteration of test 1, from the delay step through the device's update to completion, makes one subscription and counts no failure |
| Resume.UpdateFrequencyReachesVerify | tests/tests/test1.py:40-49 | with no delay configured, the delay step and test 1's iteration step run in two passes, making one subscription, reaching the verify step inside the cycle and keeping the failure count |
| Resume.IdleThenResume | tests/classes/test.py:304-334 | a pass on which nothing arrives and the run goes on contributes its requests ahead of all the later passes' requests |
| Suite.PickAsWritten | tests/runtest.py:73-78 | as written, a selection succeeds exactly when every number satisfies `0 < n < len(tests)`, and then names `tests[n - 1]` for each number in order; otherwise the reported number is the first one failing that check |
| Suite.LastTestRejectedAsWritten | tests/runtest.py:74 | as written, selecting test 4 is rejected; the corrected check accepts it |
| Suite.Pick | tests/runtest.py:73-78 | a selection succeeds exactly when every number names a registered test, and then keeps the numbers in order with duplicates; otherwise the first bad number is reported |
| Suite.Select | tests/runtest.py:70-78 | run-all selects every registered test in order; otherwise the explicit numbers are checked |
| Suite.Initial | tests/runtest.py:29-40 | the runner starts at index 0, loop 0, with the bootstrap not yet done and no failures for any test |
| Suite.VerdictOf | tests/runtest.py:142-147 | the verdict is PASS exactly when the test counted no failures, and FAIL carries the count |
| Suite.Account | tests/runtest.py:116-122 | a completed test adds its failures to its own test object only, and marks the bootstrap as done |
| Suite.SecondPassRaisesAsWritten | tests/runtest.py:125-135 | as written, two loops over two tests raise IndexError once the first pass ends, where the corrected loop goes on to the second pass |
| Suite.WrongVerdictAsWritten | tests/runtest.py:141 | as written, running only test 2 reports the verdict of test 1 |
| Suite.RunLoop | tests/runtest.py:103-137 | an empty selection raises IndexError; the first test runs with the suite's bootstrap flag and every later one skips the bootstrap; each verdict is about the test just run |
| Suite.RunLoopStep | tests/runtest.py:116-135 | after a completed test that is not the last of the last loop, the runner goes on to the next test in order |
| Suite.Schedule | tests/runtest.py:125-135 | the schedule only ever runs selected tests |
| Suite.ScheduleLength | tests/runtest.py:125-133 | the schedule runs the selection exactly `loops` times over |
| Suite.ScheduleStep | tests/runtest.py:125-135 | the schedule continues from any position to the end of the pass, then starts the next pass |
| Suite.RunLoopAsWritten | tests/runtest.py:103-147 | as written, an empty selection (or a position past the list) raises IndexError before any test starts, no test gets a verdict without having been started, and exit 0 needs the last loop |
| Suite.AsWrittenStartsFollowList | tests/runtest.py:113-122 | as written, the tests are started in list order from the current position, never past the list's end, with no reset between passes |
| Suite.AsWrittenVerdictsFromRegistry | tests/runtest.py:139-147 | as written, the k-th verdict names the registry's test at the list position, whichever test was run there |
| Suite.RunLoopFollowsSchedule | tests/runtest.py:103-137 | when every test completes, the suite exits 0 after starting the tests exactly in schedule order, with one verdict for each |
| Suite.RunLoopVerdictsCount | tests/runtest.py:116-147 | each printed verdict is PASS or FAIL for its test's count so far: the count before the run plus the failures of every completed run of that test up to and including this one |
| Suite.FailuresAccumulate | tests/runtest.py:31 | running the same test twice reports the failures of both runs, since the test object is reused |
| Suite.EmptySelectionRaises | tests/runtest.py:97 | an empty selection raises IndexError before any test starts |
| Clock.Pad2 | tests/classes/test.py:378-391 | a two-digit field reads back as its value |
| Clock.FieldsOf | tests/classes/test.py:378-391 | the hours, minutes and seconds add back up to the total, with minutes and seconds below 60 and hours present exactly from one hour on |
| Clock.FormatTime | tests/classes/test.py:378-391 | the printed time always ends in `:ss`; below an hour everything except the one colon is a digit; from an hour on there is a second colon |
| Clock.ParseTime | tests/classes/test.py:378-391 | only text ending in `:ss` is read as a time |
| Clock.FormatTimeRoundTrip | tests/classes/test.py:378-391 | reading back a printed time gives the elapsed seconds exactly |
| Numerals.NatToString | tests/classes/test.py:378-391 | a number's decimal text is non-empty, all digits, has a leading zero only for zero, and is one digit long exactly below ten |
| Numerals.NatToStringRoundTrip | tests/tests/test4.py:63-64 | reading back decimal text gives the number |
| Numerals.NatToStringInjective | tests/tests/test4.py:63-64 | different numbers print differently |
| Numerals.ParseInt | tests/tests/test4.py:63 | `int()` succeeds exactly on non-empty digits or a sign followed by non-empty digits; the value is the digits' value, negated after `-`; everything else is the ValueError case |
| Numerals.ParseIntRoundTrip | tests/tests/test4.py:63-64 | `int(str(i))` is `i` for every integer, negative ones included |

## Left out

- Network and hardware: the MQTT connection (`connection.py`), the shadow client and the button HTTP calls (`button.py`, `access_url`) are left out. Requests are returned as data and callbacks are delivered as events between passes, not as threads.
- Console output: `print`, `colored`, the timer displays and the separator strings are left out.
- The wall clock and the random generator: `datetime.now()` and `sleep` become the `now` input of each pass, and `random.randint` becomes a draw input.
- Command-line parsing: `args.py` and the argparse setup are left out; the resolved argument values are the model's inputs.
- JSON text: `json.dumps` and `json.loads` are left out. Requests carry the document itself. A timed-out get delivers no payload, and `json.loads(None)` (tests/tests/test2.py:160) then raises TypeError before `get_accepted` is set; `Coordination.OnShadowGet` stores the payload whatever the status.
- `globes.py` is left out: it is a stale copy of the coordination record that the core does not import.
- Stale revisions: `prepare_for_iteration` in tests 2 and 3 and `display_cycle_timer` are never dispatched by `resume`, so they are not modelled.
  Test 2's iteration therefore waits for a get that nothing requests.
- Callback imports: the callbacks that tests 1, 3, 4 and 5 import from `test.py` exist only in `test2.py`; that one definition is used for every test.
- Names from other revisions: `verify_first_get` in tests 4 and 5 is taken as the override of `verify_initial_get`.
  `set_desired_values_to_json_str` and `set_reported_value_from_json` are taken as their dictionary-based counterparts in `shadow.py`.
- The `payload_dict` / `incoming_dict` split: the callbacks store documents in `globals.payload_dict` (tests/classes/test.py:418, tests/tests/test2.py:160 and 185), while the reader looks in `globals.incoming_dict` (tests/classes/shadow.py:43-44), which starts empty and is never reassigned. The model has one field, `Coord.incoming`, written by the callbacks and read by the reader. As written, every reported-value read in tests 3, 4 and 5 would find nothing.
- Reader arity: `get_reported_value_from_json_dict` takes no argument, but tests/classes/test.py:186-187 and 361-362 pass one, which raises TypeError. The model reads `Coord.incoming` there and drops that TypeError.
- The initial update's document (tests/classes/test.py:135): `item1.set_desired_values_to_json_str(item2)` is modelled as writing both timing items into a fresh document (`TestBase.InitialDocument`). The dictionary counterpart writes only its `items` argument, not `self`, merges into the shared outgoing document, and would fail to iterate a single item.
- Test 2's single write (tests/tests/test2.py:95): `set_desired_value_to_json()` does not exist in `shadow.py`. It is modelled as writing the one item into a fresh document (`SingleParameter.RunOneIteration`), whereas the dictionary writer merges into the outgoing document, which nothing in test 2 empties.
- Json: a value is either a string or an object. JSON numbers, booleans, null and arrays are not representable. So what happens to a numeric reported value is not modelled: `int()` (tests/tests/test4.py:63, tests/tests/test5.py:150) would accept it, and the string concatenation that follows (tests/tests/test4.py:64-65) would raise TypeError. In the model every reported value arrives as text.
- Resume.RunStep: the step machine runs the corrected `TestBase.Configure` and `ButtonShadow.LoopBackMatrix`. So the battery-flag AttributeError (tests/classes/test.py:85, shown by `TestBase.ConfigureAsWritten` and `TestBase.BatteryConfigurationRaises`) and test 5 finishing after one matrix entry (tests/tests/test5.py:223, shown by `ButtonShadow.LoopBackMatrixAsWritten` and `ButtonShadow.AsWrittenStopsAfterOneEntry`) never happen in a `Resume` trace.
- `self.valve_type` (test 5) is never set; its only use chooses a printed message, so it is not modelled.
- Shadow.ReadReported: a string met where the path expects an object reads as absent; Python would test substring membership there or raise TypeError.
- Shadow.SetDesired: requires the path to the item to be made of objects, where Python would raise on a string. `SetDesiredKeepsWritable` proves every document the harness builds meets this.
- TestBase.DelayBeforeIteration: delays are real numbers, not floats. The random delay is `draw / 1000000` of a cycle, for a draw in 0..1000000.
- Clock.FormatTime: models whole seconds only; `format_time`'s timedelta input and its fractional part are not modelled.
- Numerals.ParseInt: models `int()` on plain digits with an optional sign; surrounding whitespace and underscores, which Python also accepts, are not modelled.
- Suite.RunLoop: the one-second sleep and `print_test_results`' console text are left out. A test that never completes is shown by the `StillRunning` end.

## Findings

| source | as written | input that shows it | evidently intended | confidence | as-written member | corrected member |
|---|---|---|---|---|---|---|
| tests/classes/test.py:85 | the battery cycle length reads `self.connectNotFlowing` and `self.sleepMultiplier`, which are never set | `ac_power` false with the argument values already resolved, e.g. cycles 2, connect-not-flowing 30, multiplier 4 (as written, line 75 reads `args.ac_power`, which the parser stores as `battery`, so every run raises AttributeError there first; argument parsing is not part of this model) | `cycles × (connect_not_flowing × sleep_multiplier + 60)`, 360 s here | high, not executed | TestBase.ConfigureAsWritten | TestBase.Configure |
| tests/runtest.py:74 | an explicit number is accepted only when `0 < n < len(tests)` | `runtest.py 4` exits 2 with "there is no test number 4" | `0 < n <= len(tests)`, accepting test 4 | high, not executed | Suite.PickAsWritten | Suite.Pick |
| tests/runtest.py:141 | the verdict is read from `self.tests[current_index]`, not `self.tests_to_run[current_index]` | running only test 2, which counts 3 failures, prints PASS for test 1 | the verdict of the test that just completed | high, not executed | Suite.WrongVerdictAsWritten | Suite.RunLoop |
| tests/runtest.py:125-133 | after a pass that is not the last, `current_index` is not reset and the status stays RUNNING; the only reset nearby, at line 108, sets `current_test_index` in the IDLE branch, which is not reached again | `--loops 2` with tests 1 and 2: after the first pass, line 116 indexes past the list and raises IndexError | start each new loop at the first selected test | high, not executed | Suite.SecondPassRaisesAsWritten | Suite.RunLoopFollowsSchedule |
| tests/tests/test5.py:223 | entries before the eighth set `step = 9`, which `resume` dispatches to `finish_test` | the first `loop_back` of test 5, with the matrix count at 0 | return to the pre-iteration delay (step 5) to run the next matrix entry | medium, not executed | ButtonShadow.AsWrittenStopsAfterOneEntry | ButtonShadow.LoopBackMatrix |
