# Verified models of the VoiceSub audio, ingress and text core

A Dafny model of the parts of VoiceSub where state, arithmetic and ordering interact, with proofs of what they keep.

- **The libsonic time stretcher** (`Frames`, `PitchSearch`, `PitchTracking`, `Tempo`, `TempoCode`,
  `TempoSearch`, `PlayLedger`, `TempoStage`, `SilentPasses`, `Schedules`, `Splits`, `SincTable`, `SincFilter`,
  `SincGain`, `Resampling`, `SonicStreams`, `SonicRuns`) and its Rust wrapper (`SonicProcessors`).
  `SonicStream` is the mutable stream: input and output buffers, speed, pitch, rate, play time and time error.
  The C structure is split by owner into the stream, the pitch tracker and the rate converter. The tempo loop
  refines a step model (`Tempo`) that counts frame by frame; `TempoCode` proves that the formulas of the C code
  count the same frames. `TempoStage` is a pass over the waiting input as a function, `Schedules` a run of such passes;
  the stream refines both. A ghost ledger carries conservation of play time across calls.
- **The browser worker protocol** (`BrowserProtocol`, `BrowserHistory`, `BrowserMessages`, `BrowserServices`): every lock
  region is one atomic step, and the results hold for every sequence of steps.
- **The stale guard and the overlay** (`StaleGuards`, `EventFields`, `Overlays`): a last-writer-wins register and frame coalescing.
- **The playback worker** (`Playback`): a command queue that is consumed in four places.
- **Text and lists** (`Chunker`, `Replacements`, `DisplayOrder`, `Text`, `Sequences`).

What the program cannot control comes in as parameters: device and decoder outcomes, looks at the queue and the sink
are lists that the theorems quantify over, and a run of the browser protocol is any list of steps.

Findings where code and expectation part, each with an exact condition or a concrete run:

- play time is not conserved by copying in the neutral band at a speed not quite 1 (`PlayLedger.CopyConservesIff`), nor
  by a period that is cut short outside half to double speed (`TempoCode.StepConservesIff`,
  `TempoCode.RunConservesIff`, `TempoCode.TripleSpeedLosesTime`);
- a clip shorter than one analysis window can come out as nothing, which is an error for the caller
  (`SonicProcessors.ChangeSpeechSpeed`, `SonicProcessors.LostClipsAreShort`);
- the pieces in which audio is written matter where a copy is cut off at an error of exactly zero
  (`Splits.PiecesDoNotMatter`, `Splits.CutAtZeroMatters`);
- the resampler's inner loop does not end when halving the rates loses the input rate (`Resampling.InnerLoopEndsIff`,
  `Resampling.HalvingKeepsInputRateIff`, `Resampling.TinyRateNeverEnds`), and a change of rates in mid-phase can leave
  the phase or the filter (`Resampling.CountingSurvivesIff`, `Resampling.RatiosFitIff`,
  `Resampling.PositionBeyondThePhase`, `Resampling.PitchChangeBreaksPhase`);
- a status applied after its worker left shows a connected worker without a connection
  (`BrowserProtocol.ShownWithoutConnectionIff`, `BrowserProtocol.GhostWorker`), one applied after a new registration
  is shown for the new connection (`BrowserProtocol.AppliedToOwnConnectionIff`), and a registration in the degraded
  phase loses its reason (`BrowserProtocol.ReasonIsLostIff`);
- a change of session without a generation number resets the generation (`BrowserProtocol.GenerationDropsIff`,
  `BrowserProtocol.UnnumberedSwitchGoesBack`);
- the order of event payloads with different fields can matter (`StaleGuards.OrderFreeIff`,
  `StaleGuards.MixedFieldsDependOnOrder`);
- a stopped clip is reported as failed, with the prefixed text (`Playback.StopIsNeverRecognised`);
- the printed replacement list comes back only for well-formed entries (`Replacements.RoundTripIff`,
  `Replacements.ReparseIff`, `Replacements.LostArrow`);
- the display order is a fixed point for every request only in settled settings (`DisplayOrder.FixedForAllIff`,
  `DisplayOrder.CustomSlotMoves`).

Run `dafny verify dfyconfig.toml` with `--resource-limit 2000000`.

## Model

| member | source | states |
|---|---|---|
| `SonicRuns.PlaySchedule` | crates/voicesub-audio/sonic/sonic.c:1150-1166 | for any schedule of speeds and writes, with the passes that the model makes of it: if every pass is at a local speed from half to double, or has less than an analysis window of input, output time and planned time of the input that left the buffer differ by one pitch period and 1e-5 of that time at most, less than one window waits, and the times balance exactly with the time error if and only if the slack of the copying passes adds up to nothing; so always if every pass is at local speed 1 or outside the band. Schedules of moderate speeds have such passes, and those on one side of the band only conserving ones |
| `SonicRuns.PlayEntries` | crates/voicesub-audio/sonic/sonic.c:1150-1166 | the stream refines the schedule model: state, account and new output after all entries are those of a run of the model |
| `SonicRuns.PlayEntry` | crates/voicesub-audio/sonic/sonic.c:1194-1201 | the same for one entry: setting the speed and writing |
| `Schedules.SchedulePlaysOne` | crates/voicesub-audio/sonic/sonic.c:1150-1166 | the schedule determines the output, the passes, the account and what is left waiting |
| `Schedules.ScheduleIsAccounted` | crates/voicesub-audio/sonic/sonic.c:1150-1166 | promised time is planned time; the account is moderate exactly if every pass fits; slack is the sum over the copying passes, and nothing if every pass conserves |
| `Schedules.ModerateSchedulePassesWell` | crates/voicesub-audio/sonic/sonic.c:498-503 | writes at speeds from half to double lead to passes at such local speeds, and writes on one side of the band to passes on that side, however writes mix in the buffer |
| `Schedules.EntryPassesWell` | crates/voicesub-audio/sonic/sonic.c:498-503 | one more write on the same side of the band is played on that side, and what is left plays there too |
| `Schedules.PassKeepsSpeed` | crates/voicesub-audio/sonic/sonic.c:1158-1166 | what a pass leaves waiting plays at the speed of the whole |
| `Splits.PiecesDoNotMatter` | crates/voicesub-audio/sonic/sonic.c:1098-1142 | at one speed from half to double, the pieces in which audio is written do not change what comes out, only how much has come out yet: of two outputs one is a front of the other; unless a copy is cut off at an error of exactly zero |
| `Splits.CutAtZeroMatters` | crates/voicesub-audio/sonic/sonic.c:1098-1104 | such a cut matters: with more input the copy takes exactly one more frame, without it the next turn drops or repeats a period |
| `Splits.CutLeavesNothing` | crates/voicesub-audio/sonic/sonic.c:1098-1142 | it leaves neither input nor time error behind, so it can be told from the state after a write |
| `Splits.CallGoes` | crates/voicesub-audio/sonic/sonic.c:1098-1142 | a call of the loop goes a part of the way that is made frame by frame over all of the audio, and forgets only that it was copying |
| `Splits.OnOneWay` | crates/voicesub-audio/sonic/sonic.c:1098-1142 | of two parts of that way one contains the other |
| `SonicRuns.OutputOnTime` | crates/voicesub-audio/sonic/sonic.c:1071-1145 | the drift bound of a stream from its account |
| `SonicRuns.ExactIff` | crates/voicesub-audio/sonic/sonic.c:1071-1145 | output time plus waiting time minus time error is the planned time if and only if the slack is zero |
| `SonicRuns.PlayChunks` | crates/voicesub-audio/sonic/sonic.c:1089-1145 | at one speed from half to double outside the band (or exactly 1), after writes of any sizes the output is within one maximal pitch period of (input gone) / speed, whatever the length of the stream |
| `SonicRuns.PlayAndFlush` | crates/voicesub-audio/sonic/sonic.c:689-718 | and after a flush between N/speed - maxRequired/speed - maxPeriod and N/speed + maxPeriod + 1/2 frames came out, with input and pitch buffer empty |
| `SonicRuns.WriteChunk` | crates/voicesub-audio/sonic/sonic.c:1194-1201 | one write at the speed of all the others keeps the account of a uniform stream |
| `SonicRuns.UniformLength` | crates/voicesub-audio/sonic/sonic.c:1124-1137 | frames due at one speed against frames produced |
| `SonicRuns.FramesAtOneSpeed` | crates/voicesub-audio/sonic/sonic.c:1124-1137 | conservation in seconds gives a bound in frames |
| `SonicRuns.FlushedLength` | crates/voicesub-audio/sonic/sonic.c:689-718 | what was due before a flush and what the flush may add make up what is due in all |
| `Schedules.MixWaitsWell` | crates/voicesub-audio/sonic/sonic.c:1158-1160 | waiting and new input of moderate speeds, or of one side of the band, have a local speed of that kind |
| `SonicRuns.PassOn` | crates/voicesub-audio/sonic/sonic.c:526-538 | at speed, pitch and rate 1, under every interleaving of writes and reads of any sizes, samples read plus output buffer are the concatenation of the writes |
| `SonicProcessors.SonicProcessor.Create` | crates/voicesub-audio/src/sonic_speed.rs:30-44 | no channels or no sample rate is an error; otherwise a stream at the wanted speed and pitch 1 |
| `SonicProcessors.SonicProcessor.Write` | crates/voicesub-audio/src/sonic_speed.rs:46-56 | an empty write changes nothing; other writes count, and are passed on as they are at speed 1 |
| `SonicProcessors.SonicProcessor.Flush` | crates/voicesub-audio/src/sonic_speed.rs:58-65 | old output stays in front, at most the flush allowance is added, nothing if no input waited |
| `SonicProcessors.SonicProcessor.DrainUpTo` | crates/voicesub-audio/src/sonic_speed.rs:68-83 | min(available, max(maximum, 1)) samples from the front |
| `SonicProcessors.SonicProcessor.DrainAll` | crates/voicesub-audio/src/sonic_speed.rs:85-99 | all output, or the error exactly if there is none |
| `SonicProcessors.SonicProcessor.DrainInPieces` | crates/voicesub-audio/src/sonic_speed.rs:68-83 | draining in pieces of any sizes gives the same samples as draining at once |
| `SonicProcessors.PlayClip` | crates/voicesub-audio/src/sonic_speed.rs:114-127 | length of a written and flushed clip; identity at speed 1; when nothing comes out |
| `SonicProcessors.ChangeSpeechSpeed` | crates/voicesub-audio/src/sonic_speed.rs:114-127 | the errors for no input and for a bad format; a clip gives the error for no output if and only if it is lost, which at speeds from half to double no clip of a whole analysis window is; the length of the result at steady speeds; the input itself at speed 1 |
| `SonicProcessors.NothingComesOutIff` | crates/voicesub-audio/src/sonic_speed.rs:114-127 | nothing comes out if and only if the pass at the write stays silent, and the flush allows for no frame or its pass stays silent too |
| `SonicProcessors.LostClipsAreShort` | crates/voicesub-audio/src/sonic_speed.rs:114-127 | at speeds from half to double a lost clip is shorter than one analysis window and its speed is not in the neutral band |
| `SilentPasses.PassIsSilentIff` | crates/voicesub-audio/sonic/sonic.c:1094-1140 | a pass without a time error puts nothing out if and only if, outside the band, there is less than one window, or the period found for the first window is shorter than speed - 1 |
| `SonicStreams.SonicStream.constructor` | crates/voicesub-audio/sonic/sonic.c:368-441 | a new stream at speed, pitch and rate 1 with empty buffers and open accounts |
| `SonicStreams.SonicStream.EnlargeOutputBufferIfNeeded` | crates/voicesub-audio/sonic/sonic.c:460-475 | growing by half plus the need makes room |
| `SonicStreams.SonicStream.EnlargeInputBufferIfNeeded` | crates/voicesub-audio/sonic/sonic.c:478-493 | the same for the input buffer |
| `SonicStreams.SonicStream.CopyToOutput` | crates/voicesub-audio/sonic/sonic.c:591-600 | output gets the samples at its end and stays within its size |
| `SonicStreams.SonicStream.RemoveInputSamples` | crates/voicesub-audio/sonic/sonic.c:562-576 | the rest of the input and its share of the play time |
| `SonicStreams.SonicStream.CopyUnmodifiedSamples` | crates/voicesub-audio/sonic/sonic.c:1071-1085 | is the copying step of the tempo model: output, position and time error |
| `SonicStreams.SonicStream.SkipPitchPeriod` | crates/voicesub-audio/sonic/sonic.c:1022-1042 | a cross-fade of the counted length into the next period, which starts with the frame at the position |
| `SonicStreams.SonicStream.InsertPitchPeriod` | crates/voicesub-audio/sonic/sonic.c:1045-1067 | a period and a cross-fade back into it, which starts with the frame after the period |
| `SonicStreams.SonicStream.ChangePeriod` | crates/voicesub-audio/sonic/sonic.c:1121-1137 | is the dropping or repeating step of the tempo model |
| `SonicStreams.SonicStream.TempoStep` | crates/voicesub-audio/sonic/sonic.c:1098-1141 | the loop body is one step of the tempo model, with the period that the pitch search answers for the next analysis window and the memory it keeps |
| `SonicStreams.SonicStream.FindPeriod` | crates/voicesub-audio/sonic/sonic.c:1111-1111 | the answer of the search for the window at a position |
| `TempoSearch.ReachesOne` | crates/voicesub-audio/sonic/sonic.c:1089-1145 | steps whose periods are the answers of the search leave no choice: input, pace, time error and memory of the search determine where the loop ends, its output and the memory after it |
| `TempoSearch.LeadsByRun` | crates/voicesub-audio/sonic/sonic.c:1098-1142 | such steps are a run of the step model, so what holds of all runs holds of them |
| `TempoStage.OutputIsUnique` | crates/voicesub-audio/sonic/sonic.c:1150-1166 | a pass of the tempo stage is a function of input, play time, time error and memory: output and everything left behind |
| `TempoStage.CallKeepsTime` | crates/voicesub-audio/sonic/sonic.c:1089-1145 | what a call of the loop does to the time error |
| `SonicStreams.SonicStream.TempoLoop` | crates/voicesub-audio/sonic/sonic.c:1089-1145 | the loop reaches what steps with the answers of the search reach, up to less than one window of input or a stalled step; it ends, stays inside the input, and never gives up at speeds from half to double |
| `SonicStreams.SonicStream.ChangeSpeed` | crates/voicesub-audio/sonic/sonic.c:1089-1145 | input consumed, play time left, and what happens where the loop gives up |
| `SonicStreams.SonicStream.ChangeSpeedOnTime` | crates/voicesub-audio/sonic/sonic.c:1089-1145 | at speeds from half to double, or with less than a window of input, the time error changes by exactly output time added minus input time consumed and stays within one pitch period |
| `SonicStreams.SonicStream.StretchInput` | crates/voicesub-audio/sonic/sonic.c:1155-1166 | new output and the state left behind are what the tempo stage makes of the input, and the accounts stay balanced |
| `SonicStreams.SonicStream.CopyInputToOutput` | crates/voicesub-audio/sonic/sonic.c:579-588 | all input goes to the output and its play time is used up |
| `SonicStreams.SonicStream.CopyInput` | crates/voicesub-audio/sonic/sonic.c:1162-1166 | the same with its account and slack |
| `SonicStreams.SonicStream.ResampleOutput` | crates/voicesub-audio/sonic/sonic.c:886-906 | new output goes through the resampler, earlier output stays |
| `TempoStage.StretchedMeans` | crates/voicesub-audio/sonic/sonic.c:1158-1166 | what a pass makes and leaves behind: a copy in the band, a call of the loop with the answers of the search otherwise, nothing but a look without play time |
| `SonicStreams.SonicStream.CutOutput` | crates/voicesub-audio/sonic/sonic.c:708-711 | output beyond the expected length is thrown away |
| `SonicStreams.SonicStream.SearchOnly` | crates/voicesub-audio/sonic/sonic.c:1158-1161 | input without play time is infinitely fast: a period is looked for and nothing is played |
| `SonicStreams.SonicStream.ProcessStreamInput` | crates/voicesub-audio/sonic/sonic.c:1150-1180 | both stages together: output only grows, accounts stay balanced, and what reaches the resampler |
| `SonicStreams.SonicStream.AddSamplesToInputBuffer` | crates/voicesub-audio/sonic/sonic.c:498-538 | new input with the play time it should take at the present speed |
| `SonicStreams.SonicStream.Write` | crates/voicesub-audio/sonic/sonic.c:1194-1201 | new output and the state left behind are what the tempo stage makes of waiting and new input, directly or resampled; the account with its passes, records, and plain passing on |
| `SonicStreams.SonicStream.Read` | crates/voicesub-audio/sonic/sonic.c:633-654 | the front of the output, at most the wanted number |
| `SonicStreams.SonicStream.FlushThrough` | crates/voicesub-audio/sonic/sonic.c:689-713 | the front, as far as it is expected, of what the stages make of the input followed by silence |
| `SonicStreams.SonicStream.Flush` | crates/voicesub-audio/sonic/sonic.c:689-718 | the same, and then empty buffers and new accounts |
| `SonicStreams.AllowanceIsNearest` | crates/voicesub-audio/sonic/sonic.c:692-696 | a flush allows for the output that is due, rounded to the nearest frame |
| `SonicStreams.PitchKeepsLength` | crates/voicesub-audio/sonic/sonic.c:692-693 | pitch leaves the product of tempo speed and resampling rate alone |
| `SonicStreams.PitchSharesSpeed` | crates/voicesub-audio/sonic/sonic.c:692-693 | a higher pitch slows the tempo stage down and speeds the resampler up, a lower one the opposite |
| `SonicStreams.SonicStream.SetRate` | crates/voicesub-audio/sonic/sonic.c:298-303 | the resampler starts a new phase, and can run exactly if it is not needed or the halved input rate is not zero |
| `SonicStreams.SonicStream.SetPitch` | crates/voicesub-audio/sonic/sonic.c:291-291 | only the pitch changes |
| `SonicStreams.PlainIsNeutral` | crates/voicesub-audio/sonic/sonic.c:1158-1160 | input written at speed 1 has local speed exactly 1 |
| `PlayLedger.DriftIsBounded` | crates/voicesub-audio/sonic/sonic.c:1071-1145 | output produced and play time consumed differ by one pitch period and 1e-5 of the time at most |
| `PlayLedger.WriteKeepsBalance` | crates/voicesub-audio/sonic/sonic.c:498-503 | writing keeps the accounts balanced |
| `PlayLedger.TempoKeepsBalance` | crates/voicesub-audio/sonic/sonic.c:1089-1145 | a call of the tempo loop moves play time from input to output up to the change of the error |
| `PlayLedger.CopyKeepsBalance` | crates/voicesub-audio/sonic/sonic.c:1160-1166 | copying everything keeps the balance up to the stated slack |
| `PlayLedger.CopyConservesIff` | crates/voicesub-audio/sonic/sonic.c:1158-1166 | copying all input conserves play time if and only if the local speed is 1 |
| `TempoCode.StepConservesIff` | crates/voicesub-audio/sonic/sonic.c:1121-1136 | a step conserves play time if and only if the speed is from half to double or the part of the period that is used is exactly the one the speed calls for |
| `TempoCode.RunConservesIff` | crates/voicesub-audio/sonic/sonic.c:1098-1142 | a run does if and only if the speed is from half to double or every part is exact: losses never cancel |
| `TempoCode.TripleSpeedLosesTime` | crates/voicesub-audio/sonic/sonic.c:1124-1128 | a step at speed 3 that does not conserve |
| `PlayLedger.SlackOfOneCopy` | crates/voicesub-audio/sonic/sonic.c:1160-1166 | slack of one copy is at most 1e-5 of its play time |
| `PlayLedger.FindPace` | crates/voicesub-audio/sonic/sonic.c:1158-1159 | the local speed spreads the play time evenly over the input |
| `PlayLedger.MixIsModerate` | crates/voicesub-audio/sonic/sonic.c:498-503 | input written at speeds from half to double has such a local speed |
| `PlayLedger.MixOnSide` | crates/voicesub-audio/sonic/sonic.c:498-503 | input written at speeds above (below) the band has a local speed above (below) it |
| `PlayLedger.BandOrSide` | crates/voicesub-audio/sonic/sonic.c:1160-1160 | a speed is in the neutral band, ends included, or on one of its sides |
| `PlayLedger.RemainingIsDuration` | crates/voicesub-audio/sonic/sonic.c:562-576 | removing input takes exactly its share of the play time |
| `PlayLedger.PlaysAtLocalSpeed` | crates/voicesub-audio/sonic/sonic.c:1158-1159 | input all written at one speed has that local speed |
| `PlayLedger.RestPlaysAt` | crates/voicesub-audio/sonic/sonic.c:562-576 | removing input does not change the speed of the rest |
| `Tempo.StepConserves` | crates/voicesub-audio/sonic/sonic.c:1082-1083 | each step at speeds from half to double changes the error by exactly output time minus input time |
| `Tempo.StepOnTime` | crates/voicesub-audio/sonic/sonic.c:1100-1141 | no step takes the error beyond one maximal pitch period |
| `Tempo.StepAdvances` | crates/voicesub-audio/sonic/sonic.c:1138-1140 | every step moves forward, except where the code gives up, which it never does from half to double speed |
| `Tempo.RunConserves` | crates/voicesub-audio/sonic/sonic.c:1098-1142 | conservation over every run |
| `Tempo.RunOnTime` | crates/voicesub-audio/sonic/sonic.c:1098-1142 | the error bound over every run |
| `Tempo.RunAdvances` | crates/voicesub-audio/sonic/sonic.c:1098-1142 | every run stays inside the input and moves forward at every step but one at which the loop gives up |
| `Tempo.UntilPastOvershoots` | crates/voicesub-audio/sonic/sonic.c:1071-1085 | copying overshoots a zero error by at most the gain of one frame |
| `Tempo.WholePeriodAtTheEnds` | crates/voicesub-audio/sonic/sonic.c:1027-1055 | at double and half speed the part of a period is the whole period |
| `Tempo.PeriodShift` | crates/voicesub-audio/sonic/sonic.c:1124-1136 | a dropped or repeated period moves the error by at most that period |
| `Tempo.FastStepRoundsDown` | crates/voicesub-audio/sonic/sonic.c:1027-1030 | from double speed on, output is at most what the input calls for, by less than a frame per step |
| `Tempo.SlowStepRoundsUp` | crates/voicesub-audio/sonic/sonic.c:1051-1053 | up to half speed, output is at least what the input calls for, by less than an input frame per step |
| `Tempo.RunRounds` | crates/voicesub-audio/sonic/sonic.c:1098-1142 | over a whole run: from double speed on output falls short by at most one frame per step, up to half speed it exceeds by at most one input frame per step |
| `TempoCode.CopyFormulaIsUntilPast` | crates/voicesub-audio/sonic/sonic.c:1073-1078 | the float formula copies exactly until the error is past zero or the input ends |
| `TempoCode.CopyTimeFormula` | crates/voicesub-audio/sonic/sonic.c:1082-1083 | the formula of the error after copying is output time minus input time |
| `TempoCode.SkipFormulaIsSkipCount` | crates/voicesub-audio/sonic/sonic.c:1027-1033 | the truncated quotient counts how often the length fits |
| `TempoCode.InsertFormulaIsInsertCount` | crates/voicesub-audio/sonic/sonic.c:1051-1055 | the same for repeated periods |
| `TempoCode.PeriodTimeFormula` | crates/voicesub-audio/sonic/sonic.c:1125-1135 | the formula of the error after a period is output time minus input time |
| `Frames.BlendInRange` | crates/voicesub-audio/sonic/sonic.c:876-876 | cross-faded values stay in 16 bits, and the products in 32 bits up to 65536 frames |
| `Frames.OverlapAdd` | crates/voicesub-audio/sonic/sonic.c:860-883 | the interleaved loops are the cross-fade of every channel |
| `Frames.BlendFollows` | crates/voicesub-audio/sonic/sonic.c:876-876 | a cross-faded value is the first one at the start, lies between both, and comes from the first to the second step by step, up to rounding |
| `Frames.FadeFollows` | crates/voicesub-audio/sonic/sonic.c:860-883 | the same for every channel of a fade; its first frame is the first one of what it fades from |
| `Frames.FadeEnds` | crates/voicesub-audio/sonic/sonic.c:860-883 | its last frame is one step away from what it fades into |
| `Tempo.StepStartsInPlace` | crates/voicesub-audio/sonic/sonic.c:1098-1137 | the output of every step starts with the input frame at its position; a repeated period comes out as it is, and the fade after it starts with the next frame |
| `Tempo.CopyEndsInPlace` | crates/voicesub-audio/sonic/sonic.c:1071-1085 | copying ends with the frame before the next position |
| `Tempo.SkipEndsInPlace` | crates/voicesub-audio/sonic/sonic.c:1022-1042 | dropping a period ends one fading step away from that frame, so that output goes on where the input does |
| `Tempo.InsertEndsInPlace` | crates/voicesub-audio/sonic/sonic.c:1045-1067 | and so does repeating one |
| `CArith.TruncDivIsNearest` | crates/voicesub-audio/sonic/sonic.c:876-876 | integer division comes as near as it can without going beyond, towards zero |
| `PitchSearch.FindPitchPeriodInRange` | crates/voicesub-audio/sonic/sonic.c:747-781 | the smallest period with the least mean difference, and the least and greatest mean differences |
| `PitchSearch.FoundIsUnique` | crates/voicesub-audio/sonic/sonic.c:747-781 | the answer is uniquely determined by that description |
| `PitchSearch.MinBelowMax` | crates/voicesub-audio/sonic/sonic.c:778-779 | least never exceeds greatest |
| `PitchSearch.BestStep` | crates/voicesub-audio/sonic/sonic.c:769-772 | the cross-multiplied test picks the strictly better period |
| `PitchSearch.WorstStep` | crates/voicesub-audio/sonic/sonic.c:773-776 | and the strictly worse one |
| `PitchSearch.SumDifferences` | crates/voicesub-audio/sonic/sonic.c:757-765 | the sum of absolute differences |
| `CArith.DistanceIsLeast` | crates/voicesub-audio/sonic/sonic.c:763-764 | a distance is the least number that leads from either value to the other |
| `PitchSearch.DiffIsZeroIff` | crates/voicesub-audio/sonic/sonic.c:757-765 | a period has no difference if and only if the samples repeat with it |
| `PitchSearch.SmallestRepeatIsFound` | crates/voicesub-audio/sonic/sonic.c:747-781 | samples that repeat give the smallest period with which they do, and a least mean difference of zero |
| `PitchSearch.NoRepeatDiffers` | crates/voicesub-audio/sonic/sonic.c:747-781 | where no tried period repeats, what is found differs |
| `PitchSearch.MeanIsBetween` | crates/voicesub-audio/sonic/sonic.c:778-779 | a mean difference lies between the least and the greatest difference |
| `PitchSearch.FoundIsBetween` | crates/voicesub-audio/sonic/sonic.c:747-781 | the mean differences that are answered, against the differences of every tried period |
| `PitchTracking.CoarsePeriodsAreShort` | crates/voicesub-audio/sonic/sonic.c:359-365 | at quality 0 the coarse search tries no period over 123 at any sample rate |
| `PitchTracking.CoarseProductsFit` | crates/voicesub-audio/sonic/sonic.c:766-776 | so its products fit in 32 unsigned bits |
| `PitchTracking.RefinedRange` | crates/voicesub-audio/sonic/sonic.c:828-837 | the refined range is never empty and inside the pitch range |
| `PitchTracking.CoarseRange` | crates/voicesub-audio/sonic/sonic.c:825-827 | the coarse range starts at ten or more |
| `PitchTracking.DownSampleInput` | crates/voicesub-audio/sonic/sonic.c:728-743 | averages of all channels over groups of frames |
| `PitchTracking.PitchTracker.FindPitchPeriod` | crates/voicesub-audio/sonic/sonic.c:813-856 | the answer lies in the pitch range, is that of the two passes or the previous one, and only the window is read |
| `PitchTracking.AnswerIsUnique` | crates/voicesub-audio/sonic/sonic.c:813-856 | settings, window and memory determine the answer and the new memory |
| `PitchTracking.PeriodicSoundIsFound` | crates/voicesub-audio/sonic/sonic.c:813-856 | at full resolution and with one channel, a sound that repeats is answered with its smallest period that can be a pitch, whatever was found before |
| `PitchTracking.SureAnswer` | crates/voicesub-audio/sonic/sonic.c:786-808 | an exact or clear match, one not half again as bad as the last, or the first one, is answered |
| `PitchTracking.DoubtfulAnswer` | crates/voicesub-audio/sonic/sonic.c:786-808 | any other match gives way to the period found before |
| `PitchTracking.OldAnswer` | crates/voicesub-audio/sonic/sonic.c:786-808 | the same without the preference for new periods |
| `PitchTracking.RefinedIff` | crates/voicesub-audio/sonic/sonic.c:828-837 | the refined search tries exactly the periods in range at most four skips from the coarse answer |
| `PitchTracking.SkipKeepsRate` | crates/voicesub-audio/sonic/sonic.c:359-365 | down-sampling keeps at least 4 kHz, and less than 4 kHz more |
| `PitchTracking.BlockSumFollows` | crates/voicesub-audio/sonic/sonic.c:728-743 | every value of every channel counts in the sum of a block as much as it is |
| `PitchTracking.AverageIsNearest` | crates/voicesub-audio/sonic/sonic.c:728-743 | the average comes as near to the mean as it can, towards zero |
| `PitchTracking.BlockIsAPart` | crates/voicesub-audio/sonic/sonic.c:728-743 | groups of frames follow each other without a gap |
| `SincFilter.OverflowIsASignFlip` | crates/voicesub-audio/sonic/sonic.c:957-962 | a counted sign flip is exactly an overflow by 2^32 in its direction |
| `SincFilter.Interpolate` | crates/voicesub-audio/sonic/sonic.c:940-971 | wrapping sums with counted flips give the true 12-term sum over 65536, rounded down and clipped to 16 bits |
| `SincFilter.LeftIndex` | crates/voicesub-audio/sonic/sonic.c:925-930 | both table indices stay within the 601 entries |
| `SincFilter.FindSincCoefficient` | crates/voicesub-audio/sonic/sonic.c:925-934 | weights stay within 65534 of zero |
| `SincFilter.CoefficientBetweenNeighbours` | crates/voicesub-audio/sonic/sonic.c:925-934 | a weight lies between twice its two table neighbours |
| `SincFilter.CoefficientProductsFit` | crates/voicesub-audio/sonic/sonic.c:929-933 | every product fits in 32 signed bits |
| `SincFilter.TermFits` | crates/voicesub-audio/sonic/sonic.c:956-956 | each term fits in 32 signed bits |
| `SincFilter.LeftIndexIsLast` | crates/voicesub-audio/sonic/sonic.c:926-928 | the left entry is the last one not beyond the wanted point |
| `SincFilter.CoefficientFollows` | crates/voicesub-audio/sonic/sonic.c:929-933 | at a table entry the weight is twice that entry, and on the way to the next it moves as the point does |
| `SincFilter.FilterSumFollows` | crates/voicesub-audio/sonic/sonic.c:953-957 | every sample counts in the sum as its weight says |
| `SincFilter.ClipIsNearest` | crates/voicesub-audio/sonic/sonic.c:964-969 | clipping takes the nearest 16-bit value |
| `SincGain.WeightsAddUp` | crates/voicesub-audio/sonic/sonic.c:925-934 | at every ratio and width the twelve weights of the table add up to 65536, up to 72 |
| `SincGain.SteadySoundStays` | crates/voicesub-audio/sonic/sonic.c:940-971 | a steady sound keeps its level through the filter, up to 37 of 32768 |
| `SincGain.SampleStays` | crates/voicesub-audio/sonic/sonic.c:940-971 | right on a sample the filter is that sample, up to one |
| `Resampling.SteadySoundIsKept` | crates/voicesub-audio/sonic/sonic.c:974-1019 | a steady sound keeps its level through the resampler, in every channel and at every rate |
| `Resampling.FrameOnFrameIsKept` | crates/voicesub-audio/sonic/sonic.c:974-1019 | an output frame that falls on an input frame is that frame, up to one |
| `Resampling.RatioMeasuresTime` | crates/voicesub-audio/sonic/sonic.c:943-948 | the ratio is the time to the next input frame |
| `Resampling.RatesOf` | crates/voicesub-audio/sonic/sonic.c:976-977 | without halving the output rate is the sample rate over the rate, rounded down |
| `Resampling.HalvedTogether` | crates/voicesub-audio/sonic/sonic.c:985-988 | both rates are halved equally often, and no more often than needed |
| `Resampling.Halved` | crates/voicesub-audio/sonic/sonic.c:985-988 | both rates end up in 14 bits, and are unchanged if they were |
| `Resampling.HalvingKeepsInputRateIff` | crates/voicesub-audio/sonic/sonic.c:985-988 | the input rate survives halving if and only if the output rate, halved as often as the input rate can be before it is lost, fits in 14 bits |
| `Resampling.MadeAtIsUnique` | crates/voicesub-audio/sonic/sonic.c:997-998 | each output frame belongs to one input frame |
| `Resampling.OutputIsDetermined` | crates/voicesub-audio/sonic/sonic.c:974-1019 | the whole output is determined by the whole input, however it is split into calls |
| `Resampling.SplitsAgree` | crates/voicesub-audio/sonic/sonic.c:974-1019 | two converters that heard the same at the same rates have emitted the same and keep the same waiting, whatever the calls were |
| `Resampling.OutputIsStable` | crates/voicesub-audio/sonic/sonic.c:974-1019 | later input does not change earlier output |
| `Resampling.PhaseReset` | crates/voicesub-audio/sonic/sonic.c:1012-1015 | at a phase reset both positions have gone through whole phases |
| `Resampling.GuardMeansDue` | crates/voicesub-audio/sonic/sonic.c:997-998 | the loop guard holds exactly while fewer than ceil((k+1) new/old) frames were made, and then the ratio is in [0, width) |
| `Resampling.PositionsFit` | crates/voicesub-audio/sonic/sonic.c:997-998 | both products of the guard fit in 32 signed bits |
| `Resampling.InnerLoopEndsIff` | crates/voicesub-audio/sonic/sonic.c:997-1010 | the inner loop ends if and only if the input rate is not zero or the output rate is |
| `Resampling.TinyRateNeverEnds` | crates/voicesub-audio/sonic/sonic.c:985-998 | a rate at which it does not end |
| `Resampling.CountingSurvivesIff` | crates/voicesub-audio/sonic/sonic.c:996-1016 | positions that count at some rates count at others if and only if the input position is inside the new phase and both rates make the same number of output frames of it |
| `Resampling.PositionBeyondThePhase` | crates/voicesub-audio/sonic/sonic.c:1012-1015 | positions with the right output number that are past the new phase |
| `Resampling.RatiosFitIff` | crates/voicesub-audio/sonic/sonic.c:943-948 | every ratio of the frames due is inside the filter if and only if the output position is not behind the input position |
| `Resampling.LaterRatiosFit` | crates/voicesub-audio/sonic/sonic.c:996-1010 | which it is after one turn of the loop, wherever it started |
| `Resampling.PitchChangeBreaksPhase` | crates/voicesub-audio/sonic/sonic.c:291-291 | a pitch change in mid-phase after which the ratio leaves the filter |
| `Resampling.RateConverter.ResetPhase` | crates/voicesub-audio/sonic/sonic.c:298-303 | positions at zero, waiting input kept |
| `Resampling.RateConverter.Clear` | crates/voicesub-audio/sonic/sonic.c:716-716 | waiting input dropped, phase kept |
| `Resampling.RateConverter.EmitWhileDue` | crates/voicesub-audio/sonic/sonic.c:997-1010 | the inner loop makes all frames that are due, each the right one, and ends |
| `Resampling.RateConverter.AdvancePast` | crates/voicesub-audio/sonic/sonic.c:1011-1015 | one input frame passed, phase reset included |
| `Resampling.RateConverter.EmitAll` | crates/voicesub-audio/sonic/sonic.c:996-1016 | all but the last twelve frames are passed; output so far is ceil(k new/old) frames |
| `Resampling.RateConverter.AdjustRate` | crates/voicesub-audio/sonic/sonic.c:974-1019 | output count and contents depend on all input so far and not on the calls |
| `BrowserProtocol.OptStr` | crates/voicesub-browser/src/service.rs:436-443 | trimmed text or nothing |
| `BrowserProtocol.Unsigned` | crates/voicesub-browser/src/service.rs:449-454 | negative, missing and oversized numbers read as zero |
| `BrowserProtocol.ActiveIsLastRegistered` | crates/voicesub-browser/src/service.rs:180-196 | ids count registrations and the active one is the last |
| `BrowserProtocol.AcceptedOnlyFromLastRegistered` | crates/voicesub-browser/src/service.rs:381-391 | under every interleaving only messages of the last registered transport are accepted |
| `BrowserProtocol.NumberZeroNeedsNoRegistration` | crates/voicesub-browser/src/service.rs:381-391 | id 0 is accepted before any registration |
| `BrowserProtocol.NotifiedAtMostOnce` | crates/voicesub-browser/src/service.rs:208-233 | each transport causes at most one disconnect notification |
| `BrowserProtocol.ConnectionIsShown` | crates/voicesub-browser/src/service.rs:180-217 | an outbound channel implies a connected worker in the snapshot |
| `BrowserProtocol.ShownWithoutConnectionIff` | crates/voicesub-browser/src/service.rs:315-317 | the converse breaks exactly where a status is applied without a connection |
| `BrowserProtocol.GhostWorker` | crates/voicesub-browser/src/service.rs:235-241 | a run in which it does: a worker reconnects while the status of its first connection is on the way, and leaves again before that is applied |
| `BrowserProtocol.CounterCountsRefused` | crates/voicesub-browser/src/service.rs:381-415 | the counter of ignored events is the number of refusals since the last registration |
| `BrowserProtocol.GenerationDropsIff` | crates/voicesub-browser/src/service.rs:395-417 | between registrations the generation goes down exactly at an accepted change of session without a generation number |
| `BrowserProtocol.UnnumberedSwitchGoesBack` | crates/voicesub-browser/src/service.rs:395-403 | after which an earlier generation is accepted again |
| `BrowserProtocol.RefusalKeepsSessionIff` | crates/voicesub-browser/src/service.rs:406-411 | a refusal changes only the counter, except when it gives a session to a connection that had none |
| `BrowserProtocol.AcceptedGenerationsGrow` | crates/voicesub-browser/src/service.rs:381-417 | accepted generations never go down between registrations |
| `BrowserProtocol.OneSessionPerGeneration` | crates/voicesub-browser/src/service.rs:395-417 | two accepted messages with the same generation and sessions have the same session |
| `BrowserProtocol.ReplacedSessionStaysOut` | crates/voicesub-browser/src/service.rs:395-403 | a replaced session is not accepted again at that generation or an earlier one |
| `BrowserHistory.RefusedIff` | crates/voicesub-browser/src/service.rs:381-417 | in every run a message of the last registered connection is refused if and only if it has a generation, and an accepted message since that registration, not forgotten by a change of session without a generation, had a later one, or the same one and the session is another by now |
| `BrowserHistory.UnnumberedIsAccepted` | crates/voicesub-browser/src/service.rs:409-416 | messages without a generation are always accepted |
| `BrowserHistory.NotBelowIsAccepted` | crates/voicesub-browser/src/service.rs:409-416 | so is a generation that no accepted message of the connection exceeds, as long as the session stays |
| `BrowserHistory.LaterIsAccepted` | crates/voicesub-browser/src/service.rs:395-416 | and a generation later than all of them, in whatever session |
| `BrowserHistory.HistoryTold` | crates/voicesub-browser/src/service.rs:381-417 | session and generation in force, told from messages and verdicts |
| `BrowserMessages.SessionAndGenerationAreRead` | crates/voicesub-browser/src/service.rs:392-393 | the two fields that count, and what their absence means |
| `BrowserMessages.OnlySessionAndGenerationCount` | crates/voicesub-browser/src/service.rs:381-417 | no other field has a say in what is accepted |
| `BrowserMessages.FlagsAreShown` | crates/voicesub-browser/src/service.rs:331-347 | the flags of a status in the snapshot, each under its own name |
| `BrowserMessages.StatesAreShown` | crates/voicesub-browser/src/service.rs:318-330 | its states, with the newer name of the supervisor field first |
| `BrowserMessages.DegradationIsShown` | crates/voicesub-browser/src/service.rs:331-332 | a reason to degrade in snapshot and phase |
| `BrowserMessages.PhaseIsShown` | crates/voicesub-browser/src/operational_fsm.rs:45-85 | speech and connections show in the phase |
| `BrowserMessages.RegistrationIsIdle` | crates/voicesub-browser/src/service.rs:180-196 | what a new connection shows |
| `BrowserMessages.DisconnectIsShown` | crates/voicesub-browser/src/service.rs:208-227 | what a disconnect of the connected transport shows |
| `BrowserMessages.UpdateIsRead` | crates/voicesub-browser/src/service.rs:251-269 | what is handed on of a piece of speech, field by field |
| `BrowserMessages.StampIsAdded` | crates/voicesub-browser/src/service.rs:241-246 | a forwarded status tells its transport and is otherwise as it came |
| `BrowserServices.BrowserService.RegisterConnection` | crates/voicesub-browser/src/service.rs:180-196 | new id, fresh session state and snapshot |
| `BrowserServices.BrowserService.DisconnectTransport` | crates/voicesub-browser/src/service.rs:208-233 | whole new state, and notification exactly for the connected transport |
| `BrowserServices.BrowserService.AcceptPayload` | crates/voicesub-browser/src/service.rs:381-417 | whole new state and the verdict |
| `BrowserServices.BrowserService.ApplyStatusSnapshot` | crates/voicesub-browser/src/service.rs:315-379 | whole new snapshot and phase |
| `BrowserProtocol.PhaseFitsSnapshot` | crates/voicesub-browser/src/operational_fsm.rs:62-72 | in every run the live phase means a connected worker without a degraded reason in the snapshot, and the degraded phase a connected worker |
| `BrowserProtocol.ReasonIsLostIff` | crates/voicesub-browser/src/service.rs:180-196 | a degraded phase has a reason in the snapshot; exactly a registration in that phase loses it |
| `BrowserProtocol.AppliedToOwnConnectionIff` | crates/voicesub-browser/src/service.rs:315-379 | an accepted status that is applied later is shown as the worker state in any case, and belongs to the connection of that moment if and only if no registration came in between |
| `BrowserServices.BrowserService.HandleStatus` | crates/voicesub-browser/src/service.rs:235-249 | accepted statuses are applied and forwarded with their transport |
| `BrowserServices.BrowserService.HandleExternalUpdate` | crates/voicesub-browser/src/service.rs:251-277 | accepted updates are noted and handed on |
| `StaleGuards.StaleGuard.IsWsEventStale` | src/lib/ws-stale-guard.ts:21-69 | the verdict, the new mark of this event type, and unchanged marks of all others |
| `StaleGuards.PassesAgain` | src/lib/ws-stale-guard.ts:21-69 | a payload just accepted passes again without a trace, whatever fields it lacks |
| `StaleGuards.RefusedLeavesNoTrace` | src/lib/ws-stale-guard.ts:29-60 | refused payloads leave the guard as it is |
| `StaleGuards.RemembersGreatest` | src/lib/ws-stale-guard.ts:42-68 | after payloads of one shape the guard remembers the lexicographically greatest |
| `StaleGuards.OrderDoesNotMatter` | src/lib/ws-stale-guard.ts:42-68 | permuted payloads of one shape leave the same guard |
| `StaleGuards.AcceptedIffGreatestSoFar` | src/lib/ws-stale-guard.ts:42-68 | accepted exactly if nothing greater came before |
| `StaleGuards.AcceptedIncrease` | src/lib/ws-stale-guard.ts:42-68 | different accepted payloads strictly increase |
| `StaleGuards.GreatestIsLastAccepted` | src/lib/ws-stale-guard.ts:42-68 | the greatest is accepted when it comes and is the last to be |
| `StaleGuards.CommuteIff` | src/lib/ws-stale-guard.ts:42-68 | two payloads with any fields commute at a guard if and only if they do not clash there |
| `StaleGuards.OrderFreeIff` | src/lib/ws-stale-guard.ts:42-68 | payloads with any fields, as many of them as arrive, leave the same guard in every order if and only if no two of them clash |
| `StaleGuards.NoClashNoOrder` | src/lib/ws-stale-guard.ts:42-68 | permutations without a clash leave the same guard |
| `StaleGuards.LatestWins` | src/lib/ws-stale-guard.ts:42-68 | a payload later than all others in time and in number is remembered in every order, whatever fields the others have |
| `StaleGuards.ClashIsCovered` | src/lib/ws-stale-guard.ts:42-68 | three payloads, two of which clash, with one outcome in every order |
| `StaleGuards.ClashAtBlank` | src/lib/ws-stale-guard.ts:42-68 | what a clash is before anything has arrived |
| `StaleGuards.MixedFieldsDependOnOrder` | src/lib/ws-stale-guard.ts:42-68 | three payloads whose order matters because one lacks a time |
| `StaleGuards.TimeNeverGoesBack` | src/lib/ws-stale-guard.ts:42-51 | the remembered time never goes back, for payloads of any shape |
| `StaleGuards.SequenceGoesBackIff` | src/lib/ws-stale-guard.ts:46-51 | the remembered number goes back exactly at a later time with an earlier number |
| `StaleGuards.NormalizedTypesAreFixed` | src/lib/ws-stale-guard.ts:1-10 | normalised event types are fixed points and never the old names |
| `EventFields.NumbersDecide` | src/lib/ws-stale-guard.ts:32-60 | of two events without times the lower number is refused after the other and not before it; the number is event_sequence, and sequence where that is missing |
| `EventFields.SameNumberPasses` | src/lib/ws-stale-guard.ts:53-60 | events of the same number pass one after the other |
| `EventFields.TimesDecide` | src/lib/ws-stale-guard.ts:34-51 | of two events with times the earlier one is refused after the later one and not before it, whatever their numbers; the time is created_at_ms unless that is zero or no number, then updated_at, then timestamp |
| `EventFields.NumbersDecideAtOnce` | src/lib/ws-stale-guard.ts:42-60 | at the same time the numbers decide |
| `EventFields.NothingToGoBy` | src/lib/ws-stale-guard.ts:32-68 | an event with neither passes always and leaves no trace |
| `EventFields.WhatIsRemembered` | src/lib/ws-stale-guard.ts:61-68 | number and time of an accepted event are remembered where it has them |
| `EventFields.OtherFieldsDoNotCount` | src/lib/ws-stale-guard.ts:32-36 | fields that do not count may hold anything |
| `EventFields.FieldsAreRead` | src/lib/ws-stale-guard.ts:32-40 | every event has a number or none, and a time or none |
| `EventFields.StaleAndOther` | src/lib/ws-stale-guard.ts:26-31 | events that call themselves stale are refused, and what is no object passes |
| `EventFields.OldNamesMeanNewOnes` | src/lib/ws-stale-guard.ts:1-10 | old names of event types mean the current ones |
| `Overlays.Overlay.ScheduleOverlayPayload` | bin/overlay/overlay.js:64-77 | the payload waits for the frame and replaces an earlier one |
| `Overlays.Overlay.OnMessage` | bin/overlay/overlay.js:514-533 | exactly the accepted payloads of the current connection are scheduled, and transcripts with their own guard are noted |
| `Overlays.Overlay.OnFrame` | bin/overlay/overlay.js:69-76 | a frame shows exactly the last payload accepted since the frame before; the second check drops nothing |
| `Overlays.Overlay.ApplyOverlayPayload` | bin/overlay/overlay.js:427-431 | shown unless refused |
| `Overlays.Overlay.Connect` | bin/overlay/overlay.js:495-497 | a new connection id, everything else kept |
| `Overlays.Replay` | bin/overlay/overlay.js:64-77 | over any interleaving of connections, messages and frames |
| `Overlays.NothingIsLost` | bin/overlay/overlay.js:64-77 | every accepted payload, or a later one of the same frame, is shown or next to be shown |
| `Overlays.CurrentPayloadIsTaken` | bin/overlay/overlay.js:514-530 | an overlay payload of the current connection that is not refused is the next to be shown |
| `Overlays.OldConnectionIsIgnored` | bin/overlay/overlay.js:495-512 | after a new connection the messages of the one before change nothing |
| `Overlays.OtherConnectionIsIgnored` | bin/overlay/overlay.js:514-517 | messages of any other connection change nothing |
| `Overlays.OtherTypesAreIgnored` | bin/overlay/overlay.js:514-530 | nor do messages of other types |
| `Playback.StopIsNeverRecognised` | crates/voicesub-audio/src/playback.rs:240-244 | no error display is the bare text, so the stopped outcome never occurs |
| `Playback.DisplayTellsWhy` | crates/voicesub-audio/src/playback.rs:195-200 | the display of an error of playback ends with its reason |
| `Playback.StretchRateIsSteady` | crates/voicesub-audio/src/playback.rs:287-294 | every rate that reaches the stretcher is one at which the length results hold |
| `Playback.Worker.TakeLabel` | crates/voicesub-audio/src/playback.rs:149-160 | an open stream of another label is closed, so that one that stays open carries the label last taken |
| `Playback.Worker.DrainPendingPlayCommands` | crates/voicesub-audio/src/playback.rs:206-230 | commands are taken up to the first look that finds none; labels count, Plays are dropped |
| `Playback.Worker.EnsureOutputCache` | crates/voicesub-audio/src/playback.rs:247-274 | an open stream is always the right one; otherwise one is opened |
| `Playback.Worker.PollWorkerControl` | crates/voicesub-audio/src/playback.rs:341-364 | a stop or a closed queue ends the clip, nothing else does |
| `Playback.Worker.PollUntilDone` | crates/voicesub-audio/src/playback.rs:312-338 | success exactly if the sink runs empty before a stop is taken or the queue is closed; it ends |
| `Playback.CompletesIff` | crates/voicesub-audio/src/playback.rs:276-339 | a clip completes if and only if it has something to play, all calls to devices and decoders go well, no stop is taken and the queue is not closed before the sink runs empty, and a stretched clip has put something into the sink |
| `Playback.PlainClipCompletes` | crates/voicesub-audio/src/playback.rs:276-339 | so a clip at normal speed without fault, stop or closed queue completes |
| `Playback.DrainedUpTo` | crates/voicesub-audio/src/playback.rs:206-230 | after a stop everything goes up to the first look that finds nothing |
| `Playback.StretchRateIs` | crates/voicesub-audio/src/playback.rs:288-294 | rates from half to double are taken as they are, others at the nearest; within 0.02 of normal speed nothing is stretched |
| `Playback.Worker.StretchIfNeeded` | crates/voicesub-audio/src/playback.rs:294-310 | how stretching ends, from what the queue, the calls and the sink answer |
| `Playback.Worker.PlayMp3Blocking` | crates/voicesub-audio/src/playback.rs:276-339 | label, queue, accounts and order are kept through every exit, and the fault is the first of everything that can go wrong |
| `Playback.Worker.PlayMp3Interruptible` | crates/voicesub-audio/src/playback.rs:232-245 | never the stopped outcome; completed exactly where the clip has no fault, failed with that fault otherwise |
| `Playback.Worker.PlayOne` | crates/voicesub-audio/src/playback.rs:165-200 | one completion per Play, the one that the answers of the world call for; after a failure no stream is kept, after a success the stream stays unless the label changed |
| `Playback.Worker.HandleCommand` | crates/voicesub-audio/src/playback.rs:148-201 | the invariants at each command boundary, and one completion exactly for a Play |
| `Playback.Worker.ChannelWorkerLoop` | crates/voicesub-audio/src/playback.rs:140-204 | over every run: cached stream carries the current label, which is the last one taken; Plays taken are completions plus drops; completions in queue order, each the one that the answers of the world call for; commands in the order sent; it ends when the queue is empty or closed |
| `Chunker.ChunkTextForGoogleTts` | src-tts/lib/google-tts.ts:43-77 | chunks of 1 to maxChars characters are the trimmed stretches between cuts in order, only spaces are skipped between them, the last ends with the text, and each cut is where it has to be; visible text is kept in order |
| `Chunker.ChunkLongText` | src-tts/lib/google-tts.ts:52-76 | the same for text that needs cutting; the loop ends |
| `Chunker.GoodCutIsUnique` | src-tts/lib/google-tts.ts:55-68 | where a piece starts determines where it ends: the end of the text, the last space late enough, or the full length |
| `Chunker.CutMeans` | src-tts/lib/google-tts.ts:55-68 | before the end of the text a cut falls on the last space from two fifths of the length on, or there is none and the piece is full |
| `Chunker.FindCut` | src-tts/lib/google-tts.ts:55-68 | where a piece ends |
| `Chunker.LastSpace` | src-tts/lib/google-tts.ts:58-64 | the last space in the window |
| `Chunker.PieceShowsItsStretch` | src-tts/lib/google-tts.ts:69-74 | a piece and the spaces skipped after it show what that stretch of text shows |
| `Text.TrimCuts` | src-tts/lib/google-tts.ts:47-47 | trimming cuts off all white space at both ends and nothing between |
| `Text.CharacterShows` | src-tts/lib/google-tts.ts:47-47 | which single characters show |
| `Text.SpacesDiffer` | src-tts/lib/google-tts.ts:47-47 | white space in the Rust and the JavaScript parts differs in two characters |
| `Replacements.ParseReplacementLines` | src-tts/lib/twitch-replacements.ts:4-16 | the entries of all lines, in order |
| `Replacements.RoundTripIff` | src-tts/lib/twitch-replacements.ts:4-22 | parsing a printed list gives it back if and only if every entry is well formed |
| `Replacements.ReparseIff` | src-tts/lib/twitch-replacements.ts:4-22 | a parsed text survives printing and parsing if and only if no line that gives an entry has "=>>" after its first "=>"; that is, no right side has an arrow |
| `Replacements.ArrowOfLine` | src-tts/lib/twitch-replacements.ts:7-13 | the right side of an entry has an arrow if and only if its line is like that |
| `Replacements.ArrowIsLost` | src-tts/lib/twitch-replacements.ts:4-22 | text with a right side that gains an arrow by being read does not survive |
| `Replacements.LostArrow` | src-tts/lib/twitch-replacements.ts:4-22 | the text "a => b =>> c" is one of them |
| `Replacements.LineRoundTrip` | src-tts/lib/twitch-replacements.ts:7-13 | one line comes back exactly if its right side has no arrow |
| `Replacements.AllReadable` | src-tts/lib/twitch-replacements.ts:4-16 | every parsed entry is trimmed, not empty, in one line, with no arrow or comment sign on the left |
| `Replacements.PrintedArrowIsFirst` | src-tts/lib/twitch-replacements.ts:18-22 | the first arrow of a printed line is the printed one |
| `Replacements.LinesJoined` | src-tts/lib/twitch-replacements.ts:6-6 | joined lines come apart again |
| `Replacements.LinesComeApart` | src-tts/lib/twitch-replacements.ts:6-6 | lines end with a newline, with or without a carriage return |
| `Replacements.EqualsLine` | src-tts/lib/twitch-replacements.ts:7-13 | a line with an equals sign and no arrow goes from what is before the first one to everything after it |
| `Replacements.CommentGivesNothing` | src-tts/lib/twitch-replacements.ts:7-8 | comments and empty lines give nothing |
| `Replacements.SpaceAroundLine` | src-tts/lib/twitch-replacements.ts:7-7 | white space around a line makes no difference |
| `DisplayOrder.FirstLineWins` | crates/voicesub-config/src/normalize.rs:303-329 | the mapping gives a language a slot if and only if some enabled line carries both and no earlier enabled line carries that language with a slot |
| `DisplayOrder.LegacyLanguageToSlot` | crates/voicesub-config/src/normalize.rs:303-329 | the loop builds that mapping |
| `DisplayOrder.NormalizeDisplayOrder` | crates/voicesub-config/src/normalize.rs:332-375 | mentions, source and enabled slots, added once each |
| `DisplayOrder.ShowsEverythingOnce` | crates/voicesub-config/src/normalize.rs:332-375 | exactly source and enabled slots, without repetition |
| `DisplayOrder.FirstMentionOrder` | crates/voicesub-config/src/normalize.rs:337-372 | in the order of first mention |
| `DisplayOrder.RequestedComeFirst` | crates/voicesub-config/src/normalize.rs:337-367 | requested lines come first |
| `DisplayOrder.TargetIsShown` | crates/voicesub-config/src/normalize.rs:346-362 | a request can only stand for the source or an enabled slot |
| `DisplayOrder.FixedForAllIff` | crates/voicesub-config/src/normalize.rs:332-375 | normalising again changes nothing for any request if and only if the settings are settled |
| `DisplayOrder.SettledIsFixed` | crates/voicesub-config/src/normalize.rs:332-375 | settled settings give fixed points |
| `DisplayOrder.UnsettledMoves` | crates/voicesub-config/src/normalize.rs:332-375 | other settings have a request that moves |
| `DisplayOrder.CustomSlotMoves` | crates/voicesub-config/src/normalize.rs:332-375 | a custom slot whose order moves when it is normalised again |
| `DisplayOrder.CanonicalIsSettled` | crates/voicesub-config/src/normalize.rs:277-283 | settings with canonical slot ids are settled |
| `DisplayOrder.StableThenUnstable` | crates/voicesub-config/src/normalize.rs:365-372 | the shape of the result in settled settings |
| `DisplayOrder.ShownIsReadAsItIs` | crates/voicesub-config/src/normalize.rs:337-342 | the result is read as it is when it is requested again |
| `DisplayOrder.OffIsLeftOut` | crates/voicesub-config/src/normalize.rs:303-375 | a line that is not enabled, or no object, might as well not be there, whatever is requested |
| `DisplayOrder.OthersAreShown` | crates/voicesub-config/src/normalize.rs:285-300 | a line that says nothing of it is enabled |
| `Text.LetterIsLowered` | crates/voicesub-config/src/normalize.rs:293-293 | capitals become the small letter at the same place of the alphabet, and nothing else changes |

## Left out

- Floating point rounding, and conversion between float, unsigned char and 16-bit samples: `speed`, `timeError`,
  `inputPlayTime`, `samplePeriod` are reals, samples are 16-bit integers, and the wrapper passes 16-bit samples.
- Allocation failure: growing a buffer always succeeds, so the error returns that only report it are left out.
- The order of the filter table in memory: it is laid out by point instead of by lobe, with the same 601 values; that
  they are samples of a windowed sinc is only shown as far as `SincGain` goes.
- Volume scaling, which the wrapper never asks for; `sonicSetSampleRate` and `sonicSetNumChannels`; the spectrogram, sine
  and no-malloc builds.
- Sample rates from 1 to 64, at which the pitch range is empty and the C code divides by zero.
- Wrapper calls with more than one channel: the wrapper passes interleaved lengths where the C interface counts frames.
- Buffer addresses: buffers are sequences with a recorded size; the pitch buffer, whose recorded size exceeds its
  allocation (sonic.c:392-394), is a sequence without a size.
- SonicStreams.SonicStream.constructor: requires a sample rate of at least 65, because the pitch range is empty below it.
- SonicStreams.SonicStream.SetSpeed: requires a positive speed; the C interface takes any value.
- SonicStreams.SonicStream.SetPitch: requires a positive pitch, in the same way.
- SonicStreams.SonicStream.SetRate: requires a positive rate, in the same way.
- SonicRuns.PlaySchedule: is stated for pitch and rate 1, because the wrapper never sets another pitch or rate. Passes
  outside half to double speed with a whole window of input are not part of its account; their exact condition is
  `TempoCode.RunConservesIff`, and their rounding `Tempo.RunRounds`.
- Splits.PiecesDoNotMatter: is stated for one speed from half to double; at other speeds a call that gives up plays the
  input that it leaves behind again, and where speeds change the pieces decide what mixes in the buffer.
- Resampling.RateConverter.AdjustRate: requires an input rate that survives halving and positions that count at the rate
  asked for. Where the input rate is lost the loop does not end, or makes nothing; where the positions do not count the
  output depends on where the phase stood. `Resampling.InnerLoopEndsIff`, `Resampling.HalvingKeepsInputRateIff`,
  `Resampling.CountingSurvivesIff` and `Resampling.RatiosFitIff` say exactly when.
- SonicStreams.SonicStream.ResampleOutput: requires the same.
- SonicStreams.SonicStream.ProcessStreamInput: requires the same, unless the rate is 1.
- SonicStreams.SonicStream.FlushThrough: requires the same, unless the rate is 1.
- SonicStreams.SonicStream.Flush: requires the same, unless the rate is 1.
- SonicStreams.SonicStream.Write: requires the same, unless the rate is 1.
- SonicProcessors.SonicProcessor.Create: requires at most one channel, a sample rate of 0 or at least 65, and a positive
  speed; the player clamps its rate to 0.5 to 2.
- SonicProcessors.ChangeSpeechSpeed: requires the same.
- Wrap-around of 64-bit transport ids and counters.
- BrowserServices.BrowserService.HandleStatus: runs its two lock regions without another step between them; runs with
  other steps between them are covered by `BrowserProtocol`.
- BrowserServices.BrowserService.HandleExternalUpdate: in the same way.
- Snapshot fields that are only copied from the status message, the clock, the control channel and the callbacks.
- StaleGuards.OrderFreeIff: is about every part of the payloads that may arrive; where all of them are sure to arrive
  `StaleGuards.NoClashNoOrder` and `StaleGuards.LatestWins` are two conditions under which no order matters.
- StaleGuards.NormalizedTypesAreFixed: lower-casing is that of ASCII letters; other letters are left as they are.
- JavaScript's reading of numbers and dates: a field is given by what it reads as, and every combination is allowed.
- Rendering of overlay payloads: the list of payloads applied stands for it.
- MP3 decoding, devices and sinks: each call ends well or with any error, and the sink is empty or not.
- Playback.Worker.PollWorkerControl: stands for the timed look of the poll loop as well, which reacts in the same way.
- Volume of a clip, and the number of channels of a decoded clip.
- Chunker.ChunkTextForGoogleTts: characters are Unicode scalar values; lone surrogates are not modelled, and two fifths
  of the length is taken exactly.
- DisplayOrder.NormalizeDisplayOrder: works on strings; wrapping them as JSON values is left out, as is the rest of the
  configuration normaliser.
- The speech queue, the TTS window watchdog, Chrome and WebView2 handling, routing, profiles, exports and the user
  interface: operating system and framework behaviour, or easy members.
