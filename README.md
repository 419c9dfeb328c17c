# tracking-trilha in Dafny

A model of the in-memory core of tracking-trilha. The firmware half runs on a Raspberry Pi Pico
and samples a pulse oximeter and an accelerometer. It keeps the newest readings of every
channel in fixed buffers and classifies drained batches against five configured thresholds. Each
collection tick shows the results on an OLED display. The web half is a browser tool that reads
and writes the analyzer configuration file and charts a file of logged readings. It is modelled
as its parsers, its configuration editor and its data view.

Modules, one per source file (the first two hold shared types):

- `Wrappers`, `SensorTypes` (`wrappers.dfy`, `types.dfy`)
  - `Option`.
  - The sensor, sample and health-status enumerations.
  - `MAX_BUFFER_SIZE`.
  - `Data`: a timestamp and a batch of values.
- `Analyzers` (`analyzer.dfy`): the threshold classifier.
  - `Scan` is the reference definition, a left fold over the batch.
  - `Analyzer.Analyze` is the nested loop with its early break, proved equal to `Scan`.
- `Registry` (`registry.dfy`): the `State` slot arrays.
  - The pure functions `InsertFirstFree`, `LookupSensor` and `LookupAnalyzer` specify them.
- `SampleBuffers` (`sample_buffer.dfy`): the shift-on-full push both sensors use.
  - `Pushed` and `LastN` define its window on sequences.
  - `PushSample` works on an `array<real>`.
- `Accelerometers`, `Oximeters` (`accelerometer.dfy`, `oximeter.dfy`): the two sensors.
  - Each is a class holding fixed arrays and size fields.
  - Driver readings, validity flags, lock outcomes and clock values are parameters.
- `Collect` (`state_collect.dfy`): one `StateCollect::Update` tick.
  - It is specified as the sequence of calls it makes (`TickTrace`).
- `SdCard` (`sd.dfy`): the SD-card wrapper.
  - It covers the initialized/mounted lifecycle, the C-string truncation of the mount point and of full paths, and the bounds of `readFromFile`.
- `Buzzers` (`buzzer.dfy`): `setTone`'s guards, clamps and level bounds, and the `playing` flag.
- `WebText` (`web_text.dfy`): JavaScript `trim`, `split` and `join` on strings.
- `WebConfig` (`web_config.dfy`): `parseConfigFile`, `parseSensorData`, `downloadConfig` and the configuration editor.
- `WebView` (`web_view.dfy`): the type filters, the health-status counts, `createDatasets` and `getColor`.

The scan in `analyzer.cpp` takes, for each value, the lowest threshold index the value crosses, and the last crossing value decides the status. So with thresholds [0, 60, 100, 140, 180] the value 150 is CRITICAL_LOW, as is every positive value (`Analyzers.ExampleThresholds`).

Where the source contradicts itself, the model follows the declarations:

- **`wanted_samples` initializer.** `state_collect.h` declares the table with SAMPLE_TYPE_QTT (four) entries. The initializer in `state_collect.cpp` lists six entries and names constants that `sensor.h` does not declare. The model uses a four-entry table of the declared sample types, in enumeration order.

## Model

| member | source | states |
|---|---|---|
| `Analyzers.FirstCrossedFrom` | tracking-trilha/src/analyzer/analyzer.cpp:10-15 | the inner loop from index `from`: the first j >= from with value > thresholds[j], and every index before it is not crossed; None exactly when no index from `from` on is crossed |
| `Analyzers.FirstCrossed` | tracking-trilha/src/analyzer/analyzer.cpp:10-15 | one value's status: the lowest crossed threshold index, with no lower index crossed; None exactly when the value crosses none of the five |
| `Analyzers.ScanSnoc` | tracking-trilha/src/analyzer/analyzer.cpp:9-16 | one more value overwrites the status with its own lowest crossed index when it crosses anything, and otherwise leaves it |
| `Analyzers.ScanQuiet` | tracking-trilha/src/analyzer/analyzer.cpp:7-16 | a batch (the empty batch included) in which no value crosses a threshold classifies as NORMAL |
| `Analyzers.ScanLastCrossing` | tracking-trilha/src/analyzer/analyzer.cpp:9-16 | last write wins: the result is the lowest crossed index of the last value that crosses anything, whatever came before |
| `Analyzers.SingleValue` | tracking-trilha/src/analyzer/analyzer.cpp:10-15 | a one-value batch gives j exactly when j is its lowest crossed index, or j is NORMAL and nothing is crossed |
| `Analyzers.AboveLowestThreshold` | tracking-trilha/src/analyzer/analyzer.cpp:10-14 | a last value above thresholds[0] gives CRITICAL_LOW whatever the other thresholds are |
| `Analyzers.QuietValueKeepsStatus` | tracking-trilha/src/analyzer/analyzer.cpp:11-14 | appending a value that crosses nothing leaves the status of the earlier values |
| `Analyzers.ExampleThresholds` | tracking-trilha/src/analyzer/analyzer.cpp:6-19 | with thresholds [0,60,100,140,180], every positive value (150 included) is CRITICAL_LOW, [190, 10] is CRITICAL_LOW, and -5 stays NORMAL |
| `Analyzers.Analyzer.constructor` | tracking-trilha/src/analyzer/analyzer.cpp:3-4 | the analyzer keeps the configuration it is built with |
| `Analyzers.Analyzer.Analyze` | tracking-trilha/src/analyzer/analyzer.cpp:6-19 | the nested loop with its early break returns the reference scan of the batch, NORMAL for an empty batch; it modifies nothing, so data and config are untouched |
| `Registry.FirstFree` | tracking-trilha/src/state/state.cpp:11-15 | the lowest empty slot below the bound, with every earlier slot occupied; None exactly when all of them are occupied |
| `Registry.FirstMatch` | tracking-trilha/src/state/state.cpp:21-25 | the lowest occupied slot below the bound whose entry matches, with no earlier match; None exactly when nothing below the bound matches |
| `Registry.InsertionFacts` | tracking-trilha/src/state/state.cpp:10-18 | insertion succeeds exactly when a slot below the bound is free; it then fills the lowest free slot and changes no other slot; on failure nothing changes |
| `Registry.LookupSensor` | tracking-trilha/src/state/state.cpp:20-27 | the answer is a sensor of the asked kind, and there is one exactly when some slot holds a sensor of that kind |
| `Registry.LookupSensorFirst` | tracking-trilha/src/state/state.cpp:21-25 | the sensor GetSensor answers sits in a slot below SENSOR_TYPE_QTT with no earlier sensor of that kind |
| `Registry.LookupAnalyzer` | tracking-trilha/src/state/state.cpp:40-48 | the answer matches both the sensor type and the sample type, and there is one exactly when some slot matches both |
| `Registry.LookupAnalyzerFirst` | tracking-trilha/src/state/state.cpp:42-47 | the analyzer GetAnalyzer answers sits in a slot below SENSOR_TYPE_QTT with no earlier analyzer matching both keys |
| `Registry.ThirdAnalyzerRejected` | tracking-trilha/src/state/state.cpp:29-38 | in the four-slot analyzer array two insertions succeed and the third fails, leaving slots 2 and 3 empty |
| `Registry.DuplicateSensor` | tracking-trilha/src/state/state.cpp:10-27 | the same sensor added twice fills both slots, and its lookup finds slot 0 |
| `Registry.State.constructor` | tracking-trilha/src/state/state.cpp:3-8 | every slot is empty, so every sensor and analyzer lookup answers null; no pop or quit is requested (the source clears only analyzer slots 0-1, see Left out) |
| `Registry.State.AddSensor` | tracking-trilha/src/state/state.cpp:10-18 | the result and the new slot array are those of first-free insertion below SENSOR_TYPE_QTT |
| `Registry.State.GetSensor` | tracking-trilha/src/state/state.cpp:20-27 | the linear scan returns the first registered sensor of the kind, or null, and changes nothing |
| `Registry.State.AddAnalyzer` | tracking-trilha/src/state/state.cpp:29-38 | first-free insertion below SENSOR_TYPE_QTT, not below the array's four slots |
| `Registry.State.GetAnalyzer` | tracking-trilha/src/state/state.cpp:40-48 | the linear scan returns the first analyzer matching both keys, or null, and changes nothing |
| `SampleBuffers.PushAll` | tracking-trilha/src/sensors/oximeter.cpp:151-163 | repeated pushes never take a buffer past MAX_BUFFER_SIZE entries |
| `SampleBuffers.PushedIsLastN` | tracking-trilha/src/sensors/accelerometer.cpp:60-85 | one push onto the newest ten readings gives the newest ten readings with the new one |
| `SampleBuffers.PushAllKeepsNewest` | tracking-trilha/src/sensors/accelerometer.cpp:60-85 | after any pushes the buffer holds the newest MAX_BUFFER_SIZE readings of old contents plus pushed values, in insertion order |
| `SampleBuffers.FromEmpty` | tracking-trilha/src/sensors/oximeter.cpp:151-163 | from an empty buffer, N >= 10 pushes leave exactly the last ten values pushed |
| `SampleBuffers.ShiftBuffer` | tracking-trilha/src/sensors/oximeter.cpp:151-153 | shift_buffer as its call sites use it: entries move down by one, the size drops by one, nothing past the old size changes |
| `SampleBuffers.PushSample` | tracking-trilha/src/sensors/accelerometer.cpp:60-82 | the buffer's contents become the shift-on-full push of the new value, with 1 <= size <= MAX_BUFFER_SIZE |
| `Accelerometers.Accelerometer.constructor` | tracking-trilha/src/sensors/accelerometer.cpp:8-24 | four fresh distinct buffers of MAX_BUFFER_SIZE entries, all sizes 0, type ACCELEROMETER |
| `Accelerometers.Accelerometer.Update` | tracking-trilha/src/sensors/accelerometer.cpp:32-93 | a NaN axis, a missing mutex or a failed lock leaves every buffer and size unchanged; otherwise x, y, z and the magnitude each get exactly one shift-on-full push |
| `Accelerometers.Accelerometer.GetData` | tracking-trilha/src/sensors/accelerometer.cpp:95-132 | succeeds exactly with mutex, lock, SAMPLE_TYPE_ACCEL and a non-empty magnitude buffer; it then hands out that buffer, stamps the time and resets only the magnitude size; once locked the time is stamped on failure too; x, y, z never change |
| `Oximeters.Oximeter.constructor` | tracking-trilha/src/sensors/oximeter.cpp:10-35 | three fresh distinct buffers of MAX_BUFFER_SIZE entries, all sizes 0, both validity flags 0, no task |
| `Oximeters.Oximeter.UpdateInternal` | tracking-trilha/src/sensors/oximeter.cpp:109-168 | the estimates and flags are always stored; the three buffers each take one shift-on-full push exactly when both flags are valid and the lock is taken, and are untouched otherwise |
| `Oximeters.Oximeter.Update` | tracking-trilha/src/sensors/oximeter.cpp:103-107 | the orchestrator's Update changes nothing |
| `Oximeters.Oximeter.GetData` | tracking-trilha/src/sensors/oximeter.cpp:44-101 | succeeds exactly when both flags are valid, the lock is taken and the asked channel is non-empty; it then hands out that channel, resets only it and stamps the time; every other channel and every failed drain leaves the buffers unchanged; an invalid window writes no timestamp |
| `Oximeters.Oximeter.StartTask` | tracking-trilha/src/sensors/oximeter.cpp:174-194 | nothing happens when a task exists or there is no mutex; otherwise the task exists afterwards exactly when creation succeeded, and running matches existing |
| `Oximeters.Oximeter.StopTask` | tracking-trilha/src/sensors/oximeter.cpp:196-203 | idempotent: afterwards there is no task and nothing runs |
| `Collect.SampleEventsSound` | tracking-trilha/src/state/state_collect.cpp:42-61 | each event of one wanted-sample step is justified: a drain attempt of that sample, a sample line on line idx+1 with the first drained value, an analysis with the analyzer's status, and a status line on line 7 only showing the status of an analysis that is due |
| `Collect.SampleEventsAttempted` | tracking-trilha/src/state/state_collect.cpp:42-45 | one wanted-sample step always attempts the drain of its sample, whatever the drain returns |
| `Collect.SampleEventsAnalysed` | tracking-trilha/src/state/state_collect.cpp:47-60 | one wanted-sample step performs its analysis, with the scan's status, whenever the drain returns data and an analyzer matches |
| `Collect.SampleEventsKeys` | tracking-trilha/src/state/state_collect.cpp:42-61 | one step's drain attempt and analysis carry the (kind, sample) key of that step |
| `Collect.SampleEventsOrdered` | tracking-trilha/src/state/state_collect.cpp:42-61 | one step holds at most one drain attempt and at most one analysis, so each is trivially in increasing key order |
| `Collect.SamplesUpToSound` | tracking-trilha/src/state/state_collect.cpp:42-64 | every event of the first n wanted samples of a sensor is justified, a line-7 status print included only with the status of a due analysis |
| `Collect.SamplesUpToAttempted` | tracking-trilha/src/state/state_collect.cpp:42-45 | the first n wanted samples of a sensor each have their drain attempted |
| `Collect.SamplesUpToAnalysed` | tracking-trilha/src/state/state_collect.cpp:42-64 | every due analysis of a sample among the first n happens |
| `Collect.SamplesUpToOrdered` | tracking-trilha/src/state/state_collect.cpp:42-64 | within one sensor, drain attempts and analyses follow the wanted-samples order strictly, keyed within the kind's first n samples |
| `Collect.KindEventsSound` | tracking-trilha/src/state/state_collect.cpp:38-66 | every call made for one sensor kind is justified, a line-7 status print only with the status of a due analysis, and none is a sensor update or a render |
| `Collect.KindEventsAttempted` | tracking-trilha/src/state/state_collect.cpp:38-45 | for the sensor GetSensor finds for its kind, every wanted sample has its drain attempted |
| `Collect.KindEventsAnalysed` | tracking-trilha/src/state/state_collect.cpp:38-66 | every due analysis of a kind happens in that kind's calls |
| `Collect.KindEventsOrdered` | tracking-trilha/src/state/state_collect.cpp:38-66 | one kind's drain attempts and analyses are strictly increasing and keyed within that kind's range of (kind, sample) keys |
| `Collect.DrainsUpToSound` | tracking-trilha/src/state/state_collect.cpp:38-67 | drains of the first n kinds go only to the sensor GetSensor finds for their kind; every analysis and every print is justified, the line-7 status print only by a due analysis with that status |
| `Collect.DrainsUpToAttempted` | tracking-trilha/src/state/state_collect.cpp:38-67 | every sensor GetSensor finds for a kind below n has all wanted samples attempted |
| `Collect.DrainsUpToAnalysed` | tracking-trilha/src/state/state_collect.cpp:38-67 | every due analysis of a kind below n happens |
| `Collect.DrainsUpToOrdered` | tracking-trilha/src/state/state_collect.cpp:38-67 | across kinds below n, drain attempts and analyses run in strictly increasing (kind, sample) order, with keys below 4n |
| `Collect.UpdatesUpToFacts` | tracking-trilha/src/state/state_collect.cpp:31-35 | the update phase updates exactly the registered sensors of the first n slots |
| `Collect.TickSound` | tracking-trilha/src/state/state_collect.cpp:28-71 | every call of a tick is justified by the registry, the drains and the analyzers: a status print on line 7 shows the status of an analysis that is due; without an OLED no print or render happens |
| `Collect.TickComplete` | tracking-trilha/src/state/state_collect.cpp:28-71 | a tick updates every registered sensor, attempts every wanted sample of every sensor GetSensor finds, and performs every due analysis |
| `Collect.SampleShown` | tracking-trilha/src/state/state_collect.cpp:42-48 | with an OLED, every sample that GetSensor's sensor returns data for is printed on line sample+1 with its first value |
| `Collect.StatusShown` | tracking-trilha/src/state/state_collect.cpp:53-57 | with an OLED, the status of every due analysis is printed on line 7 |
| `Collect.TickDisplaysResults` | tracking-trilha/src/state/state_collect.cpp:38-66 | with an OLED, a tick prints every drained sample's line and every due analysis's status line |
| `Collect.UpdatesInSlotOrder` | tracking-trilha/src/state/state_collect.cpp:31-35 | registered sensors are updated in slot order: a lower slot's update comes before a higher slot's |
| `Collect.UpdatesBeforeDrains` | tracking-trilha/src/state/state_collect.cpp:31-45 | no sensor update comes after a drain attempt |
| `Collect.TickOrdered` | tracking-trilha/src/state/state_collect.cpp:38-67 | a tick's drain attempts, and likewise its analyses, are strictly increasing in (kind, sample), so no pair is drained or analysed twice |
| `Collect.TickRendersOnceAtEnd` | tracking-trilha/src/state/state_collect.cpp:28-71 | with an OLED a tick starts with the banner on line 0 and renders exactly once, as its last call |
| `Collect.StateCollect.constructor` | tracking-trilha/src/state/state_collect.cpp:16-20 | an empty registry and no OLED |
| `Collect.StateCollect.SetOled` | tracking-trilha/include/state/state_collect.h:14 | the OLED pointer is set or cleared |
| `Collect.StateCollect.PrintOled` | tracking-trilha/src/state/state_collect.cpp:22-26 | the display call happens exactly when an OLED is set |
| `Collect.StateCollect.CollectSample` | tracking-trilha/src/state/state_collect.cpp:42-61 | the calls of one wanted-sample step are the specified step events |
| `Collect.StateCollect.CollectKind` | tracking-trilha/src/state/state_collect.cpp:38-66 | the calls for one sensor kind: nothing when GetSensor finds no sensor, else the wanted samples in table order |
| `Collect.StateCollect.Update` | tracking-trilha/src/state/state_collect.cpp:28-71 | the tick's calls are exactly the specified tick trace, whose soundness, completeness and order are the lemmas above |
| `SdCard.Take` | tracking-trilha/src/drivers/sd_card/SD.cpp:41-43 | a prefix of the string of length min(n, length) |
| `SdCard.CStr` | tracking-trilha/include/drivers/sd_card/SD.h:21 | the string a buffer holds is a prefix of it, stopped by a NUL when it is shorter than the buffer |
| `SdCard.CStrOfTerminated` | tracking-trilha/src/drivers/sd_card/SD.cpp:41-43 | a string followed by a NUL reads back as itself whatever follows |
| `SdCard.FullPath` | tracking-trilha/src/drivers/sd_card/SD.cpp:68-69 | the full path is a prefix of mountPoint + "/" + path, shorter than 64: all of it when that fits, and exactly 63 characters when it does not |
| `SdCard.FullPathExample` | tracking-trilha/src/drivers/sd_card/SD.cpp:68-69 | "/sd0" and "log.csv" join to "/sd0/log.csv" |
| `SdCard.StrNCopy` | tracking-trilha/src/drivers/sd_card/SD.cpp:42 | strncpy writes the source's first n characters then NULs up to n, and nothing past n |
| `SdCard.SD.constructor` | tracking-trilha/src/drivers/sd_card/SD.cpp:4-6 | no disk, not initialized, not mounted, empty mount point |
| `SdCard.SD.IsReady` | tracking-trilha/src/drivers/sd_card/SD.cpp:59-61 | ready exactly when initialized and mounted; on a valid card, exactly when mounted, and an unready card has an empty mount point |
| `SdCard.SD.Initialize` | tracking-trilha/src/drivers/sd_card/SD.cpp:12-24 | on an initialized card it succeeds and changes nothing; otherwise success, initialization and the disk all follow the disk-init outcome |
| `SdCard.SD.Mount` | tracking-trilha/src/drivers/sd_card/SD.cpp:26-45 | fails when uninitialized; succeeds idempotently when mounted; otherwise follows the mount outcome and on success keeps at most 31 characters of the path, NUL-terminated |
| `SdCard.SD.Unmount` | tracking-trilha/src/drivers/sd_card/SD.cpp:47-57 | always succeeds and leaves the card unmounted with an empty mount point |
| `SdCard.SD.Cleanup` | tracking-trilha/src/drivers/sd_card/SD.cpp:156-166 | afterwards neither mounted nor initialized and no disk |
| `SdCard.SD.PrintToFile` | tracking-trilha/src/drivers/sd_card/SD.cpp:63-101 | the shared body: refused with no fopen call when not ready; otherwise opens the full path in the given mode and succeeds exactly when the open and the print succeed |
| `SdCard.SD.WriteToFile` | tracking-trilha/src/drivers/sd_card/SD.cpp:63-81 | PrintToFile with mode "w": refused with no fopen call when not ready; otherwise opens the full path for writing and succeeds exactly when the open and the print succeed |
| `SdCard.SD.AppendToFile` | tracking-trilha/src/drivers/sd_card/SD.cpp:83-101 | PrintToFile with mode "a": as WriteToFile, but the full path opens for appending |
| `SdCard.SD.ReadFromFile` | tracking-trilha/src/drivers/sd_card/SD.cpp:103-121 | refused when not ready, for a null buffer or size 0; on success it reads at most bufferSize - 1 characters and NUL-terminates them; a failed read leaves the buffer untouched |
| `SdCard.SD.FileExists` | tracking-trilha/src/drivers/sd_card/SD.cpp:123-138 | true exactly when ready and the full path opens for reading |
| `SdCard.SD.CreateDirectory` | tracking-trilha/src/drivers/sd_card/SD.cpp:140-150 | true exactly when ready and mkdir of the full path succeeds |
| `SdCard.Lifecycle` | tracking-trilha/src/drivers/sd_card/SD.cpp:12-138 | a write before initialize is refused; after initialize and mount a write with a successful open and print succeeds and the file check opens the joined path; unmount leaves an initialized card that is no longer ready, with an empty mount point |
| `Buzzers.ClampDuty` | tracking-trilha/src/buzzer/buzzer.cpp:24 | the duty is at most 100, and is the input unless the input exceeded 100 |
| `Buzzers.ClampWrap` | tracking-trilha/src/buzzer/buzzer.cpp:42-43 | the wrap lies in [1, 0xFFFF] and is the input whenever the input does |
| `Buzzers.Level` | tracking-trilha/src/buzzer/buzzer.cpp:54-55 | the level is at most wrap, and is wrap or (wrap + 1) * duty / 100 |
| `Buzzers.LevelCapOnlyAtFullDuty` | tracking-trilha/src/buzzer/buzzer.cpp:54-55 | below 100 percent the level is the unclamped product; at 100 it is wrap; the product fits in 64 bits |
| `Buzzers.Buzzer.constructor` | tracking-trilha/src/buzzer/buzzer.cpp:10-17 | a new buzzer is not playing, with its pin a low SIO output |
| `Buzzers.Buzzer.Stop` | tracking-trilha/src/buzzer/buzzer.cpp:62-70 | PWM off, pin back to SIO, not playing |
| `Buzzers.Buzzer.SetTone` | tracking-trilha/src/buzzer/buzzer.cpp:19-60 | zero frequency or duty acts as stop; otherwise playing, with the clamped wrap in [1, 0xFFFF] and the level of the clamped duty, at most wrap |
| `Buzzers.Buzzer.IsPlaying` | tracking-trilha/src/buzzer/buzzer.cpp:72-74 | the playing flag |
| `WebText.TrimStart` | web/script.js:61 | a suffix of the input, starting with a non-space, with only white space removed |
| `WebText.TrimEnd` | web/script.js:61 | a prefix of the input, ending with a non-space, with only white space removed |
| `WebText.TrimFacts` | web/script.js:61 | trim is empty exactly for all-white-space input, and otherwise starts and ends with non-space |
| `WebText.TrimKeeps` | web/script.js:61 | a string with non-space ends is its own trim |
| `WebText.TrimIdempotent` | web/script.js:61 | trimming twice is trimming once |
| `WebText.TrimFirst` | web/script.js:64 | a line starting with a visible character keeps it first after trim, so "#..." lines stay comments |
| `WebText.IndexOf` | web/script.js:57 | the first occurrence of the separator, or the length when there is none |
| `WebText.Split` | web/script.js:57 | split gives at least one piece and no piece contains the separator |
| `WebText.JoinSplit` | web/script.js:57 | joining the pieces of a split gives the string back |
| `WebText.SplitJoin` | web/script.js:57 | splitting a join of separator-free pieces gives the pieces back |
| `WebText.SplitTerminated` | web/script.js:57 | splitting newline-terminated text gives its lines and a final empty piece |
| `WebText.TerminatedAppend` | web/script.js:258-268 | the text of two blocks of lines is the two texts one after the other |
| `WebConfig.ConfigLineKeeps` | web/script.js:60-81 | a line yields at most one configuration, and one exactly when it is neither blank nor a comment and has seven fields |
| `WebConfig.ParseConfigLinesAppend` | web/script.js:59-82 | configurations come out in input order: the parse of two blocks is the two parses one after the other |
| `WebConfig.ParseConfigLinesLength` | web/script.js:56-85 | no more configurations than lines |
| `WebConfig.SkippedLinesIgnored` | web/script.js:60-66 | blank and comment lines yield nothing |
| `WebConfig.CommentsIgnored` | web/script.js:60-66 | lines that are empty or start with '#' yield nothing |
| `WebConfig.ParseConfigFile` | web/script.js:56-85 | the loop with its continue computes the line-by-line parse of the split content |
| `WebConfig.ReadingLineKeeps` | web/script.js:92-111 | a data line yields at most one reading, and one exactly when it is non-blank with five fields |
| `WebConfig.ParseReadingLinesAppend` | web/script.js:91-112 | readings come out in input order |
| `WebConfig.ParseReadingLinesLength` | web/script.js:88-115 | no more readings than lines |
| `WebConfig.CommentsKeptOnlyInData` | web/script.js:64-111 | a '#' line is never a configuration but, with five fields, is a reading |
| `WebConfig.ParseSensorData` | web/script.js:88-115 | the loop computes the line-by-line parse of the split content, skipping only blank lines |
| `WebConfig.HeaderIgnored` | web/script.js:258-261 | the four header lines and the blank line after them yield no configuration and contain no line break |
| `WebConfig.DataLineParses` | web/script.js:267 | seven plain fields joined by commas parse to exactly their configuration |
| `WebConfig.EntryRoundTrip` | web/script.js:263-267 | one configuration's comment line, data line and blank line parse back to that configuration |
| `WebConfig.EntryLinesSingle` | web/script.js:263-267 | none of an entry's lines contains a line break |
| `WebConfig.AllEntriesRoundTrip` | web/script.js:263-268 | the entry lines of a list parse back to the list, in order |
| `WebConfig.DownloadRoundTrip` | web/script.js:257-268 | downloadConfig's file parses back to configData, in order, when printed numbers are plain fields that the decoders read back |
| `WebConfig.TextRoundTrip` | web/script.js:56-85 | newline-terminated ignored lines followed by lines that parse to a list parse to that list |
| `WebConfig.SplicedFacts` | web/script.js:227-230 | splice(i, 1) removes exactly entry i, keeping the others in order; an index past the end changes nothing; negative indices count from the end |
| `WebConfig.RemoveUndoesAdd` | web/script.js:211-230 | removing the entry just appended restores the list |
| `WebConfig.ConfigEditor.constructor` | web/script.js:29 | configData starts empty |
| `WebConfig.ConfigEditor.LoadConfigFile` | web/script.js:125 | configData becomes the parse of the uploaded file |
| `WebConfig.ConfigEditor.AddConfigItem` | web/script.js:211-224 | one all-zero configuration of type 0/0 appended at the end |
| `WebConfig.ConfigEditor.RemoveConfigItem` | web/script.js:227-230 | configData becomes its splice at the index |
| `WebConfig.ConfigEditor.SaveConfig` | web/script.js:242-254 | an error exactly when some configuration has a NaN threshold, success otherwise |
| `WebConfig.ConfigEditor.DownloadConfig` | web/script.js:257-271 | the content is the header followed by each configuration's three lines, in order |
| `WebConfig.EntryTextIs` | web/script.js:266-267 | the two template literals of an entry are its three lines, newline-terminated |
| `WebConfig.EntryAppended` | web/script.js:263-267 | each forEach step appends its configuration's text |
| `WebConfig.FieldsParse` | web/script.js:267 | a configuration's data line, with plain printed numbers that decode back, parses to exactly that configuration |
| `WebConfig.CommentSkipped` | web/script.js:266 | the '# sensor - sample' line of an entry yields no configuration |
| `WebConfig.CommentDataBlank` | web/script.js:263-267 | an ignored line, a line yielding c and a blank line together yield exactly c |
| `WebConfig.EntryAppendedParses` | web/script.js:263-268 | when the earlier entries parse back and the last entry's lines parse to it, the whole list parses back |
| `WebConfig.SensorNameSingle` | web/script.js:2-6 | every sensor name printed into a comment, the undefined of an unknown key included, has no line break |
| `WebConfig.SampleNameSingle` | web/script.js:8-18 | every sample name printed into a comment, the undefined of an unknown key included, has no line break |
| `WebConfig.CsvIsJoin` | web/script.js:267 | the data-line template is the seven fields joined by commas |
| `WebView.FilterBy` | web/script.js:447-453 | the filter keeps exactly the readings that pass, and never more readings than it got |
| `WebView.FilterBySnoc` | web/script.js:447-453 | one more reading is kept at the end exactly when it passes |
| `WebView.FilterByAppend` | web/script.js:447-453 | filtering keeps the order |
| `WebView.FilterAllKeeps` | web/script.js:447-453 | 'all' keeps every reading |
| `WebView.FilterNaNEmpty` | web/script.js:447-453 | a filter value parseInt cannot read keeps nothing, as NaN === x never holds |
| `WebView.TwoPassesAreOne` | web/script.js:440-455 | the two filter passes are one pass testing both filters |
| `WebView.FiltersCommute` | web/script.js:440-455 | the sensor and sample filters commute, and together they keep exactly the readings passing both, in order |
| `WebView.FilteredDataMembers` | web/script.js:440-455 | a reading is shown exactly when it passes both filters |
| `WebView.Occurrences` | web/script.js:461 | an occurrence count is at most the number of readings |
| `WebView.Group` | web/script.js:411-417 | a group holds exactly the readings with its key, as many as the key occurs |
| `WebView.Keys` | web/script.js:411-421 | the keys are exactly those that occur, each once |
| `WebView.KeysPrefix` | web/script.js:411-421 | keys seen earlier are never reordered: the keys of a prefix are a prefix of the keys |
| `WebView.SumOccurrencesStep` | web/script.js:460-462 | one more reading adds one to the count of its key and nothing to the others |
| `WebView.KeysCoverAll` | web/script.js:407-421 | the group sizes over the distinct keys add up to the number of readings |
| `WebView.HealthStatusCounts` | web/script.js:458-465 | the counts have a key for every status that occurs and only those, holding its number of readings |
| `WebView.CountsAddUp` | web/script.js:458-465 | the health-status counts sum to the number of filtered readings |
| `WebView.ChartDatasetsAt` | web/script.js:420-434 | the i-th dataset built from the key list belongs to the i-th key and takes colour index i |
| `WebView.DataOf` | web/script.js:428 | the dataset's points are the group's values, in order |
| `WebView.CreateDatasets` | web/script.js:407-437 | one dataset per distinct (sensorType, sampleType) pair in first-appearance order, each with its pair's label, values and colours; the datasets hold as many points as there are readings |
| `WebView.GroupByPair` | web/script.js:411-417 | the grouping pass yields the distinct pairs in insertion order and each pair's readings |
| `WebView.PointCountOf` | web/script.js:420-434 | datasets built from the keys hold as many points as the keys occur |
| `WebView.DatasetOfGroup` | web/script.js:421-426 | every dataset's group is non-empty, and its label names the pair through its first reading |
| `WebView.DatasetsNonEmpty` | web/script.js:420-434 | every dataset has a point, and its group is exactly the readings of its pair |
| `WebView.ColorPeriod` | web/script.js:541-551 | colours repeat with period 6 |
| `WebView.ColorsDistinct` | web/script.js:541-551 | indices in different residues mod 6 get different colours |
| `WebView.Dashboard.constructor` | web/script.js:30 | sensorData starts empty |
| `WebView.Dashboard.LoadSensorData` | web/script.js:143 | sensorData becomes the parse of the uploaded file |
| `WebView.Dashboard.GetFilteredData` | web/script.js:440-455 | the readings passing the filters the drop-downs stand for, in order |
| `WebView.Dashboard.GetHealthStatusCounts` | web/script.js:458-465 | the status counts of exactly the filtered readings |

## Left out

- FreeRTOS tasks, mutexes and scheduling are not modelled, because they are concurrency.
  - This covers the oximeter task loop, task delays and `xSemaphoreTake` timeouts.
  - A lock attempt is a boolean parameter and task creation an opaque success flag.
  - `taskRunning` is modelled as always equal to the existence of a task, which is what the code leaves after each call.
- Sensor drivers, the IMU calibration and the heart-rate/SpO2 estimation algorithm are foreign code. Their outputs are parameters of `Accelerometers.Accelerometer.Update` and `Oximeters.Oximeter.UpdateInternal`; the constructors' hardware handshakes are left out.
- Accelerometers.Accelerometer.Update: the magnitude is `norm(x, y, z)`, an uninterpreted parameter standing for `sqrtf` of the sum of squares in single precision; float rounding is not modelled.
- Oximeters.Oximeter.UpdateInternal: the int32 heart-rate estimate is stored as its exact real value; the float conversion's rounding is not modelled.
- Collect.StateCollect.Update: what each sensor's `getData` returns during the tick is the parameter `drain`.
  - The sensor state changes caused by its `Update` and `getData` calls appear only as trace events.
  - Buffer aliasing through the shared `Data_t` pointer is not modelled.
- The text the tick formats with `sprintf` for the OLED is the structured `Text` value. Buffer sizes and number formatting are not modelled.
- The OLED driver, debug macros, `main.cpp` wiring and the plotting script are not part of this model.
- `StateCollect::Pause` and `StateCollect::Resume` are empty methods without a contract, because they change nothing.
- The FatFS calls are not modelled. Their success or failure is a parameter, and what `ff_fprintf` writes and what `ff_fread` reads are parameters too. `getErrorMessage` is not part of this model.
- The clock-divider and wrap derivation in `setTone` is floating point and is not modelled. The wrap it produces is the parameter `derivedWrap` of `Buzzers.Buzzer.SetTone`. The SDK calls appear only as the pin/PWM fields.
- JavaScript's `parseInt`, `parseFloat` and number-to-text conversion are not modelled. They are the parameters `dec` and `show`.
- WebConfig.DownloadRoundTrip: holds only under its stated hypothesis that `show` prints no white space, comma or '#', and that the decoders read each printed number back.
- WebView.CreateDatasets: the object key `${sensorType}-${sampleType}` is modelled as the pair itself. This assumes distinct pairs print distinct keys. Such keys are never array-index strings, so `Object.keys` keeps insertion order.
- WebView.HealthStatusCounts: the result is an unordered map. The order in which `Object.keys` lists numeric keys is not modelled.
- WebConfig.ConfigEditor.RemoveConfigItem: the index is an integer. A NaN index, which `splice` treats as 0, is not modelled.
- `updateConfigData` is not modelled, because of its className-as-field DOM coupling. `calculateStatistics` is not modelled, because it is floating point.
- The sample data built in `loadSampleData` is not modelled; it is not a description of the analyzer.
- DOM rendering, Chart.js, FileReader, downloads and notifications are not modelled. The notification `saveConfig` shows is a `Notice` value, and the drop-downs are strings.
- Registry.State.constructor: the source clears only analyzer slots 0 and 1 of the four-slot array and leaves slots 2 and 3 uninitialised. The model makes them empty. No operation can tell the difference, because every scan and insertion stops at SENSOR_TYPE_QTT (2).
- Collect.StateCollect.constructor: the OLED pointer is a static member shared by all instances, and no constructor resets it. The model keeps it as a per-instance flag that starts unset. This matches the single instance the firmware creates, but not sharing between instances.
- The console `printf` trace that the collection tick writes for every drained batch is not modelled, because it is output only.
- Default arguments are not modelled; every argument is explicit. These are the default disk name of `initialize` and mount path of `mount` in `SD.h`, and the default duty of `setTone` in `buzzer.h`.
- SampleBuffers.ShiftBuffer: `utils.h`, which defines `shift_buffer`, is not part of this model. Its contract (shift left by one, size decremented) is the behaviour its call sites rely on, not something read from its code.
- Accelerometers.Accelerometer.Update: a reading is `NaN` or a real number. Infinities, which `isnan` lets through, are not modelled.
- Persistence of readings to the SD card and loading the configuration from it (`setSD` and related calls) have no code in the sources. They are not part of this model.
