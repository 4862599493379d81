# oniFixer, modelled in Dafny

oniFixer repairs an ONI recording whose depth stream lacks the nine PS1080
calibration properties NiTE needs (`XN_STREAM_PROPERTY_CONST_SHIFT` …
`XN_STREAM_PROPERTY_EMITTER_DCMOS_DISTANCE`). First it opens the file and
reads the properties from it. When some are missing, it opens a connected
sensor in depth-only mode and reads the rest there. Then it re-records the
file through the virtual PS1080 device. The virtual depth stream carries the
completed table. New-frame listeners copy every source frame into the
virtual streams while the program seeks through the file one depth frame at
a time.

The model covers the following parts of `main.cpp`:

* **`NiteProperty`** is the property table `CNiTEProperty`: a class over a
  sequence of `Property` values.
  * `LoadProperties` and `WriteProperties` are loops.
  * Each loop is proved equal to functions of the old table:
    * `LoadAll` of the table and the stream's store gives the new table;
    * `Queries` of the table and the stream reference gives the getProperty calls;
    * `Writes` of the table and the stream reference gives the setProperty calls;
    * `WriteFailures` of the table and the set of ids the stream accepts gives
      the reported names.
  * The lemmas about those functions give the facts about the table:
    * its shape never changes;
    * an entry, once loaded, stays loaded;
    * without overwrite, a property is queried only while it is missing;
    * two passes take each entry from the first store that answers;
    * a stream that keeps the writes of a complete table gives that table back
      to a fresh load. The SDK stand-in itself never changes a stream's store,
      so this is stated of the store after the writes (`Apply`).
* **`Device`** is the device wrapper `CNIDevice`: a class with the device's
  open flag and the validity of its depth and color streams.
  * `OpenDevice` follows the code's four failure points.
  * `Close`, `Start` and `Stop` act on exactly the valid streams, depth first.
* **`Relay`** is the frame listener `CFrameCopy::onNewFrame`.
  * The destination frame is a class over a byte `array`. The copy overwrites
    its first `getDataSize()` bytes and leaves the rest as it was.
  * The SDK calls are the read, the GET of a virtual frame, the SET and the
    release.
* **`Fixer`** is `main` without `OpenNI::initialize` and `OpenNI::shutdown`.
  * `Run` is proved to produce the reference outcome `Expected(world, argv)`:
    an exit code together with the sequence of the modelled SDK calls.
  * The seek loop is the `while true` / `break` method `SeekAll`.
* **`FixerProperties`** states what `main` promises in terms of `Expected`:
  * the exit code of every path;
  * which calls each early exit leaves behind;
  * within the replay, the order of the start, seek, stop and close calls;
  * that every depth frame is sought exactly once;
  * when the virtual device is opened depth-only;
  * the table written into the virtual depth stream.

The SDK itself is `OpenNI.Sdk`, which does not model any of OpenNI's
behaviour:
* its constant `world` fixes the answers of the calls `main` makes: which
  devices open, which sensors they have, whether each stream can be created,
  what each stream's `getProperty` answers, which `setProperty` calls succeed,
  and whether there is a playback controller and how many frames it counts;
* the two answers a listener gets, from `readFrame` and from the GET of a
  virtual frame, are not taken from `world`: they are the parameters `read`
  and `acquired` of `OnNewFrame`;
* its `trace` records the modelled calls in the order the program makes
  them. A few queries are left out of it (see "Left out").

Points where the code behaves in ways a reader might not expect:
* The recorder is created (main.cpp:311) before the virtual device is opened
  (main.cpp:316). `VirtualRejected` shows that the `RecorderCreate` call is
  in the trace even when the virtual device then fails.
* No early exit calls Close or destroy explicitly. `HarvestFailed` shows that
  the program itself closes neither the sensor nor the source. Each `return`
  destroys the local objects built up to that point: the property table and
  the source device, from main.cpp:292 on the sensor device, and the recorder
  and the virtual device only at main.cpp:319 and at the end of `main`. What
  the SDK does in those destructors is not modelled.
* Each property that a load pass cannot get is named in its own "Try load …
  -> Fail" line (main.cpp:163, 172). Only the final message after a failed
  harvest (main.cpp:302) is generic.
* A wrong argument count prints the usage text and goes on with empty paths
  (`ArgumentsNotEnforced`).
* After the re-recording, `main` has no `return` statement. It exits with 0.

## Model

The rows marked "reference definition" are the functions that the methods
and lemmas are proved against. Each one gives, as a value, what the cited
lines do, and the other rows state its properties.

| member | source | states |
|---|---|---|
| NiteProperty.NewProperty | main.cpp:199-205 | a new entry keeps its id and name, is not loaded, and has a zero buffer of the given size |
| NiteProperty.NiteProperties.constructor | main.cpp:145-156 | the table is the nine-row catalog, each entry new, and every entry has its catalog id, name and buffer size (Valid) |
| NiteProperty.InitialTableShape | main.cpp:145-156 | the new table has the catalog's ids, names and sizes (8, 8, 8, 8, 4096, 20002, 8, 8, 8) and no entry is loaded |
| NiteProperty.CatalogIdsDistinct | main.cpp:147-155 | the nine property ids are pairwise distinct |
| NiteProperty.CatalogShaped | main.cpp:145-156 | a table with the catalog's shape has nine entries with the catalog's ids, names and sizes, and pairwise distinct ids |
| NiteProperty.LoadEntry | main.cpp:161-175 | an entry is queried when overwriting or not yet loaded; it becomes loaded exactly when it was loaded or the query succeeds, then holds the stream's bytes; otherwise it is unchanged; id, name and size never change |
| NiteProperty.LoadAll | main.cpp:160-176 | a pass keeps the table's length and treats each entry independently, as LoadEntry says |
| NiteProperty.NiteProperties.LoadProperties | main.cpp:158-181 | the loop leaves the table as LoadAll of the old table and issues the getProperty calls of Queries; its result is true exactly when every entry is loaded; the table's shape is unchanged, so Valid is kept |
| NiteProperty.NiteProperties.WriteProperties | main.cpp:183-192 | one setProperty call per entry, in table order, with the entry's buffer; the failed writes are reported by name, in order, and nothing stops the loop; it is called on a table with the catalog's shape (Valid) |
| NiteProperty.LoadAllShape | main.cpp:160-176 | a load pass never changes an entry's id, name or buffer size |
| NiteProperty.LoadAllMonotone | main.cpp:161-167 | a loaded entry stays loaded; without overwrite it is neither queried nor changed; an entry's id is queried exactly when the entry qualifies |
| NiteProperty.QueriesMembers | main.cpp:160-165 | the calls of a pass are exactly the getProperty calls for the entries that qualify |
| NiteProperty.LoadAllComplete | main.cpp:178-180 | after a pass the table is complete exactly when every entry was loaded before or its query succeeded |
| NiteProperty.WritesMembers | main.cpp:185-190 | the write calls correspond one-to-one with the entries, in table order, each with the entry's id and bytes |
| NiteProperty.WriteFailuresMembers | main.cpp:186-189 | a name is reported exactly when an entry with that name was refused by the stream, and the reports follow table order: those of any prefix of the table come first, and each entry adds its name once when refused and nothing when accepted |
| NiteProperty.FirstHit | main.cpp:283-300 | a lookup over several streams in turn finds a value exactly when one of them holds the property at the right size, and then takes the first that does |
| NiteProperty.LoadEachAt | main.cpp:283-300 | after passes over several streams, an entry loaded at the outset is unchanged, and any other entry holds FirstHit's answer |
| NiteProperty.LoadEachComplete | main.cpp:283-300 | the table is complete after the passes exactly when every missing entry is held by one of the streams |
| NiteProperty.LoadEachTwo | main.cpp:283-300 | two calls of LoadProperties in a row, on the source and then on the sensor, are one pass over both streams in turn |
| NiteProperty.ApplyWritesAt | main.cpp:185-190 | a stream that keeps what it is written holds each entry's bytes under its id when the ids are distinct |
| NiteProperty.ApplyWritesElsewhere | main.cpp:185-190 | writing the table leaves properties outside it unchanged |
| NiteProperty.WriteLoadRoundTrip | main.cpp:158-192 | loading a fresh table from a stream that kept the written table loads every entry with the written bytes, giving back the table when it was complete |
| Device.NIDevice.constructor | main.cpp:99-103 | a new device is not open and has no valid stream |
| Device.OpenResultSpec | main.cpp:30-68 | open succeeds exactly when the device opens, has a depth sensor, its depth stream is created, and its color stream, when wanted and present, is created; a color stream is made only when not depth-only; the first call is the open, and all calls are opens and creates on this device |
| Device.NIDevice.OpenDevice | main.cpp:30-68 | the result, the open flag, the stream flags and the calls are those of OpenResult |
| Device.StreamCallsSpec | main.cpp:70-97 | Close, Start and Stop call a stream exactly when it is valid, depth first, and touch nothing else |
| Device.NIDevice.Close | main.cpp:70-79 | the valid streams are destroyed, then the device is closed; afterwards nothing is open or valid |
| Device.NIDevice.Start | main.cpp:81-88 | the valid streams are started, depth first |
| Device.NIDevice.Stop | main.cpp:90-97 | the valid streams are stopped, depth first |
| Relay.FrameCopy.constructor | main.cpp:109-111 | the listener is bound to its target stream |
| Relay.Overlay | main.cpp:123 | after the copy the buffer has its old length: the payload, then its old remainder |
| Relay.RelayCallsSpec | main.cpp:113-133 | one notification issues exactly one SET when both the read and the GET succeed and none otherwise, one GET exactly when the read succeeds, and reads first and releases last, exactly once |
| Relay.FrameCopy.OnNewFrame | main.cpp:113-133 | the calls are RelayCalls; when both calls succeed the destination buffer is the overlay of the payload and the frame index and timestamp are copied; when the read fails the acquired frame is untouched |
| Fixer.SeekAll | main.cpp:343-352 | the loop issues Seeks(stream, SeekCount(frames)) |
| Fixer.SeeksSpec | main.cpp:343-352 | the seeks go to 1, 2, … in order and end at the frame count; a count of zero or less still seeks once, to frame 1 |
| Fixer.Run | main.cpp:232-364 | the exit code and the SDK calls are those of Expected |
| Fixer.RepairWith | main.cpp:283-361 | from a new table: the first load pass, then 0 if complete, else the harvest and the re-recording, as Repair says; the table ends as the first pass left it, or as the sensor's pass left it when the sensor was needed and opened; the source device is untouched unless main re-records, and then ends closed |
| Fixer.RecoverWith | main.cpp:290-361 | the harvest, then the re-recording when it completed the table, as Recover says; the table is the sensor's load pass over the old one when the sensor opened, else unchanged; the source device ends closed on 0 and is untouched otherwise |
| Fixer.Harvest | main.cpp:290-306 | the sensor is opened depth-only and a load pass is run on it; the result is true exactly when the table is then complete, and only then is the sensor closed; the table keeps the catalog's shape |
| Fixer.Record | main.cpp:308-361 | the recorder is created, then the virtual device opened (depth-only when the source has no valid color stream); the result is 0 exactly when it opened, and then setup and replay follow and the source ends closed; otherwise the source device is left as it was |
| Fixer.Setup | main.cpp:322-334 | the general copy, the table's writes, the depth relay and the recorder attach, then the same for color when the virtual color stream is valid |
| Fixer.Replay | main.cpp:337-361 | the start calls, the seeks, the stop calls and the close calls, in that order; afterwards neither device is open or has a valid stream |
| Fixer.StartAll | main.cpp:338-341 | the recorder, then the virtual streams, then the source streams start |
| Fixer.StopAll | main.cpp:355-358 | the recorder, then the source streams, then the virtual streams stop |
| Fixer.CloseAll | main.cpp:360-361 | the source is closed (streams first), then the virtual device; afterwards neither is open or has a valid stream |
| FixerProperties.ExitCode | main.cpp:232-364 | the exit code is 0 or -1, and 0 exactly when the source is usable and either already complete or re-recorded |
| FixerProperties.PreparationThenRecording | main.cpp:256-361 | every run is the preparation (source open, checks, harvest) followed by the re-recording region, which is empty unless main reaches it |
| FixerProperties.PreparationIsPreparatory | main.cpp:256-306 | before the re-recording region, main only opens the source and the sensor, creates their streams, reads properties and closes the sensor |
| FixerProperties.SensorClosedOnlyWhenComplete | main.cpp:293-305 | the sensor is closed exactly when it opened and the table is then complete |
| FixerProperties.ArgumentsNotEnforced | main.cpp:236-258 | whatever the argument count, the first call opens the source, with argv[1] or with the empty path |
| FixerProperties.SourceRejected | main.cpp:257-280 | a source that does not open fully, or has no playback controller, yields -1 with only the source's open and creates in the trace |
| FixerProperties.NothingToFix | main.cpp:282-287 | a usable complete source yields 0; only the source is opened and queried, each of the nine properties is asked of it, and nothing is written or recorded |
| FixerProperties.HarvestFailed | main.cpp:290-304 | a sensor that does not open or does not complete the table yields -1; only preparatory calls happen, and neither the sensor nor the source is closed |
| FixerProperties.VirtualRejected | main.cpp:308-320 | a virtual device that fails to open yields -1 after the recorder was created, with no replay call in the trace |
| FixerProperties.StartOrdered | main.cpp:338-341 | the start calls come in the order recorder, virtual, source |
| FixerProperties.StopOrdered | main.cpp:355-358 | the stop calls come in the order recorder, source, virtual |
| FixerProperties.CloseOrdered | main.cpp:360-361 | the close calls destroy the source streams, close the source, destroy the virtual streams and close the virtual device, in that order |
| FixerProperties.ReplayOrder | main.cpp:337-361 | the replay is ordered start, seek, stop, close; it begins with the recorder start and ends with closing the virtual device |
| FixerProperties.SetupUnreplayed | main.cpp:322-334 | the setup has no replay call; it attaches the depth stream exactly once, and the virtual color stream exactly when it is valid |
| FixerProperties.DepthRecorded | main.cpp:322-361 | over the whole run, the virtual depth stream is attached to the recorder exactly once when main re-records, and never otherwise |
| FixerProperties.RecordingSplit | main.cpp:308-361 | a re-recording run is an unreplayed prefix followed by the replay |
| FixerProperties.RerecordingEndsWithReplay | main.cpp:337-364 | a run that re-records exits 0, its trace ends with the replay, and nothing before that is a replay call |
| FixerProperties.NoReplayUnlessRerecords | main.cpp:256-320 | a run that does not re-record makes no start, seek, stop or replay close call |
| FixerProperties.SeeksCount | main.cpp:343-352 | the seek loop issues each frame from 1 to its count exactly once, and no other frame |
| FixerProperties.ReplaySeeks | main.cpp:337-361 | the replay seeks each depth frame from 1 to the count exactly once |
| FixerProperties.SeekConservation | main.cpp:232-364 | over the whole run, depth frame k is sought exactly once when main re-records and 1 <= k <= the count, and otherwise never |
| FixerProperties.DepthOnlyChoice | main.cpp:315-316 | the virtual color stream is created exactly when main reaches the virtual device, its depth stream is created, the source has a valid color stream and the virtual device has a color sensor |
| FixerProperties.ColorRecorded | main.cpp:328-334 | the virtual color stream is attached to the recorder exactly when main re-records, the source has a valid color stream and the virtual device has a color sensor |
| FixerProperties.WrittenTable | main.cpp:283-324 | the table main writes is complete and has the catalog's shape; each entry holds the first of the source's and the sensor's answers; a stream that keeps it gives it back to a fresh load |
| FixerProperties.TableWritten | main.cpp:324 | when main re-records, every entry of that table is written into the virtual depth stream |
| NiteProperty.Catalog | main.cpp:147-155 | reference definition: the nine rows pushed by the constructor, each with its property id, buffer size and name |
| NiteProperty.Queried | main.cpp:161 | reference definition: an entry is queried when overwriting or while it is not loaded |
| NiteProperty.AllLoaded | main.cpp:178-180 | reference definition: the all_of test that ends LoadProperties, true when every entry is loaded |
| Fixer.SourceOpen | main.cpp:257-258 | reference definition: the open of the ONI file at argv[1], depth and color |
| Fixer.FirstPass | main.cpp:283 | reference definition: the table after the load pass on the source's depth stream |
| Fixer.PhysicalOpen | main.cpp:292-293 | reference definition: the depth-only open of ANY_DEVICE |
| Fixer.Harvested | main.cpp:300 | reference definition: the table after the further load pass on the sensor's depth stream |
| Fixer.VirtualOpenFor | main.cpp:315-316 | reference definition: the open of the virtual PS1080, depth-only when the source has no valid color stream |
| NiteProperty.InitialTable | main.cpp:145-156 | reference definition: the table the constructor builds, one new entry per catalog row |
| NiteProperty.Queries | main.cpp:160-165 | reference definition: the getProperty calls of one LoadProperties pass |
| NiteProperty.Writes | main.cpp:185-188 | reference definition: the setProperty calls of WriteProperties |
| NiteProperty.WriteFailures | main.cpp:185-190 | reference definition: the names WriteProperties reports as failed |
| NiteProperty.LoadEach | main.cpp:283-300 | reference definition: successive load passes over several stores |
| NiteProperty.Apply | main.cpp:185-188 | reference definition: a store after it kept a sequence of setProperty calls |
| Device.OpenResult | main.cpp:30-68 | reference definition: the result, stream flags and calls of OpenDevice |
| Device.StreamCalls | main.cpp:70-97 | reference definition: the calls Close, Start and Stop make on the valid streams |
| Relay.RelayCalls | main.cpp:113-132 | reference definition: the calls of one onNewFrame notification |
| Relay.OniFrame.constructor | main.cpp:119-126 | the frame GET_VIRTUAL_STREAM_IMAGE hands out, as a class; a new one has a zeroed buffer of the given capacity and zero index and timestamp. `OnNewFrame` takes such a frame as its `acquired` argument |
| Fixer.SourcePath | main.cpp:234-244 | reference definition: argv[1] when there are three arguments, otherwise the empty path |
| Fixer.TargetPath | main.cpp:234-244 | reference definition: argv[2] when there are three arguments, otherwise the empty path |
| Fixer.Expected | main.cpp:232-364 | reference definition: the exit code and modelled calls of main |
| Fixer.Repair | main.cpp:283-361 | reference definition: main after the source checks |
| Fixer.Recover | main.cpp:290-361 | reference definition: the harvest and the re-recording |
| Fixer.HarvestCalls | main.cpp:290-306 | reference definition: the calls of the harvest from the sensor |
| Fixer.RecordCalls | main.cpp:308-361 | reference definition: the calls of the re-recording region |
| Fixer.SetupCalls | main.cpp:322-334 | reference definition: the calls that set up the virtual streams and the recorder |
| Fixer.ReplayCalls | main.cpp:337-361 | reference definition: the start, seek, stop and close calls |
| Fixer.StartCalls | main.cpp:338-341 | reference definition: the start calls |
| Fixer.StopCalls | main.cpp:355-358 | reference definition: the stop calls |
| Fixer.CloseCalls | main.cpp:360-361 | reference definition: the close calls |
| Fixer.SeekCount | main.cpp:343-352 | reference definition: how many seeks the loop makes for a frame count |
| Fixer.Seeks | main.cpp:343-352 | reference definition: the seek calls on the source's depth stream |

## Left out

- The OpenNI SDK is an oracle: every answer is fixed by the `world` value. Device drivers, file playback and the recorder's container format are not modelled.
- The numeric values of the XN property ids are not modelled. They come from PS1080.h, which is not part of this model. The ids are a nine-valued datatype.
- OpenNI.Fetch: getProperty is modelled as succeeding only when the stored value has exactly the buffer's size. A failed call leaves the buffer as it was. The SDK's size in/out parameter is not modelled.
- Device.NIDevice.OpenDevice: requires a device that has not been opened. main opens every CNIDevice once, on a new object.
- CopyGeneralProperties (video mode, field of view, mirroring, min/max value) appears only as a single GeneralCopy call in the trace. Its setProperty calls are not modelled.
- setRepeatEnabled and setSpeed on the playback controller are not modelled.
- OpenNI::initialize, its failure exit, and OpenNI::shutdown are not modelled. Run models the argument check and then everything after a successful initialise.
- Console output is not modelled. The cerr lines of failed property writes appear as the name list WriteProperties returns.
- The listeners run asynchronously. Each seek would trigger them on the SDK's thread, and the trace does not show those notifications. OnNewFrame is modelled on its own, for one notification.
- The CFrameCopy objects allocated with new are never freed and never removed as listeners. This leak is not modelled.
- The color frame count that main reads (main.cpp:273) and never uses is only kept as the field `colorFrames` of a playback controller; nothing reads it.
- The destructors that run at every `return` are not modelled. Each return destroys the local objects declared before it: mNiTEProp and mOniFile always, mPhysical from main.cpp:292 on, and mRecorder and mVirtual only at main.cpp:319 and at the end of main. OpenNI's destructors may destroy streams and close devices there.
- Some SDK queries are not traced, because they only read the world: hasSensor (main.cpp:44, 59), getPlaybackControl (main.cpp:265), getNumberOfFrames (main.cpp:272-273) and isValid (main.cpp:72-96, 316, 329).
- Relay.FrameCopy.OnNewFrame: requires the payload to fit the virtual frame's buffer. memcpy does not check this, and the program does not guarantee it either: CopyGeneralProperties copies the source's video mode into the virtual stream but ignores the status of setVideoMode (main.cpp:220). The requires is the assumption that the copy took effect, so that the virtual buffer is large enough.
