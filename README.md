# vizaviz, modelled in Dafny

vizaviz is a video-looping system with two processes that meet in Redis.

The server (`vizaviz.py`) does three jobs:

- It watches source directories for `.mp4` files. It fingerprints each one with SHA-1, extracts one frame per second and quantizes every frame into palettes of 1, 4, 8, 16 and 32 colours. It saves each palette array as `<hash>_<r>.npy` and stores an encoded text form in the `source:<hash>` hash, together with the frame count as the duration.
- It supervises loop records `vizaviz:<server>:loop:<uuid>`. For each record it launches an mpv player when the running-set hash `vizaviz:<server>:state:running` names no live pid. Then it reads the player's A-B loop points and volume over its IPC socket and sends set and seek commands where they drift from the record.
- It reacts to Redis keyspace events. It ingests URLs added to an ingest set, and it terminates a player whose loop key was deleted.

The GUI (`vizaviz_gui.py`, with the key table of `bindings.py`) does the following:

- It reads the `source:` hashes back into its catalogue of sources and maps.
- It dispatches key presses to the actions bound for the app and for the current tab.
- It cycles tabs and maps.
- It creates, edits and removes loop records under the server id `foo`.

The model has three layers:

- **The world.** Redis, the files in the data directory, the launched players, the commands written to them and the fetches started are one value, `World.State`. It is held in the imperative class `World.Env`. Each Redis, file or process primitive is a method of `Env`, and its contract gives the new state.
- **Specification functions.** Every operation of the server is a function on `State`, for example `Reconcile.Pass`, `Colormap.FromFrames`, `Sources.SourceFrom`, `Ingest.IngestUrls` and `Events.HandleStep`.
- **Methods with the source's loops.** Each such method, for example `Reconcile.GetState`, `Colormap.MakeMaps`, `Sources.SourceFromDirectory` and `Events.HandleKeyEvent`, ensures that its effect on `Env` and its result equal the function's. The lemmas then state what the source promises about the function.

The GUI's application object and loop widget are classes: `Viewer.App` and `Loops.LoopItem`. Their methods update their fields and the store. Where the code has a bug listed under "## Findings", they and the server's event handler run the corrected definition; "## Left out" names each member that does so.

Functions and lemmas take everything the code gets from outside as parameters (oracles): process status, player replies, JSON decoding, `urlparse`, youtube-dl, ffmpeg, PIL's quantizer, numpy's line breaking, SHA-1, the spectrogram renderer, the order of `SCAN`/`HKEYS`/`SMEMBERS`, and fresh uuids. Within this README, "vizaviz.py" and "vizaviz_gui.py" name the two source files.

Where the code's behaviour differs from what its comments suggest, the model follows the code:

- The float read of the stored start at vizaviz.py:139 is outside the inner handlers. A missing or non-numeric start therefore sends no correction at all.
- A non-numeric end raises ValueError past the `KeyError` handler. The volume correction and the seek are then skipped.
- A deleted loop key terminates the recorded pid but leaves the running-set entry in place.
- `tab_next` moves to the tab before the current one, and `tab_previous` to the tab after it.

## Model

| member | source | states |
|---|---|---|
| World.WithFields | vizaviz.py:94-95 | HMSET merges the fields into the one hash and leaves every other key and all sets as they were |
| World.WithMember | vizaviz.py:287 | SADD adds one member to one set and leaves every other set and all hashes alone |
| World.WithoutKey | vizaviz_gui.py:276 | DEL empties the key, whether it held a hash or a set, and nothing else changes |
| World.Store | vizaviz.py:94-95 | a store changes only the store, by HMSET; the files, the trace and the pid counter are kept |
| World.Launched | vizaviz.py:51-58 | a launch takes the next pid, appends one Spawn of that file on that channel to the trace, and touches neither the store nor the files |
| World.Env.HGetAll | vizaviz.py:106 | returns the whole hash at the key, empty when it is absent |
| World.Env.HGet | vizaviz.py:110 | returns the field of the hash, None when the key or field is absent |
| World.Env.HmSet | vizaviz.py:94-95 | the new world is the old one with the fields merged into the hash |
| World.Env.Del | vizaviz_gui.py:276 | the new world is the old one with the key removed |
| World.Env.SMembers | vizaviz.py:277 | returns the members of the set, empty when it is absent |
| World.Env.SAdd | vizaviz.py:287 | the new world is the old one with the member added |
| World.Env.IsFile | vizaviz.py:208 | true exactly when the path exists |
| World.Env.Load | vizaviz.py:226 | the file's content, None when it does not exist |
| World.Env.Save | vizaviz.py:221 | the file is created or replaced, and nothing else changes |
| World.Env.Issue | vizaviz.py:46-49 | the event is appended to the trace, and nothing else changes |
| World.Env.SpawnLoop | vizaviz.py:51-58 | returns the next unused pid, and the world records the launch as Launched does |
| World.Env.WriteToPipe | vizaviz.py:60-71 | returns the player's reply to the framed command and records exactly one Write on the channel |
| Keys.LoopKeyIsNotRunningKey | vizaviz.py:94-105 | no key the loop scan finds is the running-set hash, so the pass never reads that hash as a loop record |
| Keys.LoopKeyHasPrefix | vizaviz.py:105 | every loop key the GUI or the server writes is found by the scan pattern of its server |
| Keys.MapFileNameRoundTrip | vizaviz_gui.py:503-511 | get_hash and get_resolution recover the fingerprint and the resolution from an artifact name `<hash>_<r>.npy` |
| Keys.ImageStemRoundTrip | vizaviz.py:169-179 | images_to_db's four-way split of an image name recovers the map name and the fingerprint from `map_image_<name>_<hash>.jpg` |
| Keys.ImageFieldRoundTrip | vizaviz_gui.py:579-582 | update_sources' reading of `map:<m>:image:<i>` gives back m and i when neither holds a colon |
| Keys.ResolutionFieldRoundTrip | vizaviz_gui.py:588-590 | the GUI reads the field the server writes for map m at resolution r back as m and r, unless m ends in "image", which the earlier image test would catch |
| Keys.ResolutionFieldSplit | vizaviz_gui.py:589 | a resolution field splits on `:` into exactly the four pieces the unpacking expects |
| Keys.ResolutionFieldHasNoImageTag | vizaviz_gui.py:579 | a resolution field does not contain "image:" when the map name does not end in "image", so it is not misread as an image entry |
| Keys.LoopChannelField | vizaviz.py:432 | the fifth `:`-piece of a loop key's keyspace channel is the uuid, and there are exactly five |
| Ipc.Frame | vizaviz.py:62-63 | the framed text ends in a newline and is the text followed by at most one character |
| Ipc.FrameIdempotent | vizaviz.py:62-63 | framing an already framed text changes nothing |
| Ipc.FrameAddsOnlyMissingNewline | vizaviz.py:62-63 | the text is kept exactly when it ends in a newline; otherwise exactly one newline is added |
| Ipc.WireIsTextAndNewline | vizaviz.py:124-160 | every command the server writes goes out as its JSON text plus one newline |
| Ipc.DiffersFromFloatCases | vizaviz.py:131-141 | a reply of "no" (loop point not set) always differs from the stored float; a number differs exactly when it is another value |
| Strings.Split | vizaviz_gui.py:582 | `str.split(c)` gives at least one piece, and no piece contains the separator |
| Strings.SplitJoin | vizaviz_gui.py:589 | splitting a join recovers the pieces when none holds the separator |
| Strings.JoinSplit | vizaviz.py:432 | joining the pieces of a split gives the string back |
| Strings.Partition | vizaviz_gui.py:505 | the three parts concatenate to the input, the first has no separator, and no separator gives (s, "", "") |
| Strings.PartitionAt | vizaviz_gui.py:505 | partition splits at the first separator |
| Strings.RemoveChar | vizaviz.py:230 | `replace(c, "")` leaves no c and never lengthens the text |
| Strings.NonEmpty | vizaviz_gui.py:240 | `filter(None, …)` keeps no empty string and never adds pieces |
| Strings.NonEmptyAppend | vizaviz_gui.py:240 | filtering a concatenation is the concatenation of the filtered parts |
| Strings.ParseIntOfString | vizaviz.py:94-110 | `int(str(i)) == i`: the pid the server stores reads back as that pid |
| Strings.ParseFloatOfIntString | vizaviz.py:141 | `float(str(i)) == i`: an integer loop point the GUI stores reads back as that number |
| Sorting.Sort | vizaviz.py:210 | the sorted list is a rearrangement of the input (same multiset) |
| Sorting.SortSorted | vizaviz.py:210 | under a total order the result is in order |
| Sorting.SortedUnique | vizaviz.py:210 | two sorted rearrangements of the same values are equal, so sorting has one answer |
| Sorting.SortIsSortedRearrangement | vizaviz.py:210 | sorting any rearrangement of a sorted list gives that list |
| Sorting.LexOrderIsTotal | vizaviz.py:210 | Python's string `<=` is a total order |
| Sorting.PairOrderIsTotal | vizaviz_gui.py:849 | Python's `<=` on (map, image) pairs is a total order, so `sorted(map_index)` is well defined |
| Frames.Fixed | vizaviz.py:197 | `%08d` gives exactly the field width |
| Frames.FixedOrder | vizaviz.py:197 | zero-padded numbers sort as text exactly as they sort as numbers |
| Frames.FrameNameOrder | vizaviz.py:197 | frame file names `<prefix>_%08d.bmp` sort in frame order |
| Frames.PathOrderIsTotal | vizaviz.py:210 | the order `sources.sort()` uses on paths is total |
| Frames.FrameFiles | vizaviz.py:197-200 | the frame files of an extraction, one per frame number, in that order |
| Frames.SortedFramesAreInFrameOrder | vizaviz.py:197-210 | sorting any listing of one extraction's frames gives them in frame order, whatever order the glob returned |
| Encoding.DecodeEncode | vizaviz_gui.py:240-241 | the GUI's `[int(s) for s in filter(None, z.split(" "))]` on the server's encoding of any flattened array of channel values 0..255 gives the array back, wherever numpy breaks lines |
| Encoding.EncodedPieces | vizaviz_gui.py:592 | the non-empty pieces of the server's encoding of such an array are `str(x)` of its elements, in order |
| Encoding.StripNumpyStr | vizaviz.py:230 | removing points and newlines and the brackets from numpy's printout leaves the padded integers separated by spaces |
| Encoding.SplitClean | vizaviz_gui.py:240 | splitting that text on spaces and dropping empty pieces gives `str(x)` of each element |
| Encoding.ParseTexts | vizaviz_gui.py:241 | `int` of each `str(x)` gives the elements back |
| Encoding.ParseAll | vizaviz_gui.py:241 | a successful parse has one number per piece |
| Supervisor.ArchivedIsLeftAlone | vizaviz.py:82-99 | a record whose status contains "archive" launches nothing and is returned unchanged |
| Supervisor.NoStatusIsSpawned | vizaviz.py:84-95 | a record without a status is launched on its file and uuid, and gains the new pid |
| Supervisor.CreateLoopFails | vizaviz.py:82-99 | it fails exactly for a non-archived record without a filename or a uuid, and then changes nothing |
| Supervisor.SpawnRecordsOnePid | vizaviz.py:93-95 | a launch records the new pid under the uuid in the running set and in the record's pid field; nothing else changes, and the loop then counts as running |
| Supervisor.IdempotentCreateLoop | vizaviz.py:82-99 | the method's effect and result are those of CreateLoop |
| Reconcile.Supervise | vizaviz.py:106-124 | a supervised record that comes back has a uuid; a failure changes nothing |
| Reconcile.StartCorrection | vizaviz.py:139-145 | ab-loop-a is set exactly when the stored start is non-negative and differs from the player's; the seek is sent exactly then, unless the end is unreadable |
| Reconcile.EndCorrection | vizaviz.py:147-151 | ab-loop-b is set exactly when the stored end is a non-negative number that differs from the player's |
| Reconcile.VolumeCorrection | vizaviz.py:153-157 | the volume is set exactly when the stored text differs from the raw reply, and the end is readable |
| Reconcile.SeekComesLast | vizaviz.py:141-160 | every command but the last is a set, and a seek can only be the last |
| Reconcile.CorrectionsMembers | vizaviz.py:139-160 | with a readable end, the commands sent are exactly the start, end and volume sets and the seek whose conditions hold |
| Reconcile.CorrectionsStopAtEnd | vizaviz.py:148 | with an unreadable end, at most the start is set, and neither volume nor seek follows |
| Reconcile.NegativeEndIsNotSent | vizaviz.py:148 | a negative stored end (the GUI's -1 for "to the end") is never sent |
| Reconcile.NoCorrectionWithoutReadings | vizaviz.py:129-139 | nothing is sent when a start or end reply does not decode or the stored start is missing or not a number |
| Reconcile.MissingEndSkipsOnlyItsCorrection | vizaviz.py:147-151 | a record without an end gets the same commands minus the end's |
| Reconcile.MissingVolumeSkipsOnlyItsCorrection | vizaviz.py:153-157 | a record without a volume gets the same commands minus the volume's |
| Reconcile.NotSetStartIsCorrected | vizaviz.py:134-143 | a player whose loop start is not set ("no") is given the stored start, and the last command seeks to it |
| Reconcile.SendCorrections | vizaviz.py:129-160 | the three decoded replies lead to exactly the writes of Corrections; the store, the files and the pid counter are kept |
| Reconcile.ReconcileKeyFrame | vizaviz.py:105-163 | one iteration changes nothing but the record's pid field and the running set; the trace only grows, and it grows only by launches of this record's file on its uuid |
| Reconcile.KeyOutcome | vizaviz.py:106-124 | a record with a uuid and a filename (or archived) never aborts the pass; one without a uuid always does |
| Reconcile.SupervisableLaunches | vizaviz.py:82-120 | every supervision step of such a record succeeds and keeps it supervisable |
| Reconcile.UnnamedLaunches | vizaviz.py:110-120 | a record without a uuid comes back unchanged if it comes back at all |
| Reconcile.ArchivedRecordIsOnlyQueried | vizaviz.py:87-126 | an archived record is never launched; its player is only queried and corrected |
| Reconcile.SuperviseSpawns | vizaviz.py:107-120 | how many players one supervision launches: one or two for a loop not running (two when the fresh pid is not reported alive), one for a dead or zombie pid, none for a live one |
| Reconcile.EnsureRunningSpawns | vizaviz.py:107-108 | a loop absent from the running set is launched once, a running one not at all |
| Reconcile.RecheckSpawns | vizaviz.py:109-120 | the pid re-check launches once exactly when the recorded pid is missing, unreadable, dead or a zombie |
| Reconcile.LaunchCount | vizaviz.py:106-120 | the same count for one iteration of get_state |
| Reconcile.PassCompletes | vizaviz.py:105-163 | when every scanned record can be supervised, the pass runs to the end; no player failure stops it |
| Reconcile.PassLaunchesOnlyLiveLoops | vizaviz.py:105-120 | every player a pass launches is for the uuid of a scanned, non-archived record |
| Reconcile.SuperviseStep | vizaviz.py:106-120 | supervision changes only the pid field and the running set, and launches only this record |
| Reconcile.CreateLoopStep | vizaviz.py:93-95 | idempotent_create_loop is such a step, and it launches once exactly when the record is not archived and has a filename and a uuid |
| Reconcile.SendIf | vizaviz.py:142-143 | a conditional write records one Write exactly when the condition holds |
| Reconcile.SendLater | vizaviz.py:147-160 | the end, volume and seek writes are those LaterCorrections lists |
| Reconcile.SendProbes | vizaviz.py:124-126 | the three property reads are written in order, and their replies are returned |
| Reconcile.QueryPlayer | vizaviz.py:124-160 | the reads and corrections for one record leave the world as Sent says |
| Reconcile.EnsureLoopRunning | vizaviz.py:107-108 | the method's effect and result are those of EnsureRunning |
| Reconcile.RecheckLoop | vizaviz.py:109-120 | the method's effect and result are those of Recheck |
| Reconcile.ReconcileLoop | vizaviz.py:106-163 | one loop iteration's effect and outcome are those of ReconcileKey |
| Reconcile.GetState | vizaviz.py:101-163 | the whole pass's effect and outcome are those of Pass |
| Colormap.MapPathInjective | vizaviz.py:206 | different resolutions get different artifact files |
| Colormap.ResolutionFieldInjective | vizaviz.py:232 | different resolutions are stored under different fields |
| Colormap.AllMapsExistMeans | vizaviz.py:355-363 | file_already_processed holds exactly when every resolution's artifact exists |
| Colormap.Palettes | vizaviz.py:211-213 | one palette per frame, each the quantizer's answer for that frame |
| Colormap.PalettesNone | vizaviz.py:211-213 | collecting fails exactly when some frame cannot be quantized |
| Colormap.CollectPalettes | vizaviz.py:211-213 | the loop collects exactly the palettes Palettes gives |
| Colormap.GridOf | vizaviz.py:215-219 | a frames x r x 3 array whose cells are the palette channels, 0 beyond each palette |
| Colormap.BuildShape | vizaviz.py:215-219 | a built array has one row of r three-channel cells per frame; cell j of row i is colour j of the i-th frame in sorted order, and zero past its palette |
| Colormap.FillGrid | vizaviz.py:215-219 | the fill loop on a zeroed array succeeds exactly when every palette fits its row, and then gives the array GridOf describes |
| Colormap.BuildFails | vizaviz.py:212-219 | building fails exactly when a frame cannot be quantized or a palette has more colours than the resolution |
| Colormap.FlattenLength | vizaviz.py:230 | a frames x r x 3 array flattens to 3r numbers per frame |
| Colormap.ColormapToDbRoundTrip | vizaviz.py:225-235 | colormap_to_db stores a field the GUI decodes back to the array's flattening and a duration that reads as the frame count, and changes nothing else |
| Colormap.StoreColormap | vizaviz.py:225-235 | the method's effect and result are those of ColormapToDb |
| Colormap.MapForNew | vizaviz.py:206-222 | a missing artifact is built from the frames, saved, and stored as a field that decodes to its flattening, with the frame count as duration |
| Colormap.MapForEffect | vizaviz.py:206-222 | one resolution changes only its own artifact file, its field and the duration; an existing artifact means no change at all |
| Colormap.MakeMap | vizaviz.py:206-222 | the method's effect and result are those of MapFor |
| Colormap.FromFramesPaths | vizaviz.py:203-223 | on success, one artifact path per configured resolution, in their order |
| Colormap.FromFramesFrame | vizaviz.py:203-223 | the pass changes only artifact files, resolution fields and the duration of this source; on success every artifact exists |
| Colormap.FromFramesProcesses | vizaviz.py:203-223 | after a successful pass over the configured resolutions the source counts as processed |
| Colormap.MakeMaps | vizaviz.py:204-223 | the resolution loop's effect and result are those of FromFrames |
| Colormap.ColormapFromFrames | vizaviz.py:203-223 | colormap_from_frames' effect and result are those of FromFrames over the configured resolutions |
| Colormap.ExistingMapIsLeftAlone | vizaviz.py:208 | an artifact that already exists is neither rebuilt nor re-stored |
| Colormap.FromFramesDuration | vizaviz.py:234-235 | the duration is either untouched or the number of frames |
| Colormap.MissingFirstIsBuilt | vizaviz.py:208-222 | after a successful pass, the first resolution's missing artifact is the array built from the frames, and its field decodes to the array |
| Colormap.MissingMapIsBuilt | vizaviz.py:208-222 | the same for every configured resolution whose artifact was missing |
| Sources.AudioImage | vizaviz.py:165-172 | the spectrogram image is written under `map_image_spectrogram_<hash>.jpg`; a renderer failure is swallowed and changes nothing |
| Sources.SaveAudioImage | vizaviz.py:165-172 | the method's effect is that of AudioImage |
| Sources.ImagesToDbFrame | vizaviz.py:174-186 | images_to_db writes only the image fields of the listed images; files, trace and sets are kept |
| Sources.StoreImages | vizaviz.py:174-186 | the method's effect and result are those of ImagesToDb |
| Sources.ImagesToDbStores | vizaviz.py:176-186 | after a successful run each listed image's bytes are under `map:<name>:image:<name>` of its source |
| Sources.ImageTargetInjective | vizaviz.py:179-186 | different images aim at different fields or different sources |
| Sources.SpectrogramIsStored | vizaviz.py:169-186 | the spectrogram rendered for a source ends up under its `map:spectrogram:image:spectrogram` field |
| Sources.SeenFileIsSkipped | vizaviz.py:381 | a file already in processed_sources changes nothing |
| Sources.ComputedSourceIsRecordedIffExtracted | vizaviz.py:386-395 | a new source is recorded, with its file name and fingerprint and all artifacts, exactly when frame extraction succeeds; otherwise it stays unprocessed |
| Sources.KnownSourceIsResynced | vizaviz.py:396-405 | a source whose artifacts exist is recorded, no file changes, and every existing artifact is stored again as a field that decodes to it |
| Sources.RecordFields | vizaviz.py:392-393 | the filename and filehash fields are written, and no other field |
| Sources.RecordSource | vizaviz.py:392-393 | the method's effect is that of Record |
| Sources.ResyncFrame | vizaviz.py:402-405 | the re-sync touches only this source's resolution fields and duration |
| Sources.ResyncFields | vizaviz.py:402-405 | a resolution without an artifact keeps its field; one with an artifact gets the field that decodes to it |
| Sources.ResyncMaps | vizaviz.py:402-405 | the loop's effect and result are those of Resync |
| Sources.SourceFromGrows | vizaviz.py:380-405 | processed_sources only grows, and only by files of the listing mapped to their fingerprints |
| Sources.SourceFileGrows | vizaviz.py:381-397 | one file adds at most its own fingerprint |
| Sources.ExtractFrames | vizaviz.py:188-201 | the method's effect and result are those of FramesFromFile |
| Sources.ProcessSource | vizaviz.py:381-405 | one file's effect is that of SourceFile |
| Sources.SourceFromDirectory | vizaviz.py:376-406 | the directory loop's effect is that of SourceFrom |
| Ingest.AsWrittenIngestsNothing | vizaviz.py:278-287 | as written, ingest changes nothing, and it raises exactly when some URL is valid, always TypeError |
| Ingest.IngestOneEffect | vizaviz.py:279-287 | one URL: an invalid or known one changes nothing; name resolution failing is the only error; an admitted one joins the history, and a fetch is issued exactly when its file is absent |
| Ingest.IngestAllFrame | vizaviz.py:276-289 | a pass changes only the history set and the trace; every fetch in it is for a URL that was due, into the destination |
| Ingest.IngestAllHistory | vizaviz.py:277-287 | after a successful pass, the history has gained exactly the admitted URLs |
| Ingest.IngestAllFetches | vizaviz.py:283-286 | after a successful pass, every due URL was fetched |
| Ingest.IngestFinding | vizaviz.py:282 | for a valid new URL, the code as written raises TypeError and records nothing, while the intended ingest records it |
| Ingest.IngestLoop | vizaviz.py:270-289 | the method's effect and result are those of IngestUrls |
| Events.DeleteTerminatesRecordedPid | vizaviz.py:430-439 | deleting a loop key terminates the pid the running set has for its uuid, and leaves that entry in place |
| Events.StopDeletedLoop | vizaviz.py:430-439 | the method's effect and result are those of DeleteLoop |
| Events.DeleteFailures | vizaviz.py:432-439 | no running entry gives TypeError; a vanished pid gives NoSuchProcess; failures change nothing, and success only terminates |
| Events.OtherMessagesOnlyReconcile | vizaviz.py:418-440 | any other message only runs the reconciliation pass |
| Events.DeleteComesBeforePass | vizaviz.py:430-440 | for a deleted loop, the player is terminated before the pass runs on the resulting state |
| Events.HandleKeyEvent | vizaviz.py:418-447 | one turn of the event loop has the effect and result of HandleStep, with ingest as intended |
| Events.IngestEventAsWritten | vizaviz.py:421-429 | as written, an ingest notification whose set holds a valid URL ends the handler with TypeError, changing nothing and running no get_state; a set without one goes on to the pass unchanged |
| Dispatch.FiresIff | vizaviz_gui.py:867-888 | an action fires exactly when its key matches and either nothing is pressed and nothing is bound, or the pressed modifiers are distinct and all bound |
| Dispatch.FiredIff | vizaviz_gui.py:866-888 | an action name is triggered exactly when one of its bindings in the group fires |
| Dispatch.CtrlLeftKeys | bindings.py:11-27 | Ctrl+Left triggers tab_next and nothing of the maps group |
| Dispatch.LeftKeys | bindings.py:11-27 | Left alone pans left and triggers nothing of the app group |
| Dispatch.TabKeys | bindings.py:19 | Tab alone asks for the next map |
| Dispatch.Fired | vizaviz_gui.py:866 | no more actions fire than the group has |
| Loops.AdjustLoopNeverCreates | vizaviz_gui.py:292-297 | an edit writes the field into an existing record and never creates one; other keys are untouched |
| Loops.LoopItem.AdjustLoopField | vizaviz_gui.py:292-297 | the widget's edit has the store effect of AdjustLoop |
| Loops.NonNumericValueChangesNothing | vizaviz_gui.py:279-290 | a value `float` rejects changes neither the settings nor the store |
| Loops.LoopItem.AdjustSettingValue | vizaviz_gui.py:279-290 | the widget's settings and the store change as AdjustSetting says, and nothing else |
| Loops.LoopSettingNames | vizaviz_gui.py:156-158 | each record field k becomes the setting `loop_k` with its text, and every loop setting names a field |
| Loops.LoopItem.UpdateLoopSettings | vizaviz_gui.py:156-158 | the loop adds exactly the loop settings of the record |
| Loops.LoopSettingEdit | vizaviz_gui.py:282-287 | a numeric edit of `loop_k` sets the setting to the number and writes field k of an existing record, whose stored value then reads back as that number |
| Loops.EditableLoopFields | vizaviz_gui.py:104-143 | the editable loop settings are exactly start, end, volume and status |
| Loops.PlainSettingStaysLocal | vizaviz_gui.py:285-287 | a setting without "loop_" never reaches the store |
| Loops.RemovedLoopStaysRemoved | vizaviz_gui.py:274-297 | a late edit after remove_loop does not bring the record back |
| Loops.LoopItem.constructor | vizaviz_gui.py:84-117 | a new widget holds the record, the defaults and the loop settings |
| Loops.LoopItem.InitializeSettings | vizaviz_gui.py:160-177 | the defaults are added over the current settings |
| Loops.LoopItem.Remove | vizaviz_gui.py:274-277 | the record's key under server `foo` is deleted and nothing else changes |
| Loops.Scrolled | vizaviz_gui.py:203-209 | a scroll changes only the first segment and keeps the setting names; it fails only when a scroll setting is missing or not a number |
| Loops.ScrollUpDown | vizaviz_gui.py:203-209 | scrolling up moves the first segment by the scroll amount, and scrolling down then restores every setting |
| Loops.FreshSettingsScroll | vizaviz_gui.py:160-177 | a new widget's settings can scroll: no record field overrides the two scroll settings |
| Loops.EditsKeepScrollable | vizaviz_gui.py:203-209 | adjust_setting and scrolling keep the scroll settings numbers, so scrolling a widget never raises |
| Loops.LoopItem.Scroll | vizaviz_gui.py:203-209 | the widget's settings become those of Scrolled, or stay on an error |
| Loops.LoopItem.ViewgridScrollUp | vizaviz_gui.py:203-205 | the widget scrolls up as Scrolled says |
| Loops.LoopItem.ViewgridScrollDown | vizaviz_gui.py:207-209 | the widget scrolls down as Scrolled says |
| Viewer.TabCycle | vizaviz_gui.py:820-839 | from tab i of n, tab_next shows (i - 1) mod n and tab_previous (i + 1) mod n; an unknown tab stays |
| Viewer.TabsUndo | vizaviz_gui.py:820-839 | with distinct tabs, tab_next and tab_previous undo each other |
| Viewer.MapNextAsWrittenStalls | vizaviz_gui.py:847 | as written, after the second press map_next keeps showing the second map |
| Viewer.MapNextVisitsAll | vizaviz_gui.py:841-852 | as intended, press k+1 shows the k-th map in sorted order, and one press past the end clears the selection and starts over |
| Viewer.App.MapNext | vizaviz_gui.py:841-852 | the app's active map and position become those of NextMap, the corrected map_next; tabs and catalogue are kept |
| Viewer.SortedIndex | vizaviz_gui.py:849 | the sorted keys of map_index, one per key |
| Viewer.CtrlLeftOnMapsTab | vizaviz_gui.py:864-893 | on the maps tab, Ctrl+Left switches exactly one tab back and changes nothing else |
| Viewer.TabOnMapsTab | vizaviz_gui.py:864-872 | on the maps tab, Tab moves to the next map as the corrected map_next does, and changes no tab |
| Viewer.NewLoopRecord | vizaviz_gui.py:912-927 | create_loop writes exactly the given fields under a fresh uuid, with start and end reading back as the numbers given; only the loop key and the focus key change |
| Viewer.App.CreateLoop | vizaviz_gui.py:912-927 | the method's store effect is that of CreatedLoop |
| Viewer.LoopRecordFields | vizaviz_gui.py:912-922 | the record holds uuid, filename, status, start and end, plus filehash exactly when one is given and non-empty |
| Viewer.DefaultLoopRecord | vizaviz_gui.py:912 | the defaults are status "active", start 0 and end -1 |
| Viewer.ClickEndIsNeverSent | vizaviz_gui.py:969-985 | a click without a drag stores end -1, which the server never sends as ab-loop-b |
| Viewer.ReadSource | vizaviz_gui.py:555-568 | the per-field reads collect exactly the listed fields that are present |
| Viewer.ReadMapField | vizaviz_gui.py:576-611 | one field's handling, rendering included, is that of FieldStep |
| Viewer.ReadMapFields | vizaviz_gui.py:576-611 | the field loop's result is that of LoadMaps |
| Viewer.App.constructor | vizaviz_gui.py:514-537 | a new app has an empty catalogue and map index and no active map |
| Viewer.App.TabNext | vizaviz_gui.py:820-829 | the current tab becomes NextTab's, and nothing else changes |
| Viewer.App.TabPrevious | vizaviz_gui.py:831-839 | the current tab becomes PreviousTab's, and nothing else changes |
| Viewer.App.Perform | vizaviz_gui.py:869 | an action changes the view as Act says, with the corrected map_next |
| Viewer.App.RunGroup | vizaviz_gui.py:866-906 | one group's loop performs exactly the fired actions, in order |
| Viewer.App.OnKeyDown | vizaviz_gui.py:864-906 | a key press changes the view as KeyDown says |
| Viewer.App.LoadSourceHash | vizaviz_gui.py:555-613 | reading one source hash changes the catalogue as LoadSource says |
| Viewer.App.UpdateSources | vizaviz_gui.py:553-613 | reading all source hashes changes the catalogue as UpdateSources says |
| SourceCatalog.LoadMaps | vizaviz_gui.py:576-611 | the field loop only adds maps and index entries, keeps image-built maps, indexes only image maps, and what escapes is ValueError, UnboundLocalError, ZeroDivisionError or OSError |
| SourceCatalog.Unmentioned | vizaviz_gui.py:576-597 | a map name no field mentions gets no map |
| SourceCatalog.LoadMapsLoads | vizaviz_gui.py:576-611 | when all field names parse, every resolution field's text renders, and no image map shares a name with a resolution map, the loop completes |
| SourceCatalog.StoredColormapRenders | vizaviz.py:299-351 | the text the server stores for a source with frames, at a positive resolution, renders in visualize_map exactly when both images stay within the JPEG limit of 65500 pixels a side (the vertical one frames × r wide, the horizontal one 10 × r wide and 10 × frames high); beyond it the save raises OSError |
| SourceCatalog.WholeFramesSplit | vizaviz.py:306 | a row count that is a whole number of frames of r rows passes np.split's test and splits into exactly that many frames |
| SourceCatalog.PowerOfTwoSplits | vizaviz.py:306 | at a power-of-two resolution (every one of COLORMAP_RESOLUTIONS) any row count of at least r passes np.split's test, into at least one frame |
| SourceCatalog.PowerOfTwoResolutionRenders | vizaviz.py:299-351 | at a power-of-two resolution, a whole number of parseable rows, at least r of them, renders into int(rows / r) frames, raising OSError only past the JPEG limit |
| SourceCatalog.EmptyColormapRaises | vizaviz.py:299-314 | the text the server stores for a source without frames makes visualize_map raise UnboundLocalError, which leaves update_sources after the empty raw text is entered |
| SourceCatalog.ZeroResolutionRaises | vizaviz.py:306 | a resolution field named 0 over whole rows of three makes visualize_map raise ZeroDivisionError |
| SourceCatalog.LoadSource | vizaviz_gui.py:555-613 | a hash without filehash is skipped; otherwise exactly that entry is replaced, it gets maps exactly when filename and duration are present, a complete read records exactly those three fields, and what escapes is ValueError, UnboundLocalError, ZeroDivisionError or OSError |
| SourceCatalog.UpdateSources | vizaviz_gui.py:553-613 | sources and the index only grow, and what escapes is ValueError, UnboundLocalError, ZeroDivisionError or OSError |
| SourceCatalog.Indexed | vizaviz_gui.py:587 | `map_index[p] = p` keeps the old keys in place and contains p |
| SourceCatalog.ResolutionKept | vizaviz_gui.py:588-597 | a resolution no later field names keeps its text |
| SourceCatalog.LastResolutionWins | vizaviz_gui.py:588-597 | when exactly one field names a resolution, the map's raw text for it is that field's value |
| SourceCatalog.ResolutionAfterImageSkipsRest | vizaviz_gui.py:588-597 | a resolution field for a map built from an image raises KeyError and skips the rest of that source |
| SourceCatalog.ColormapIsReadBack | vizaviz_gui.py:569-611 | when every field of the source parses and renders, the GUI's catalogue holds, for a map stored by the server, a raw text that decodes to the stored array |
| SourceCatalog.FirstImageWins | vizaviz_gui.py:579-587 | the first image field of a map gives it its image and its only new index entry |
| SourceCatalog.FirstImageIsRecorded | vizaviz_gui.py:569-587 | the same, read from a source hash into the catalogue |

## Left out

- Oracles: process status, player replies, JSON decoding, `urlparse`, youtube-dl's file name, the ffmpeg frame listing, PIL's quantizer (create_map), numpy's line breaks, SHA-1, the spectrogram renderer, uuid4 and the orders of SCAN, HKEYS and SMEMBERS are parameters. The model proves what holds for every answer they may give.
- Concurrency: the pubsub thread, the trio nursery and queue, `main`, the sleeps and the 0.75 s launch delay are not modelled. Each server task is one sequential function, and handle_key_events is modelled one turn at a time.
- Rendering: PIL, numpy and Kivy drawing (visualize_loop, draw_viewport, display_sources, display_traces, widget layout) is not modelled, and neither are the render dicts update_sources fills. Of visualize_map, only the exceptions it raises on a stored text are modelled (SourceCatalog.RenderError).
- SourceCatalog.RenderError: np.split's float test is modelled for row counts below 2^53: `N % (N / r)` is zero exactly when N / r is a binary64 number, that is when the odd part of r divides N; larger counts are not modelled. The exception PIL raises when a JPEG side exceeds 65500 pixels is taken to be OSError, and PIL's handling of channel values outside 0..255 is not modelled.
- The focus key's 30 second expiry and the `update_loops` refresh after create_loop and remove_loop are not modelled. The focus hash write is.
- app_exit, and the `getattr` calls on child widgets after a key press, are not modelled: they reach code outside this core.
- The "loops" binding group binds viewgrid_scroll_up to the up key and viewgrid_scroll_down to the down key (bindings.py:37-38); its other bindings have no keys. The scrolls are modelled on the widget (Loops.Scrolled, Loops.LoopItem.Scroll), but the dispatch from the app to a child widget is not, and neither is the redraw after a scroll. The model takes the binding table as a parameter.
- Loops.LoopItem.constructor: takes the duration as a parameter instead of reading `app.sources[...]["duration"]`, so the KeyError that lookup can raise is not modelled.
- Strings.ParseFloat: models `float()` on plain signed decimals only. Exponents, inf, nan, surrounding whitespace and underscores are rejected.
- Strings.ParseInt: accepts an optional sign and ASCII digits. Whitespace and underscores are rejected.
- Sources.SourceFromDirectory: `processed_sources` is a map value returned to the caller, not a dict shared by reference with the trio queue.
- ingest_from, the startup sweep that runs ingest on the members of every `vizaviz:*ingest` set that SCAN yields and then sleeps (vizaviz.py:365-374), is not modelled as its own operation. As written, its ingest call (vizaviz.py:370) is Ingest.IngestAsWritten: at the first valid URL of any such set it raises TypeError, which leaves the nursery for main's handler (vizaviz.py:467-469); Ingest.IngestLoop is the ingest the code intends.
- Events.HandleKeyEvent, Events.HandleMessage, Events.HandleStep and Events.IngestKeyUrls: run the corrected ingest. As written, a set holding a valid URL raises TypeError inside the handler, no get_state follows and main exits; Events.IngestEventAsWritten states this.
- Viewer.Act, Viewer.ActAll, Viewer.KeyDown, Viewer.TabOnMapsTab, Viewer.App.MapNext, Viewer.App.Perform, Viewer.App.RunGroup and Viewer.App.OnKeyDown: use the corrected map_next (`+= 1`). As written, the position becomes 1 on every press after the first; Viewer.MapNextAsWrittenStalls states what that shows.
- Numbers: Python floats are modelled as exact decimals (Ipc.JNumber, Strings.ParseFloat). Rounding to binary64 is not modelled, so texts that Python reads as equal floats, such as "0.30000000000000001" and "0.3", are different numbers in the model.
- processors_audio.py (the spectrogram) is the `spectrogram` oracle.
- Keys.GetHash and Keys.GetResolution model the GUI helpers, which no GUI code calls.

## Findings

| source | as written | input that shows it | evidently intended | confidence | as-written member | corrected member |
|---|---|---|---|---|---|---|
| vizaviz.py:282-287 | the `ParseResult` of `urlparse` is used where the URL string is meant: the history check never matches, and youtube-dl is called with a non-string argument, which raises TypeError | any URL with a scheme, a host and a path that is not in the history | check, fetch and record the URL text | not executed | Ingest.IngestFinding | Ingest.IngestAllHistory |
| vizaviz_gui.py:847 | `self.active_map_position =+1` assigns 1 instead of adding 1 | a map index of three maps and three presses of Tab: the third press shows the second map again | `+= 1`, so each press shows the next map | not executed | Viewer.MapNextAsWrittenStalls | Viewer.MapNextVisitsAll |
