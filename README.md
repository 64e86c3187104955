# SmartDeviceLink screen management, modelled in Dafny

This project models the core of the SmartDeviceLink screen-management layer:

- **The screen manager** (`screen_manager.dfy`, module `Screen`). It owns five sub-managers: soft buttons, text and graphics, voice commands, menu and choice sets.
  - It builds the sub-managers. Without a file manager it builds only the voice-command manager.
  - It starts and disposes them in a fixed order.
  - It folds their lifecycle states into its own composite state.
  - It replaces a null primary or secondary graphic with the blank artwork.
  - It batches soft-button and text-and-graphic updates into a transaction. The commit reports one combined success flag.
- **The choice set** (`choice_set.dfy`, module `ChoiceSets`). This is the record an app builds to present a choice interaction.
  - A null layout falls back to the list layout, and a null timeout to 10 seconds.
  - Voice-help items are copied and numbered by position.
  - The parameter check only warns.
- **The choice preload operation** (`preload_choices.dfy`, module `PreloadChoices`). It runs in two stages:
  - it uploads the artworks of the choice cells that the head unit can show;
  - it then converts each cell into a `CreateInteractionChoiceSet` request and sends them all as one batch.

  An `isRunning` flag is meant to stop cells from being removed while the operation runs.
- **The sub-cell command list** (`sub_cell_command_list.dfy`, module `Menu`). This is the immutable record the menu diff keeps for one parent cell and its old and new sub-cell lists.

`common.dfy` (module `Common`) holds the shared types: `Option` for nullable references and weak references, artworks, images and choice cells. It also holds the file manager, seen as the set of artworks it reports as uploaded.

How the model represents the source:

- **Null references.** A Java `NullPointerException` on a missing sub-manager becomes an `ok == false` result. In that case nothing after the faulting call happens.
- **Asynchronous callbacks.** These become separate methods that the environment calls:
  - `CommitCallback.SoftButtonUpdated` and `CommitCallback.TextAndGraphicUpdated`;
  - `PreloadChoicesOperation.OnArtworksUploaded` and `PreloadChoicesOperation.OnBatchFinished`.
- **Callback state.** A `pending` field, or a `stage` field, records which continuation is outstanding.
- **Listeners.** What a completion listener hears is kept in a ghost sequence, so "called exactly once, with this value" is stated directly.

The composite state follows the code. The sub-manager listener's log messages announce a uniform rule: READY when all sub-managers are in ready state, ERROR when all are in error state, SETTING_UP when at least one is still setting up (`BaseScreenManager.java:83-92`). Its READY test does not consult the choice-set manager (`BaseScreenManager.java:82`), so the test disagrees with its own message. `Screen.ComposeStateVersusUniformRule` proves that this is the only combination where the code and the announced rule disagree.

The doc comment of `ChoiceSet.setChoices` says a list of more than 100 choices leaves the set empty. The code stores the list as given. The model follows the code.

## Model

| member | source | states |
|---|---|---|
| Screen.ComposeState | base/src/main/java/com/smartdevicelink/managers/screen/BaseScreenManager.java:78-101 | Never SHUTDOWN. ERROR when any sub-manager is missing. READY iff all five are present and soft buttons, text and graphics, voice commands and menu are READY, whatever the choice-set manager's state. Otherwise ERROR iff all five are ERROR, SETTING_UP iff any of the five is setting up, and LIMITED in every remaining case. |
| Screen.ComposeStateVersusUniformRule | base/src/main/java/com/smartdevicelink/managers/screen/BaseScreenManager.java:81-94 | The listener agrees with the rule its log messages announce (READY iff all, ERROR iff all, SETTING_UP iff any) in every case but one. In that case the four other managers are READY and the choice-set manager is not, and the listener still says READY. |
| Screen.ScreenManager.Composite | base/src/main/java/com/smartdevicelink/managers/screen/BaseScreenManager.java:81-99 | The composite over the five sub-manager references is never SHUTDOWN. |
| Screen.ScreenManager.constructor | base/src/main/java/com/smartdevicelink/managers/screen/BaseScreenManager.java:103-127 | Soft-button, text-and-graphic, menu and choice-set managers exist iff there is a file manager. The voice-command manager always exists. All are fresh, SETTING_UP, not started and not batching. Without a file manager the composite is ERROR. |
| Screen.ScreenManager.OnSubManagerComplete | base/src/main/java/com/smartdevicelink/managers/screen/BaseScreenManager.java:78-101 | Every sub-manager completion moves the screen manager to the composite state of its five sub-managers. |
| Screen.ScreenManager.Start | base/src/main/java/com/smartdevicelink/managers/screen/BaseScreenManager.java:109-117 | The screen manager is started. The five sub-managers are started, in order, iff there is a file manager. Otherwise the first, missing one throws and the voice-command manager is untouched. No state or batch flag changes. |
| Screen.ScreenManager.Dispose | base/src/main/java/com/smartdevicelink/managers/screen/BaseScreenManager.java:132-140 | With a file manager, all five sub-managers and then the screen manager are SHUT DOWN, and every started flag, batch flag and graphic is unchanged. Without one, the first call throws and nothing changes. |
| Screen.ScreenManager.SetPrimaryGraphic | base/src/main/java/com/smartdevicelink/managers/screen/BaseScreenManager.java:231-236 | A null graphic stores the blank artwork and any other graphic is stored as given. The secondary graphic, the state, the started flag and the batch flag are unchanged. The call throws iff the text-and-graphic manager is missing. |
| Screen.ScreenManager.SetSecondaryGraphic | base/src/main/java/com/smartdevicelink/managers/screen/BaseScreenManager.java:250-255 | The same rule for the secondary graphic, leaving the primary one unchanged. |
| Screen.ScreenManager.BeginTransaction | base/src/main/java/com/smartdevicelink/managers/screen/BaseScreenManager.java:497-500 | The soft-button and text-and-graphic managers go into batch mode; their states, started flags and graphics are unchanged. The call throws iff they are missing. |
| Screen.ScreenManager.Commit | base/src/main/java/com/smartdevicelink/managers/screen/BaseScreenManager.java:506-509 | The soft-button manager leaves batch mode, keeping its state and started flag, and its update starts with a fresh callback. That callback has recorded success so far and waits for the soft-button result. |
| Screen.CommitCallback.constructor | base/src/main/java/com/smartdevicelink/managers/screen/BaseScreenManager.java:508-509 | The captured flag starts true and nothing has been delivered. |
| Screen.CommitCallback.SoftButtonUpdated | base/src/main/java/com/smartdevicelink/managers/screen/BaseScreenManager.java:511-516 | Records the soft-button result and takes the text-and-graphic manager out of batch mode just before its update. Nothing is delivered yet. |
| Screen.CommitCallback.TextAndGraphicUpdated | base/src/main/java/com/smartdevicelink/managers/screen/BaseScreenManager.java:518-525 | The caller's listener, if any, hears exactly once, with true iff both the soft-button and the text-and-graphic updates succeeded. |
| Screen.CommitScenario | base/src/main/java/com/smartdevicelink/managers/screen/BaseScreenManager.java:506-529 | The caller's listener is delivered exactly `[softButtonOk && textAndGraphicOk]` and leaves both managers out of batch mode. |
| ChoiceSets.Renumbered | base/src/main/java/com/smartdevicelink/managers/screen/choiceset/ChoiceSet.java:368-386 | Numbering keeps the list's length. |
| ChoiceSets.RenumberedPositions | base/src/main/java/com/smartdevicelink/managers/screen/choiceset/ChoiceSet.java:374-382 | The item at index i keeps its text and image and gets position i+1, so the positions are pairwise distinct. |
| ChoiceSets.SetUpHelpItems | base/src/main/java/com/smartdevicelink/managers/screen/choiceset/ChoiceSet.java:368-386 | Null stays null. Otherwise the copy has the same length, and item i keeps its text and image and has position i+1. |
| ChoiceSets.ChoiceSet.constructor | base/src/main/java/com/smartdevicelink/managers/screen/choiceset/ChoiceSet.java:69-81 | The short constructor gives the list layout and a 10-second timeout, stores title, choices and listener, and leaves everything else null. |
| ChoiceSets.ChoiceSet.WithTextPrompts | base/src/main/java/com/smartdevicelink/managers/screen/choiceset/ChoiceSet.java:97-122 | A null layout or timeout falls back to list and 10. Each string prompt becomes a one-chunk prompt, and null stays null. The help list is copied and numbered. |
| ChoiceSets.ChoiceSet.WithChunkPrompts | base/src/main/java/com/smartdevicelink/managers/screen/choiceset/ChoiceSet.java:138-153 | The same defaults. Chunk prompts are stored as given, and the help list is copied and numbered. |
| ChoiceSets.ChoiceSet.SetTitle | base/src/main/java/com/smartdevicelink/managers/screen/choiceset/ChoiceSet.java:166-169 | Stores the title as given and changes nothing else. |
| ChoiceSets.ChoiceSet.SetInitialPrompt | base/src/main/java/com/smartdevicelink/managers/screen/choiceset/ChoiceSet.java:182-184 | Stores the prompt as given. |
| ChoiceSets.ChoiceSet.SetTimeoutPrompt | base/src/main/java/com/smartdevicelink/managers/screen/choiceset/ChoiceSet.java:199-201 | Stores the prompt as given. |
| ChoiceSets.ChoiceSet.SetHelpPrompt | base/src/main/java/com/smartdevicelink/managers/screen/choiceset/ChoiceSet.java:215-217 | Stores the prompt as given. |
| ChoiceSets.ChoiceSet.SetVrHelpList | base/src/main/java/com/smartdevicelink/managers/screen/choiceset/ChoiceSet.java:241-243 | Null gives null. Otherwise it stores the numbered copy of the list. |
| ChoiceSets.ChoiceSet.SetLayout | base/src/main/java/com/smartdevicelink/managers/screen/choiceset/ChoiceSet.java:258-264 | Null stores the list layout, and any other layout is stored unchanged. |
| ChoiceSets.ChoiceSet.SetTimeout | base/src/main/java/com/smartdevicelink/managers/screen/choiceset/ChoiceSet.java:280-287 | Null stores 10. Any other value is stored unchanged, also outside 5..100. |
| ChoiceSets.ChoiceSet.SetChoices | base/src/main/java/com/smartdevicelink/managers/screen/choiceset/ChoiceSet.java:308-311 | Stores the list exactly as given, empty or longer than 100 included. |
| ChoiceSets.ChoiceSet.SetChoiceSetSelectionListener | base/src/main/java/com/smartdevicelink/managers/screen/choiceset/ChoiceSet.java:324-326 | Stores the listener as given. |
| ChoiceSets.ChoiceSet.SetCustomKeyboardConfiguration | base/src/main/java/com/smartdevicelink/managers/screen/choiceset/ChoiceSet.java:333-335 | Stores the configuration as given. |
| ChoiceSets.ChoiceSet.CheckChoiceSetParameters | base/src/main/java/com/smartdevicelink/managers/screen/choiceset/ChoiceSet.java:348-366 | Changes no field. Without debugging it warns about nothing. With debugging it warns about the title iff it is empty or longer than 500, about the timeout iff it is outside 5..100, and about the choices iff there are none or more than 100. Each warning carries the offending value, and no warning appears twice. |
| PreloadChoices.NatToDecimal | base/src/main/java/com/smartdevicelink/managers/screen/choiceset/PreloadChoicesOperation.java:187 | A choice id in decimal is a non-empty string of digits without a leading zero. |
| PreloadChoices.IntToDecimal | base/src/main/java/com/smartdevicelink/managers/screen/choiceset/PreloadChoicesOperation.java:187 | The rendering starts with a minus sign iff the id is negative. |
| PreloadChoices.NatToDecimalRoundTrip | base/src/main/java/com/smartdevicelink/managers/screen/choiceset/PreloadChoicesOperation.java:187 | Reading back the decimal rendering of a natural number gives the number. |
| PreloadChoices.IntToDecimalRoundTrip | base/src/main/java/com/smartdevicelink/managers/screen/choiceset/PreloadChoicesOperation.java:187 | Reading back the decimal rendering of any id gives the id. |
| PreloadChoices.DefaultVrCommandsDistinct | base/src/main/java/com/smartdevicelink/managers/screen/choiceset/PreloadChoicesOperation.java:186-187 | Cells with different ids get different default voice commands. |
| PreloadChoices.UploadCountZeroIffNothingSelected | base/src/main/java/com/smartdevicelink/managers/screen/choiceset/PreloadChoicesOperation.java:224-235 | The artwork list is empty exactly when no cell selects any artwork. This is the test the artwork stage's first branch makes. |
| PreloadChoices.ChoiceOf | base/src/main/java/com/smartdevicelink/managers/screen/choiceset/PreloadChoicesOperation.java:183-220 | A cell converts to null iff the head unit shows no menu name. Otherwise the result is one choice whose id is also the request's id. Its menu name is the cell's text and it ignores adding VR items. Voice commands are the cell's own when non-null, else none when VR is optional, else the id in decimal. Secondary and tertiary text are dropped when unsupported. Each image is attached iff its field is supported, the artwork is non-null, there is a file manager and the artwork is uploaded. |
| PreloadChoices.AfterUpload | base/src/main/java/com/smartdevicelink/managers/screen/choiceset/PreloadChoicesOperation.java:114-126 | An upload only adds to what is uploaded. With no errors, every artwork handed over is uploaded afterwards. |
| PreloadChoices.ArtworkNeedsUpload | base/src/main/java/com/smartdevicelink/managers/screen/choiceset/PreloadChoicesOperation.java:237-242 | True iff there is a file manager, the artwork is non-null, the file manager does not report it uploaded, and it is not a built-in icon. Its partners are `UploadResolvesNeed` and `SecondArtworkStageUploadsNothing`. |
| PreloadChoices.UploadResolvesNeed | base/src/main/java/com/smartdevicelink/managers/screen/choiceset/PreloadChoicesOperation.java:114-126 | An artwork the upload delivered without an error entry no longer needs uploading afterwards. |
| PreloadChoices.SecondArtworkStageUploadsNothing | base/src/main/java/com/smartdevicelink/managers/screen/choiceset/PreloadChoicesOperation.java:224-242 | After an artwork stage with no errors, choosing the artworks again over the same cells finds nothing to upload. |
| PreloadChoices.StaticIconAttachedOnlyWhenReported | base/src/main/java/com/smartdevicelink/managers/screen/choiceset/PreloadChoicesOperation.java:210-213 | A cell's built-in primary icon is never uploaded by the artwork stage, so its image is attached only if the file manager already reported it as uploaded. |
| PreloadChoices.UploadedArtworksAreAttached | base/src/main/java/com/smartdevicelink/managers/screen/choiceset/PreloadChoicesOperation.java:210-213 | After an artwork stage without errors, every cell whose shown, non-static primary artwork was selected gets its image attached. |
| PreloadChoices.PreloadChoicesOperation.constructor | base/src/main/java/com/smartdevicelink/managers/screen/choiceset/PreloadChoicesOperation.java:75-83 | Keeps every argument and is idle and not running. |
| PreloadChoices.PreloadChoicesOperation.HasTextFieldOfName | base/src/main/java/com/smartdevicelink/managers/screen/choiceset/PreloadChoicesOperation.java:257-267 | False without capabilities. Otherwise true iff some declared text field has the name. |
| PreloadChoices.PreloadChoicesOperation.HasImageFieldOfName | base/src/main/java/com/smartdevicelink/managers/screen/choiceset/PreloadChoicesOperation.java:244-255 | False without capabilities or when graphics are null or unsupported. Otherwise true iff some declared image field has the name. |
| PreloadChoices.PreloadChoicesOperation.ArtworksToUpload | base/src/main/java/com/smartdevicelink/managers/screen/choiceset/PreloadChoicesOperation.java:224-235 | An artwork is in the list iff some cell selects it. A cell selects its primary artwork when choice images are shown and the artwork needs uploading, and its secondary artwork likewise with secondary images. The length is the number of selecting cells per slot, at most twice the number of cells, and the list is empty without a file manager. |
| PreloadChoices.PreloadChoicesOperation.RemoveChoicesFromUpload | base/src/main/java/com/smartdevicelink/managers/screen/choiceset/PreloadChoicesOperation.java:96-99 | While running, the cells are unchanged. Otherwise exactly the given cells are removed. |
| PreloadChoices.PreloadChoicesOperation.Run | base/src/main/java/com/smartdevicelink/managers/screen/choiceset/PreloadChoicesOperation.java:85-133 | With nothing to upload, the artwork stage succeeds and the cell stage runs. If the file manager is gone, the stage fails and the cell stage still runs. Otherwise the selected artworks are handed over and the operation waits, running. Corrected order (see Findings): in every case the flag is set exactly while a stage is outstanding. |
| PreloadChoices.PreloadChoicesOperation.RunAsWritten | base/src/main/java/com/smartdevicelink/managers/screen/choiceset/PreloadChoicesOperation.java:85-133 | Order as written: the same three outcomes, but on the paths that finish the artwork stage at once the flag ends cleared, also when the batch of cells is in flight. |
| PreloadChoices.PreloadChoicesOperation.OnArtworksUploaded | base/src/main/java/com/smartdevicelink/managers/screen/choiceset/PreloadChoicesOperation.java:113-127 | The artworks not named in the error map become uploaded. The stage fails iff the map is non-empty, and the cell stage runs either way. Corrected order (see Findings): the flag is set iff the batch is in flight. |
| PreloadChoices.PreloadChoicesOperation.OnArtworksUploadedAsWritten | base/src/main/java/com/smartdevicelink/managers/screen/choiceset/PreloadChoicesOperation.java:113-127 | Order as written: the same upload and cell stage, but the flag ends cleared, so a batch in flight breaks the running invariant. |
| PreloadChoices.PreloadChoicesOperation.FinishArtworkStage | base/src/main/java/com/smartdevicelink/managers/screen/choiceset/PreloadChoicesOperation.java:106-131 | Corrected order (see Findings): the flag is cleared before the cell stage starts, so the operation counts as running exactly while the artworks or the batch are outstanding. |
| PreloadChoices.PreloadChoicesOperation.FinishArtworkStageAsWritten | base/src/main/java/com/smartdevicelink/managers/screen/choiceset/PreloadChoicesOperation.java:106-131 | Order as written: the cell stage runs first and the flag is cleared afterwards. When the batch is in flight this breaks the running invariant. |
| PreloadChoices.PreloadChoicesOperation.PreloadCells | base/src/main/java/com/smartdevicelink/managers/screen/choiceset/PreloadChoicesOperation.java:135-181 | Converts every cell. If none converts, the listener hears true and nothing is sent. Without a transport the listener hears false. Otherwise one request per cell is in flight, namely the set of the cells' conversions. The flag is set iff the batch is in flight. |
| PreloadChoices.PreloadChoicesOperation.OnBatchFinished | base/src/main/java/com/smartdevicelink/managers/screen/choiceset/PreloadChoicesOperation.java:159-164 | Whenever the batch is in flight, in either order of the artwork stage, the operation stops running, ends in its invariant, and the listener hears true exactly once, whatever the single requests answered. |
| PreloadChoices.TestFixture | android/sdl_android/src/androidTest/java/com/smartdevicelink/managers/screen/choiceset/PreloadChoicesOperationTests.java:65-132 | The unit tests' fixture has two cells, one with an artwork, on a head unit that shows menu names and choice images. Menu name is supported and secondary text is not. Choice image is supported and app icon is not. The artwork needs uploading, and exactly one artwork is selected. |
| PreloadChoices.RemovalDuringSendAsWritten | base/src/main/java/com/smartdevicelink/managers/screen/choiceset/PreloadChoicesOperation.java:101-110 | As written, after run() with nothing to upload the batch is in flight, the flag is already cleared, and a removal empties the cells. The batch still finishes and the listener hears `[true]`. |
| Menu.NewSubCellCommandList | base/src/main/java/com/smartdevicelink/managers/screen/menu/SubCellCommandList.java:44-90 | Every getter returns exactly the constructor's argument, null included. |

## Left out

- **Logging.** `DebugTool` and `Log` are omitted. The parameter check of a choice set returns its warnings instead of logging them. The setters and constructors that call it only log, so they do not call it in the model.
- **Concurrency.** The `synchronized` modifier on the sub-manager listener and any thread interleaving of the asynchronous callbacks are left out. Callbacks are separate methods that run one at a time.
- **Sub-manager internals.** The soft-button, text-and-graphic, voice-command, menu and choice-set managers are not part of this model. Each is reduced to its lifecycle state, a started flag and its batch flag, and, for text and graphics, its two graphics and blank artwork. What their `start`, `dispose` and `update` do beyond setting these is not modelled.
- **Screen manager pass-throughs.** The getters and setters that only delegate to the text-and-graphic, soft-button and menu managers (`BaseScreenManager.java:147-489`) are omitted, except the null-graphic defaulting.
- Screen.ScreenManager.Start: the caller's start listener and the sub-managers' own completion calls are not modelled. Their effect on the composite is `OnSubManagerComplete`.
- **TTS chunks.** `TTSChunkFactory` is not part of this model. A plain string prompt becomes a single text chunk.
- **Help-item cloning.** The hashtable clone in `VrHelpItem` is a copy of a value here. The caller's list is a Dafny value, so aliasing between it and the copy cannot arise.
- ChoiceSets.ChoiceSet.CheckChoiceSetParameters: title length is counted in characters, not UTF-16 code units as Java's `length()` counts them.
- **Selection listener and keyboard properties.** Both are carried as opaque values.
- **File manager.** The file manager is not part of this model beyond the set of artworks it reports as uploaded.
  - Its upload reports failures in an error map keyed by file name.
  - The model assumes that the artworks not named in the map are uploaded afterwards.
  - `SdlArtwork.getImageRPC` becomes `ImageOf`: the artwork's name, static or dynamic as the artwork is.
- **Transport.** `ISdl.sendRequests` becomes the `AwaitingBatch` state plus `OnBatchFinished`.
  - Per-request errors and responses only log, so they are not modelled.
  - `onUpdate` does nothing in the source and is not modelled.
- **Weak references.** The operation's file manager reference may be cleared at any time in Java. The model lets it disappear at one point only: between choosing the artworks and starting their upload (`Run`'s `fileManagerReclaimed`). The source also reads it again for every cell it converts (`PreloadChoicesOperation.java:210`); the model cannot lose it there, so a file manager reclaimed in the middle of the cell stage is not captured. The screen manager reads its file manager once, at construction.
- **The transport in the preload operation.** It is read once and is constant in the model.
- PreloadChoices.PreloadChoicesOperation.ArtworksToUpload: the order of the list is not stated, only its elements and their count. The cells live in a `HashSet`, whose iteration order Java does not fix.
- PreloadChoices.PreloadChoicesOperation.PreloadCells: the order of the requests in the batch is not stated, for the same reason. Their number and the set of them are stated.
- **Aliasing of the cell set.** The operation mutates the caller's `HashSet` of cells in place. In the model the set is a value owned by the operation, so this aliasing is not captured.
- **A second `run()`.** Running the same operation twice is excluded by `Run`'s precondition (`pending == Idle`).
- **A null completion listener.** The listener itself is not modelled: what it hears is recorded in the ghost `completions`. The unit tests build the operation with a null listener (`PreloadChoicesOperationTests.java:85`), on which the source would throw when the cell stage completes; the model does not capture that throw.
- PreloadChoices.PreloadChoicesOperation.constructor: `isVROptional` arrives as a boxed `Boolean` and is unboxed into a `boolean` field (`PreloadChoicesOperation.java:76, 80`), so a null argument throws. The model's flag is a plain `bool` and does not capture that throw.
- PreloadChoices.PreloadChoicesOperation.Run: states the corrected order of the artwork stage (flag cleared before the cell stage), not the order as written. The order as written is `PreloadChoices.PreloadChoicesOperation.RunAsWritten`, via `FinishArtworkStageAsWritten`; see Findings.
- PreloadChoices.PreloadChoicesOperation.OnArtworksUploaded: states the corrected order as well. The order as written is `PreloadChoices.PreloadChoicesOperation.OnArtworksUploadedAsWritten`; see Findings.
- **Static icons in the file manager.** Whether `FileManager.hasUploadedFile` reports built-in icons as uploaded is not part of this model; the model reports exactly the artworks it has been told are uploaded.
- **Other null inputs.** Three null inputs the source throws on are non-null in the model: a null element of the help list (`helpItems.get(i)` at `ChoiceSet.java:376`), a null cell set given to the preload operation (stored at `PreloadChoicesOperation.java:81`, iterated later) and a null set passed to `removeChoicesFromUpload` (`PreloadChoicesOperation.java:98`). A null cell text does not throw: `choiceFromCell` then skips the cell (`PreloadChoicesOperation.java:192-196`); the model's cell text is never null, so that case is not captured.
- **Null field names.** A declared text or image field whose name is null would throw in the source's lookups. Field names are never null in the model.
- **Integer width.** Choice ids are unbounded integers. Java's 32-bit `int` rendering agrees on every id that fits.
- **Menu diff.** `RunScore` and `MenuCell` are not part of this model beyond placeholders. The menu diff that builds `SubCellCommandList` values is not modelled.
- Menu.NewSubCellCommandList: the Java class defines no `equals`, so two lists built from the same arguments are different objects. The model's record is a value, and equality by value is not a property of the source.

## Findings

| source | as written | input that shows it | evidently intended | confidence | as-written member | corrected member |
|---|---|---|---|---|---|---|
| base/src/main/java/com/smartdevicelink/managers/screen/choiceset/PreloadChoicesOperation.java:106-131 | Every path of the artwork stage calls its listener first and clears `isRunning` afterwards. The listener runs `preloadCells`, which sets `isRunning` and hands the batch to the transport. So the flag is false while the batch is still being sent, and `removeChoicesFromUpload` is not blocked. | One cell on a head unit that shows menu names, nothing to upload, and a transport present. After `run()` the batch is in flight, `isRunning` is false, and removing the cell empties `cellsToUpload`. | The flag stays set until the batch finishes (`onFinished`), for example by clearing it before calling the listener. | medium; not executed | PreloadChoices.PreloadChoicesOperation.FinishArtworkStageAsWritten, PreloadChoices.PreloadChoicesOperation.RunAsWritten, PreloadChoices.PreloadChoicesOperation.OnArtworksUploadedAsWritten, PreloadChoices.RemovalDuringSendAsWritten | PreloadChoices.PreloadChoicesOperation.FinishArtworkStage |
