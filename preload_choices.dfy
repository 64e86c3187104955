/**
 * The choice preload operation: it uploads the artworks of a set of choice cells that the head
 * unit can show and has not got yet, then converts every cell into a CreateInteractionChoiceSet
 * request and sends them as one batch.
 *
 * The two stages are asynchronous. The class below keeps, in `pending`, which continuation is
 * outstanding; the transport and file manager answer by calling OnArtworksUploaded and
 * OnBatchFinished.
 */
module PreloadChoices {
  import opened Common

  datatype TextFieldName = MenuName | SecondaryText | TertiaryText | OtherTextField(id: nat)
  datatype ImageFieldName = ChoiceImage | ChoiceSecondaryImage | AppIcon | OtherImageField(id: nat)
  datatype TextField = TextField(name: TextFieldName)
  datatype ImageField = ImageField(name: ImageFieldName)

  /** What the head unit declared it can display; every part may be null. */
  datatype DisplayCapabilities = DisplayCapabilities(
    graphicSupported: Option<bool>,
    textFields: Option<seq<TextField>>,
    imageFields: Option<seq<ImageField>>)

  /** One selectable entry of a CreateInteractionChoiceSet request. */
  datatype Choice = Choice(
    choiceId: int,
    menuName: string,
    vrCommands: Option<seq<string>>,
    secondaryText: Option<string>,
    tertiaryText: Option<string>,
    ignoreAddingVrItems: bool,
    image: Option<Image>,
    secondaryImage: Option<Image>)

  datatype CreateInteractionChoiceSet = CreateInteractionChoiceSet(interactionChoiceSetId: int, choiceSet: seq<Choice>)

  /** The connection to the head unit, through which the batch is sent. */
  datatype InternalInterface = InternalInterface

  // ---------------------------------------------------------------------------------------------
  // Decimal rendering of a choice id (Java's String.valueOf(int)), used as the default voice command

  function DigitChar(d: nat): (c: char)
    requires d < 10
    ensures '0' <= c <= '9'
  {
    (('0' as int) + d) as char
  }

  function DigitValue(c: char): nat {
    if '0' <= c <= '9' then (c as int) - ('0' as int) else 0
  }

  /** The decimal digits of `n`, most significant first, without leading zeros. */
  function NatToDecimal(n: nat): (s: string)
    ensures 1 <= |s|
    ensures forall i :: 0 <= i < |s| ==> '0' <= s[i] <= '9'
    ensures n > 0 ==> s[0] != '0'
  {
    if n < 10 then [DigitChar(n)] else NatToDecimal(n / 10) + [DigitChar(n % 10)]
  }

  function IntToDecimal(n: int): (s: string)
    ensures 1 <= |s|
    ensures s[0] == '-' <==> n < 0
  {
    if n < 0 then "-" + NatToDecimal(-n) else NatToDecimal(n)
  }

  function DecimalToNat(s: string): nat {
    if s == [] then 0 else DecimalToNat(s[..|s| - 1]) * 10 + DigitValue(s[|s| - 1])
  }

  function DecimalToInt(s: string): int {
    if |s| > 0 && s[0] == '-' then 0 - DecimalToNat(s[1..]) else DecimalToNat(s)
  }

  lemma {:induction false} NatToDecimalRoundTrip(n: nat)
    ensures DecimalToNat(NatToDecimal(n)) == n
  {
    if n >= 10 {
      var s := NatToDecimal(n);
      assert s[..|s| - 1] == NatToDecimal(n / 10);
      NatToDecimalRoundTrip(n / 10);
    }
  }

  lemma IntToDecimalRoundTrip(n: int)
    ensures DecimalToInt(IntToDecimal(n)) == n
  {
    if n < 0 {
      assert IntToDecimal(n)[1..] == NatToDecimal(-n);
      NatToDecimalRoundTrip(-n);
    } else {
      NatToDecimalRoundTrip(n);
    }
  }

  /** Distinct choice ids give distinct default voice commands. */
  lemma DefaultVrCommandsDistinct(a: int, b: int)
    requires a != b
    ensures IntToDecimal(a) != IntToDecimal(b)
  {
    IntToDecimalRoundTrip(a);
    IntToDecimalRoundTrip(b);
  }

  // ---------------------------------------------------------------------------------------------
  // What the capabilities, the file manager and the conversion of a cell mean

  predicate HasTextField(caps: Option<DisplayCapabilities>, name: TextFieldName) {
    && caps.Some?
    && caps.value.textFields.Some?
    && exists i :: 0 <= i < |caps.value.textFields.value| && caps.value.textFields.value[i].name == name
  }

  predicate HasImageField(caps: Option<DisplayCapabilities>, name: ImageFieldName) {
    && caps.Some?
    && caps.value.graphicSupported == Some(true)
    && caps.value.imageFields.Some?
    && exists i :: 0 <= i < |caps.value.imageFields.value| && caps.value.imageFields.value[i].name == name
  }

  /** An artwork needs uploading when there is a file manager that has not got it and it is not a built-in icon. */
  predicate ArtworkNeedsUpload(fileManager: Option<FileManager>, artwork: Option<Artwork>) {
    if fileManager.Some? then
      artwork.Some? && !fileManager.value.HasUploadedFile(artwork.value) && !artwork.value.isStaticIcon
    else
      false
  }

  predicate PrimaryUpload(caps: Option<DisplayCapabilities>, fileManager: Option<FileManager>, cell: ChoiceCell) {
    HasImageField(caps, ChoiceImage) && ArtworkNeedsUpload(fileManager, cell.artwork)
  }

  predicate SecondaryUpload(caps: Option<DisplayCapabilities>, fileManager: Option<FileManager>, cell: ChoiceCell) {
    HasImageField(caps, ChoiceSecondaryImage) && ArtworkNeedsUpload(fileManager, cell.secondaryArtwork)
  }

  /** The cells whose primary, respectively secondary, artwork is to be uploaded. */
  function PrimaryUploads(caps: Option<DisplayCapabilities>, fileManager: Option<FileManager>, cells: set<ChoiceCell>): set<ChoiceCell> {
    set c | c in cells && PrimaryUpload(caps, fileManager, c)
  }

  function SecondaryUploads(caps: Option<DisplayCapabilities>, fileManager: Option<FileManager>, cells: set<ChoiceCell>): set<ChoiceCell> {
    set c | c in cells && SecondaryUpload(caps, fileManager, c)
  }

  /** How many artworks the cells ask to upload, counting each cell's primary and secondary slot. */
  function UploadCount(caps: Option<DisplayCapabilities>, fileManager: Option<FileManager>, cells: set<ChoiceCell>): nat {
    |PrimaryUploads(caps, fileManager, cells)| + |SecondaryUploads(caps, fileManager, cells)|
  }

  /** `artwork` is one that some cell asks to upload. */
  predicate ArtworkSelected(caps: Option<DisplayCapabilities>, fileManager: Option<FileManager>, cells: set<ChoiceCell>, artwork: Artwork) {
    exists c :: c in cells &&
      ((PrimaryUpload(caps, fileManager, c) && c.artwork == Some(artwork)) ||
       (SecondaryUpload(caps, fileManager, c) && c.secondaryArtwork == Some(artwork)))
  }

  /** No upload is counted exactly when no artwork is selected. */
  lemma UploadCountZeroIffNothingSelected(caps: Option<DisplayCapabilities>, fileManager: Option<FileManager>, cells: set<ChoiceCell>)
    ensures UploadCount(caps, fileManager, cells) == 0 <==> forall a :: !ArtworkSelected(caps, fileManager, cells, a)
  {
    if UploadCount(caps, fileManager, cells) > 0 {
      if |PrimaryUploads(caps, fileManager, cells)| > 0 {
        var c :| c in PrimaryUploads(caps, fileManager, cells);
        assert ArtworkSelected(caps, fileManager, cells, c.artwork.value);
      } else {
        var c :| c in SecondaryUploads(caps, fileManager, cells);
        assert ArtworkSelected(caps, fileManager, cells, c.secondaryArtwork.value);
      }
    } else {
      assert PrimaryUploads(caps, fileManager, cells) == {} && SecondaryUploads(caps, fileManager, cells) == {};
      forall a, c | c in cells
        ensures !((PrimaryUpload(caps, fileManager, c) && c.artwork == Some(a)) ||
                  (SecondaryUpload(caps, fileManager, c) && c.secondaryArtwork == Some(a)))
      {
        assert c !in PrimaryUploads(caps, fileManager, cells) && c !in SecondaryUploads(caps, fileManager, cells);
      }
    }
  }

  /** The voice commands of a cell's choice: its own, else none when voice is optional, else its id. */
  function VrCommandsOf(cell: ChoiceCell, isVrOptional: bool): Option<seq<string>> {
    if cell.voiceCommands.None? then
      (if isVrOptional then None else Some([IntToDecimal(cell.choiceId)]))
    else
      cell.voiceCommands
  }

  /** The request a cell becomes (choiceFromCell); None when the head unit shows no menu name. */
  function ChoiceOf(caps: Option<DisplayCapabilities>, fileManager: Option<FileManager>, isVrOptional: bool, cell: ChoiceCell)
    : (r: Option<CreateInteractionChoiceSet>)
    ensures r.None? <==> !HasTextField(caps, MenuName)
    ensures r.Some? ==> r.value.interactionChoiceSetId == cell.choiceId && |r.value.choiceSet| == 1
    ensures r.Some? ==>
      var c := r.value.choiceSet[0];
      && c.choiceId == cell.choiceId
      && c.menuName == cell.text
      && c.ignoreAddingVrItems
      && (cell.voiceCommands.Some? ==> c.vrCommands == cell.voiceCommands)
      && (cell.voiceCommands.None? && isVrOptional ==> c.vrCommands.None?)
      && (cell.voiceCommands.None? && !isVrOptional ==> c.vrCommands == Some([IntToDecimal(cell.choiceId)]))
      && c.secondaryText == (if HasTextField(caps, SecondaryText) then cell.secondaryText else None)
      && c.tertiaryText == (if HasTextField(caps, TertiaryText) then cell.tertiaryText else None)
      && (c.image.Some? <==>
            HasImageField(caps, ChoiceImage) && cell.artwork.Some? && fileManager.Some? && cell.artwork.value in fileManager.value.uploaded)
      && (c.image.Some? ==> c.image.value == ImageOf(cell.artwork.value))
      && (c.secondaryImage.Some? <==>
            HasImageField(caps, ChoiceSecondaryImage) && cell.secondaryArtwork.Some? && fileManager.Some? &&
            cell.secondaryArtwork.value in fileManager.value.uploaded)
      && (c.secondaryImage.Some? ==> c.secondaryImage.value == ImageOf(cell.secondaryArtwork.value))
  {
    var vrCommands := VrCommandsOf(cell, isVrOptional);
    var menuName: Option<string> := if HasTextField(caps, MenuName) then Some(cell.text) else None;
    if menuName.None? then None
    else
      var secondaryText := if HasTextField(caps, SecondaryText) then cell.secondaryText else None;
      var tertiaryText := if HasTextField(caps, TertiaryText) then cell.tertiaryText else None;
      var image: Option<Image> :=
        if HasImageField(caps, ChoiceImage) && cell.artwork.Some? then Some(ImageOf(cell.artwork.value)) else None;
      var secondaryImage: Option<Image> :=
        if HasImageField(caps, ChoiceSecondaryImage) && cell.secondaryArtwork.Some? then Some(ImageOf(cell.secondaryArtwork.value)) else None;
      var attachImage := fileManager.Some? && image.Some? && fileManager.value.HasUploadedFile(cell.artwork.value);
      var attachSecondaryImage :=
        fileManager.Some? && secondaryImage.Some? && fileManager.value.HasUploadedFile(cell.secondaryArtwork.value);
      var choice := Choice(cell.choiceId, menuName.value, vrCommands, secondaryText, tertiaryText, true,
                           if attachImage then image else None,
                           if attachSecondaryImage then secondaryImage else None);
      Some(CreateInteractionChoiceSet(choice.choiceId, [choice]))
  }

  /** The requests the cells convert to, as a set. */
  function RequestsFor(caps: Option<DisplayCapabilities>, fileManager: Option<FileManager>, isVrOptional: bool, cells: set<ChoiceCell>)
    : set<CreateInteractionChoiceSet>
  {
    set c | c in cells && ChoiceOf(caps, fileManager, isVrOptional, c).Some? :: ChoiceOf(caps, fileManager, isVrOptional, c).value
  }

  /** The file manager after an upload: every artwork the error map does not name is now uploaded. */
  function AfterUpload(fileManager: FileManager, artworks: seq<Artwork>, errors: Option<map<string, string>>): (r: FileManager)
    ensures fileManager.uploaded <= r.uploaded
    ensures errors.None? || |errors.value| == 0 ==> forall a :: a in artworks ==> a in r.uploaded
  {
    FileManager(fileManager.uploaded + set a | a in artworks && (errors.None? || a.name !in errors.value))
  }

  /**
   * After an artwork stage in which nothing failed, every cell whose primary artwork is shown by
   * the head unit and is not a built-in icon gets its image attached.
   */
  lemma UploadedArtworksAreAttached(caps: Option<DisplayCapabilities>, fileManager: FileManager, isVrOptional: bool,
                                    cells: set<ChoiceCell>, artworks: seq<Artwork>, errors: Option<map<string, string>>,
                                    cell: ChoiceCell)
    requires forall a :: ArtworkSelected(caps, Some(fileManager), cells, a) ==> a in artworks
    requires errors.None? || |errors.value| == 0
    requires cell in cells && HasTextField(caps, MenuName) && HasImageField(caps, ChoiceImage)
    requires cell.artwork.Some? && !cell.artwork.value.isStaticIcon
    ensures var r := ChoiceOf(caps, Some(AfterUpload(fileManager, artworks, errors)), isVrOptional, cell);
            r.Some? && r.value.choiceSet[0].image == Some(ImageOf(cell.artwork.value))
  {
    var a := cell.artwork.value;
    if a !in fileManager.uploaded {
      assert PrimaryUpload(caps, Some(fileManager), cell);
      assert ArtworkSelected(caps, Some(fileManager), cells, a);
    }
  }

  /** An artwork that an upload delivered without error no longer needs uploading. */
  lemma UploadResolvesNeed(fileManager: FileManager, artworks: seq<Artwork>, errors: Option<map<string, string>>,
                           artwork: Artwork)
    requires artwork in artworks && (errors.None? || artwork.name !in errors.value)
    ensures !ArtworkNeedsUpload(Some(AfterUpload(fileManager, artworks, errors)), Some(artwork))
  {
  }

  /**
   * After an artwork stage in which nothing failed, choosing the artworks again over the same
   * cells finds nothing to upload: the stage selects exactly what the next run would not.
   */
  lemma SecondArtworkStageUploadsNothing(caps: Option<DisplayCapabilities>, fileManager: FileManager,
                                         cells: set<ChoiceCell>, artworks: seq<Artwork>,
                                         errors: Option<map<string, string>>)
    requires forall a :: ArtworkSelected(caps, Some(fileManager), cells, a) ==> a in artworks
    requires errors.None? || |errors.value| == 0
    ensures UploadCount(caps, Some(AfterUpload(fileManager, artworks, errors)), cells) == 0
  {
    var after := Some(AfterUpload(fileManager, artworks, errors));
    forall c | c in cells
      ensures !PrimaryUpload(caps, after, c) && !SecondaryUpload(caps, after, c)
    {
      if PrimaryUpload(caps, Some(fileManager), c) {
        assert ArtworkSelected(caps, Some(fileManager), cells, c.artwork.value);
      }
      if SecondaryUpload(caps, Some(fileManager), c) {
        assert ArtworkSelected(caps, Some(fileManager), cells, c.secondaryArtwork.value);
      }
    }
    assert PrimaryUploads(caps, after, cells) == {} && SecondaryUploads(caps, after, cells) == {};
  }

  /**
   * A built-in icon is never uploaded by the artwork stage, so a cell's built-in primary icon is
   * attached only when the file manager already reported it as uploaded.
   */
  lemma StaticIconAttachedOnlyWhenReported(caps: Option<DisplayCapabilities>, fileManager: FileManager, isVrOptional: bool,
                                           cells: set<ChoiceCell>, artworks: seq<Artwork>,
                                           errors: Option<map<string, string>>, cell: ChoiceCell)
    requires forall a :: a in artworks ==> ArtworkSelected(caps, Some(fileManager), cells, a)
    requires cell.artwork.Some? && cell.artwork.value.isStaticIcon
    ensures var r := ChoiceOf(caps, Some(AfterUpload(fileManager, artworks, errors)), isVrOptional, cell);
            r.Some? && r.value.choiceSet[0].image.Some? ==> cell.artwork.value in fileManager.uploaded
  {
  }

  // ---------------------------------------------------------------------------------------------
  // The operation

  /** Which asynchronous continuation the operation is waiting for. */
  datatype Pending =
    | Idle
    | AwaitingArtworks(artworks: seq<Artwork>)
    | AwaitingBatch(requests: seq<CreateInteractionChoiceSet>)
    | Finished

  class PreloadChoicesOperation {
    const internalInterface: Option<InternalInterface>
    /** The file manager as the operation sees it; uploading artworks adds to it. */
    var fileManager: Option<FileManager>
    const displayCapabilities: Option<DisplayCapabilities>
    const isVrOptional: bool
    var cellsToUpload: set<ChoiceCell>
    var isRunning: bool
    var pending: Pending
    /** What the artwork stage reported to its listener (which ignores it). */
    ghost var artworkStageResult: Option<bool>
    /** What the completion listener has been told. */
    ghost var completions: seq<bool>

    /** The flag is set exactly while a stage is outstanding, and the listener hears once, at the end. */
    ghost predicate Valid()
      reads this
    {
      && (isRunning <==> pending.AwaitingArtworks? || pending.AwaitingBatch?)
      && (pending.AwaitingArtworks? ==> fileManager.Some? && |pending.artworks| > 0)
      && (pending.Idle? || pending.AwaitingArtworks? <==> artworkStageResult.None?)
      && (pending.Finished? <==> |completions| == 1)
      && |completions| <= 1
    }

    /** The requests the current cells convert to. */
    ghost function Requests(): set<CreateInteractionChoiceSet>
      reads this`fileManager, this`cellsToUpload
    {
      RequestsFor(displayCapabilities, fileManager, isVrOptional, cellsToUpload)
    }

    constructor (internalInterface: Option<InternalInterface>, fileManager: Option<FileManager>,
                 displayCapabilities: Option<DisplayCapabilities>, isVrOptional: bool, cellsToPreload: set<ChoiceCell>)
      ensures Valid() && pending == Idle && !isRunning
      ensures this.internalInterface == internalInterface && this.fileManager == fileManager
      ensures this.displayCapabilities == displayCapabilities && this.isVrOptional == isVrOptional
      ensures cellsToUpload == cellsToPreload
    {
      this.internalInterface := internalInterface;
      this.fileManager := fileManager;
      this.displayCapabilities := displayCapabilities;
      this.isVrOptional := isVrOptional;
      cellsToUpload := cellsToPreload;
      isRunning := false;
      pending := Idle;
      artworkStageResult := None;
      completions := [];
    }

    /** Whether the head unit declares a text field of this name (false without capabilities). */
    method HasTextFieldOfName(name: TextFieldName) returns (found: bool)
      ensures found == HasTextField(displayCapabilities, name)
    {
      if displayCapabilities.None? {
        return false;
      }
      var fields := displayCapabilities.value.textFields;
      if fields.Some? {
        var i := 0;
        while i < |fields.value|
          invariant 0 <= i <= |fields.value|
          invariant forall k :: 0 <= k < i ==> fields.value[k].name != name
        {
          if fields.value[i].name == name {
            return true;
          }
          i := i + 1;
        }
      }
      return false;
    }

    /** Whether graphics are supported and an image field of this name is declared. */
    method HasImageFieldOfName(name: ImageFieldName) returns (found: bool)
      ensures found == HasImageField(displayCapabilities, name)
    {
      if displayCapabilities.None? {
        return false;
      }
      if displayCapabilities.value.graphicSupported.None? || !displayCapabilities.value.graphicSupported.value {
        return false;
      }
      var fields := displayCapabilities.value.imageFields;
      if fields.Some? {
        var i := 0;
        while i < |fields.value|
          invariant 0 <= i <= |fields.value|
          invariant forall k :: 0 <= k < i ==> fields.value[k].name != name
        {
          if fields.value[i].name == name {
            return true;
          }
          i := i + 1;
        }
      }
      return false;
    }

    /**
     * The artworks to upload: for every cell, its primary artwork when the head unit shows choice
     * images and it needs uploading, and likewise its secondary artwork.
     */
    method ArtworksToUpload() returns (artworks: seq<Artwork>)
      ensures forall a :: a in artworks <==> ArtworkSelected(displayCapabilities, fileManager, cellsToUpload, a)
      ensures |artworks| == UploadCount(displayCapabilities, fileManager, cellsToUpload)
      ensures |artworks| <= 2 * |cellsToUpload|
      ensures fileManager.None? ==> artworks == []
    {
      artworks := [];
      var remaining := cellsToUpload;
      ghost var done: set<ChoiceCell> := {};
      while remaining != {}
        invariant done + remaining == cellsToUpload && done !! remaining
        invariant forall a :: a in artworks <==> ArtworkSelected(displayCapabilities, fileManager, done, a)
        invariant |artworks| == |PrimaryUploads(displayCapabilities, fileManager, done)| +
                                |SecondaryUploads(displayCapabilities, fileManager, done)|
        invariant |PrimaryUploads(displayCapabilities, fileManager, done)| <= |done|
        invariant |SecondaryUploads(displayCapabilities, fileManager, done)| <= |done|
        invariant fileManager.None? ==> artworks == []
        decreases remaining
      {
        var cell :| cell in remaining;
        ghost var before := artworks;
        var primary := HasImageFieldOfName(ChoiceImage);
        var secondary := HasImageFieldOfName(ChoiceSecondaryImage);
        artworks := artworks +
          (if primary && ArtworkNeedsUpload(fileManager, cell.artwork) then [cell.artwork.value] else []) +
          (if secondary && ArtworkNeedsUpload(fileManager, cell.secondaryArtwork) then [cell.secondaryArtwork.value] else []);
        UploadStep(displayCapabilities, fileManager, done, cell, before, artworks);
        remaining := remaining - {cell};
        done := done + {cell};
      }
    }

    /** Leaves the cells alone while the operation runs; otherwise removes exactly the given ones. */
    method RemoveChoicesFromUpload(choices: set<ChoiceCell>)
      modifies this`cellsToUpload
      ensures isRunning ==> cellsToUpload == old(cellsToUpload)
      ensures !isRunning ==> cellsToUpload == old(cellsToUpload) - choices
    {
      if isRunning {
        return;
      }
      cellsToUpload := cellsToUpload - choices;
    }

    /**
     * The first stage: choose the artworks; with none, go straight on; otherwise hand them to the
     * file manager and wait for OnArtworksUploaded. The file manager is held weakly, so it may be
     * gone by the time the upload starts (`fileManagerReclaimed`); the stage then fails.
     */
    method Run(fileManagerReclaimed: bool)
      requires Valid() && pending == Idle
      modifies this`fileManager, this`isRunning, this`pending, this`artworkStageResult, this`completions
      ensures Valid()
      ensures UploadCount(displayCapabilities, old(fileManager), cellsToUpload) == 0 ==>
                fileManager == old(fileManager) && artworkStageResult == Some(true) && CellStageDone(old(completions))
      ensures UploadCount(displayCapabilities, old(fileManager), cellsToUpload) > 0 && fileManagerReclaimed ==>
                fileManager.None? && artworkStageResult == Some(false) && CellStageDone(old(completions))
      ensures UploadCount(displayCapabilities, old(fileManager), cellsToUpload) > 0 && !fileManagerReclaimed ==>
                fileManager == old(fileManager) && pending.AwaitingArtworks? && isRunning &&
                forall a :: a in pending.artworks <==> ArtworkSelected(displayCapabilities, fileManager, cellsToUpload, a)
    {
      isRunning := true;
      var artworks := ArtworksToUpload();
      if |artworks| == 0 {
        FinishArtworkStage(true);
        return;
      }
      if fileManagerReclaimed {
        fileManager := None;
      }
      if fileManager.None? {
        FinishArtworkStage(false);
        return;
      }
      pending := AwaitingArtworks(artworks);
    }

    /**
     * `Run` with the artwork stage ordered as the source orders it: each path that finishes the
     * stage at once leaves the flag cleared, also when the batch of cells is in flight.
     */
    method RunAsWritten(fileManagerReclaimed: bool)
      requires Valid() && pending == Idle
      modifies this`fileManager, this`isRunning, this`pending, this`artworkStageResult, this`completions
      ensures UploadCount(displayCapabilities, old(fileManager), cellsToUpload) == 0 ==>
                fileManager == old(fileManager) && artworkStageResult == Some(true) && !isRunning &&
                CellStageDone(old(completions))
      ensures UploadCount(displayCapabilities, old(fileManager), cellsToUpload) > 0 && fileManagerReclaimed ==>
                fileManager.None? && artworkStageResult == Some(false) && !isRunning && CellStageDone(old(completions))
      ensures UploadCount(displayCapabilities, old(fileManager), cellsToUpload) > 0 && !fileManagerReclaimed ==>
                Valid() && fileManager == old(fileManager) && pending.AwaitingArtworks? && isRunning &&
                forall a :: a in pending.artworks <==> ArtworkSelected(displayCapabilities, fileManager, cellsToUpload, a)
    {
      isRunning := true;
      var artworks := ArtworksToUpload();
      if |artworks| == 0 {
        FinishArtworkStageAsWritten(true);
        return;
      }
      if fileManagerReclaimed {
        fileManager := None;
      }
      if fileManager.None? {
        FinishArtworkStageAsWritten(false);
        return;
      }
      pending := AwaitingArtworks(artworks);
    }

    /**
     * The file manager answered with its error map: the stage failed if the map is non-empty;
     * either way the operation goes on to the cells.
     */
    method OnArtworksUploaded(errors: Option<map<string, string>>)
      requires Valid() && pending.AwaitingArtworks?
      modifies this`fileManager, this`isRunning, this`pending, this`artworkStageResult, this`completions
      ensures Valid()
      ensures fileManager == Some(AfterUpload(old(fileManager).value, old(pending).artworks, errors))
      ensures artworkStageResult == Some(errors.None? || |errors.value| == 0)
      ensures CellStageDone(old(completions))
    {
      var artworks := pending.artworks;
      fileManager := Some(AfterUpload(fileManager.value, artworks, errors));
      if errors.Some? && |errors.value| > 0 {
        FinishArtworkStage(false);
      } else {
        FinishArtworkStage(true);
      }
    }

    /** `OnArtworksUploaded` with the artwork stage ordered as the source orders it: the flag ends cleared. */
    method OnArtworksUploadedAsWritten(errors: Option<map<string, string>>)
      requires Valid() && pending.AwaitingArtworks?
      modifies this`fileManager, this`isRunning, this`pending, this`artworkStageResult, this`completions
      ensures fileManager == Some(AfterUpload(old(fileManager).value, old(pending).artworks, errors))
      ensures artworkStageResult == Some(errors.None? || |errors.value| == 0) && !isRunning
      ensures CellStageDone(old(completions))
      ensures pending.AwaitingBatch? ==> !Valid()
    {
      var artworks := pending.artworks;
      fileManager := Some(AfterUpload(fileManager.value, artworks, errors));
      if errors.Some? && |errors.value| > 0 {
        FinishArtworkStageAsWritten(false);
      } else {
        FinishArtworkStageAsWritten(true);
      }
    }

    /** The outcome of the cell stage, as a function of the state it ran in. */
    ghost predicate CellStageDone(completionsBefore: seq<bool>)
      reads this
    {
      && (Requests() == {} ==> pending == Finished && completions == completionsBefore + [true])
      && (Requests() != {} && internalInterface.None? ==> pending == Finished && completions == completionsBefore + [false])
      && (Requests() != {} && internalInterface.Some? ==>
            pending.AwaitingBatch? && completions == completionsBefore &&
            (forall r :: r in pending.requests <==> r in Requests()) &&
            |pending.requests| == |cellsToUpload|)
    }

    /** The artwork stage reports to its listener, which starts the cell stage; the flag is cleared first. */
    method FinishArtworkStage(success: bool)
      requires isRunning && (pending.Idle? || pending.AwaitingArtworks?) && completions == []
      modifies this`isRunning, this`pending, this`artworkStageResult, this`completions
      ensures Valid() && artworkStageResult == Some(success)
      ensures CellStageDone(old(completions))
    {
      artworkStageResult := Some(success);
      isRunning := false;
      PreloadCells();
    }

    /**
     * The artwork stage as the source orders it: the listener runs the whole cell stage first,
     * and only then is the flag cleared, also when the batch is still being sent.
     */
    method FinishArtworkStageAsWritten(success: bool)
      requires isRunning && (pending.Idle? || pending.AwaitingArtworks?) && completions == []
      modifies this`isRunning, this`pending, this`artworkStageResult, this`completions
      ensures !isRunning && artworkStageResult == Some(success)
      ensures CellStageDone(old(completions))
      ensures pending.AwaitingBatch? ==> !Valid()
    {
      artworkStageResult := Some(success);
      PreloadCells();
      isRunning := false;
    }

    /** The second stage: convert every cell, then finish at once or send the batch. */
    method PreloadCells()
      requires !pending.AwaitingBatch? && !pending.Finished? && completions == []
      modifies this`isRunning, this`pending, this`completions
      ensures CellStageDone(old(completions))
      ensures isRunning <==> pending.AwaitingBatch?
    {
      isRunning := true;
      var requests: seq<CreateInteractionChoiceSet> := [];
      var remaining := cellsToUpload;
      ghost var done: set<ChoiceCell> := {};
      while remaining != {}
        invariant done + remaining == cellsToUpload && done !! remaining
        invariant forall r :: r in requests <==> r in RequestsFor(displayCapabilities, fileManager, isVrOptional, done)
        invariant |requests| == if HasTextField(displayCapabilities, MenuName) then |done| else 0
        invariant isRunning && pending == old(pending) && completions == old(completions)
        decreases remaining
      {
        var cell :| cell in remaining;
        var request := ChoiceOf(displayCapabilities, fileManager, isVrOptional, cell);
        if request.Some? {
          requests := requests + [request.value];
        }
        RequestsGrow(displayCapabilities, fileManager, isVrOptional, done, cell);
        remaining := remaining - {cell};
        done := done + {cell};
      }
      if |requests| == 0 {
        assert Requests() == {} by {
          assert forall r :: r in Requests() ==> r in requests;
        }
        completions := completions + [true];
        isRunning := false;
        pending := Finished;
        return;
      }
      assert requests[0] in Requests();
      if internalInterface.None? {
        isRunning := false;
        completions := completions + [false];
        pending := Finished;
        return;
      }
      pending := AwaitingBatch(requests);
    }

    /**
     * The transport finished the batch: the listener hears success, whatever the single requests
     * answered. It needs only that the batch is in flight, so it ends the run in either order of
     * the artwork stage.
     */
    method OnBatchFinished()
      requires pending.AwaitingBatch? && completions == [] && artworkStageResult.Some?
      modifies this`isRunning, this`pending, this`completions
      ensures Valid() && !isRunning && pending == Finished
      ensures completions == [true]
    {
      isRunning := false;
      completions := completions + [true];
      pending := Finished;
    }
  }

  /** One cell's contribution keeps the artworks chosen so far equal to those the cells seen so far select. */
  lemma UploadStep(caps: Option<DisplayCapabilities>, fileManager: Option<FileManager>, done: set<ChoiceCell>, cell: ChoiceCell,
                   before: seq<Artwork>, after: seq<Artwork>)
    requires cell !in done
    requires forall a :: a in before <==> ArtworkSelected(caps, fileManager, done, a)
    requires |before| == |PrimaryUploads(caps, fileManager, done)| + |SecondaryUploads(caps, fileManager, done)|
    requires |PrimaryUploads(caps, fileManager, done)| <= |done| && |SecondaryUploads(caps, fileManager, done)| <= |done|
    requires fileManager.None? ==> before == []
    requires after == before +
               (if PrimaryUpload(caps, fileManager, cell) then [cell.artwork.value] else []) +
               (if SecondaryUpload(caps, fileManager, cell) then [cell.secondaryArtwork.value] else [])
    ensures forall a :: a in after <==> ArtworkSelected(caps, fileManager, done + {cell}, a)
    ensures |after| == |PrimaryUploads(caps, fileManager, done + {cell})| + |SecondaryUploads(caps, fileManager, done + {cell})|
    ensures |PrimaryUploads(caps, fileManager, done + {cell})| <= |done + {cell}|
    ensures |SecondaryUploads(caps, fileManager, done + {cell})| <= |done + {cell}|
    ensures fileManager.None? ==> after == []
  {
    UploadsGrow(caps, fileManager, done, cell);
    forall a
      ensures a in after <==> ArtworkSelected(caps, fileManager, done + {cell}, a)
    {
      SelectedGrow(caps, fileManager, done, cell, a);
    }
  }

  lemma UploadsGrow(caps: Option<DisplayCapabilities>, fileManager: Option<FileManager>, done: set<ChoiceCell>, cell: ChoiceCell)
    requires cell !in done
    ensures PrimaryUploads(caps, fileManager, done + {cell}) ==
              PrimaryUploads(caps, fileManager, done) + (if PrimaryUpload(caps, fileManager, cell) then {cell} else {})
    ensures SecondaryUploads(caps, fileManager, done + {cell}) ==
              SecondaryUploads(caps, fileManager, done) + (if SecondaryUpload(caps, fileManager, cell) then {cell} else {})
    ensures cell !in PrimaryUploads(caps, fileManager, done) && cell !in SecondaryUploads(caps, fileManager, done)
  {
  }

  lemma SelectedGrow(caps: Option<DisplayCapabilities>, fileManager: Option<FileManager>, done: set<ChoiceCell>,
                     cell: ChoiceCell, artwork: Artwork)
    ensures ArtworkSelected(caps, fileManager, done + {cell}, artwork) <==>
              ArtworkSelected(caps, fileManager, done, artwork) ||
              (PrimaryUpload(caps, fileManager, cell) && cell.artwork == Some(artwork)) ||
              (SecondaryUpload(caps, fileManager, cell) && cell.secondaryArtwork == Some(artwork))
  {
  }

  lemma RequestsGrow(caps: Option<DisplayCapabilities>, fileManager: Option<FileManager>, isVrOptional: bool,
                     done: set<ChoiceCell>, cell: ChoiceCell)
    requires cell !in done
    ensures RequestsFor(caps, fileManager, isVrOptional, done + {cell}) ==
              RequestsFor(caps, fileManager, isVrOptional, done) +
              (if ChoiceOf(caps, fileManager, isVrOptional, cell).Some? then {ChoiceOf(caps, fileManager, isVrOptional, cell).value} else {})
  {
  }

  /**
   * The fixture of the preload operation's unit tests: two cells, one with an artwork; the head
   * unit shows menu names and choice images; the file manager has uploaded nothing.
   */
  method TestFixture() returns (menuName: bool, secondaryText: bool, choiceImage: bool, appIcon: bool,
                                needsUpload: bool, uploadCount: nat)
    ensures menuName && !secondaryText
    ensures choiceImage && !appIcon
    ensures needsUpload && uploadCount == 1
  {
    var generalArtwork := Artwork("generalArtwork", false);
    var cell1 := ChoiceCell("cell 1", None, None, None, None, None, 0);
    var cell2 := ChoiceCell("cell 2", None, None, None, Some(generalArtwork), None, 0);
    var caps := DisplayCapabilities(Some(true), Some([TextField(MenuName)]), Some([ImageField(ChoiceImage)]));
    assert HasTextField(Some(caps), MenuName) by { assert caps.textFields.value[0].name == MenuName; }
    assert HasImageField(Some(caps), ChoiceImage) by { assert caps.imageFields.value[0].name == ChoiceImage; }
    var fileManager := Some(FileManager({}));
    var operation := new PreloadChoicesOperation(Some(InternalInterface), fileManager, Some(caps), true, {cell1, cell2});
    menuName := operation.HasTextFieldOfName(MenuName);
    secondaryText := operation.HasTextFieldOfName(SecondaryText);
    choiceImage := operation.HasImageFieldOfName(ChoiceImage);
    appIcon := operation.HasImageFieldOfName(AppIcon);
    needsUpload := ArtworkNeedsUpload(fileManager, Some(generalArtwork));
    var artworks := operation.ArtworksToUpload();
    assert PrimaryUploads(Some(caps), fileManager, {cell1, cell2}) == {cell2};
    assert SecondaryUploads(Some(caps), fileManager, {cell1, cell2}) == {};
    uploadCount := |artworks|;
  }

  /**
   * As the source orders the artwork stage, the flag is already cleared while the batch of cells
   * is still being sent, so a removal goes through in the middle of the send.
   */
  method RemovalDuringSendAsWritten() returns (batchInFlight: bool, running: bool, cellsLeft: nat, ghost heard: seq<bool>)
    ensures batchInFlight && !running && cellsLeft == 0
    ensures heard == [true]
  {
    var cell := ChoiceCell("cell 1", None, None, None, None, None, 1);
    var caps := DisplayCapabilities(Some(true), Some([TextField(MenuName)]), Some([]));
    assert HasTextField(Some(caps), MenuName) by { assert caps.textFields.value[0].name == MenuName; }
    var operation := new PreloadChoicesOperation(Some(InternalInterface), Some(FileManager({})), Some(caps), true, {cell});
    assert ChoiceOf(Some(caps), Some(FileManager({})), true, cell).value in RequestsFor(Some(caps), Some(FileManager({})), true, {cell});
    assert PrimaryUploads(Some(caps), Some(FileManager({})), {cell}) == {};
    assert SecondaryUploads(Some(caps), Some(FileManager({})), {cell}) == {};
    operation.RunAsWritten(false);
    batchInFlight := operation.pending.AwaitingBatch?;
    running := operation.isRunning;
    operation.RemoveChoicesFromUpload({cell});
    cellsLeft := |operation.cellsToUpload|;
    // the transport still finishes the batch, and the listener hears success
    operation.OnBatchFinished();
    heard := operation.completions;
  }
}
