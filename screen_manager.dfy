/**
 * The screen manager: it owns five sub-managers (soft buttons, text and graphics, voice
 * commands, menu, choice sets), starts and disposes them, derives its own lifecycle state from
 * theirs, and batches soft-button and text-and-graphic updates into transactions.
 *
 * A Java NullPointerException on a missing sub-manager is modelled as an `ok == false` result
 * that leaves everything after the faulting call undone.
 */
module Screen {
  import opened Common

  /** The lifecycle states of BaseSubManager. */
  datatype ManagerState = SettingUp | Ready | Limited | Error | Shutdown

  /** The state a sub-manager reference reports, or None when the reference is null. */
  function StateOf(m: SubManager?): Option<ManagerState>
    reads m
  {
    if m == null then None else Some(m.state)
  }

  function TextStateOf(m: TextAndGraphicManager?): Option<ManagerState>
    reads m
  {
    if m == null then None else Some(m.state)
  }

  predicate IsState(s: Option<ManagerState>, expected: ManagerState) {
    s == Some(expected)
  }

  /**
   * The composite state the sub-manager listener moves the screen manager to. The READY test
   * looks at four sub-managers only (the choice-set manager is not consulted); the ERROR and
   * SETTING_UP tests look at all five.
   */
  function ComposeState(
    softButton: Option<ManagerState>,
    textAndGraphic: Option<ManagerState>,
    voiceCommand: Option<ManagerState>,
    menu: Option<ManagerState>,
    choiceSet: Option<ManagerState>): (r: ManagerState)
    ensures r != Shutdown
    // a missing sub-manager is an error
    ensures (softButton.None? || textAndGraphic.None? || voiceCommand.None? || menu.None? || choiceSet.None?)
            ==> r == Error
    // READY exactly when all present and the four sub-managers other than choice sets are READY
    ensures r == Ready <==>
              (choiceSet.Some? &&
               IsState(softButton, Ready) && IsState(textAndGraphic, Ready) &&
               IsState(voiceCommand, Ready) && IsState(menu, Ready))
    // when all are present, ERROR exactly when all five are in ERROR
    ensures (softButton.Some? && textAndGraphic.Some? && voiceCommand.Some? && menu.Some? && choiceSet.Some?) ==>
              (r == Error <==>
                (IsState(softButton, Error) && IsState(textAndGraphic, Error) && IsState(voiceCommand, Error) &&
                 IsState(menu, Error) && IsState(choiceSet, Error)))
    // SETTING_UP exactly when all present, the READY test failed and one of the five is setting up
    ensures r == SettingUp <==>
              (softButton.Some? && textAndGraphic.Some? && voiceCommand.Some? && menu.Some? && choiceSet.Some? &&
               !(softButton.value == textAndGraphic.value == voiceCommand.value == menu.value == Ready) &&
               (SettingUp in {softButton.value, textAndGraphic.value, voiceCommand.value, menu.value, choiceSet.value}))
    // LIMITED in every remaining combination
    ensures r == Limited <==>
              (softButton.Some? && textAndGraphic.Some? && voiceCommand.Some? && menu.Some? && choiceSet.Some? &&
               !(softButton.value == textAndGraphic.value == voiceCommand.value == menu.value == Ready) &&
               !(softButton.value == textAndGraphic.value == voiceCommand.value == menu.value == choiceSet.value == Error) &&
               SettingUp !in {softButton.value, textAndGraphic.value, voiceCommand.value, menu.value, choiceSet.value})
  {
    match (softButton, textAndGraphic, voiceCommand, menu, choiceSet)
    case (Some(sb), Some(tg), Some(vc), Some(mn), Some(cs)) =>
      if sb == Ready && tg == Ready && vc == Ready && mn == Ready then Ready
      else if sb == Error && tg == Error && vc == Error && mn == Error && cs == Error then Error
      else if tg == SettingUp || sb == SettingUp || vc == SettingUp || mn == SettingUp || cs == SettingUp then SettingUp
      else Limited
    case _ => Error
  }

  /**
   * The rule the listener's own log messages announce, over any number of sub-managers: READY
   * when all sub-managers are in ready state, ERROR when all are in error state, SETTING_UP when
   * at least one is still setting up, otherwise LIMITED.
   */
  function UniformCompose(states: seq<ManagerState>): (r: ManagerState)
    ensures r == Ready <==> forall i :: 0 <= i < |states| ==> states[i] == Ready
  {
    if forall i :: 0 <= i < |states| ==> states[i] == Ready then Ready
    else if forall i :: 0 <= i < |states| ==> states[i] == Error then Error
    else if SettingUp in states then SettingUp
    else Limited
  }

  /**
   * With all five sub-managers present, the screen manager agrees with the rule its log messages
   * announce in every case except one: the four other sub-managers are READY and the choice-set manager is not,
   * where the screen manager still reports READY.
   */
  lemma ComposeStateVersusUniformRule(sb: ManagerState, tg: ManagerState, vc: ManagerState, mn: ManagerState, cs: ManagerState)
    ensures var quirk := sb == tg == vc == mn == Ready && cs != Ready;
            (quirk ==> ComposeState(Some(sb), Some(tg), Some(vc), Some(mn), Some(cs)) == Ready &&
                       UniformCompose([sb, tg, vc, mn, cs]) != Ready) &&
            (!quirk ==> ComposeState(Some(sb), Some(tg), Some(vc), Some(mn), Some(cs)) == UniformCompose([sb, tg, vc, mn, cs]))
  {
    var s := [sb, tg, vc, mn, cs];
    assert s[0] == sb && s[1] == tg && s[2] == vc && s[3] == mn && s[4] == cs;
    assert SettingUp in s <==> SettingUp in {sb, tg, vc, mn, cs};
  }

  /** A sub-manager whose internals are not part of this model: only its lifecycle and batch flag. */
  class SubManager {
    var state: ManagerState
    var started: bool
    var batchUpdates: bool

    constructor ()
      ensures state == SettingUp && !started && !batchUpdates
    {
      state, started, batchUpdates := SettingUp, false, false;
    }
  }

  /** The text-and-graphic sub-manager, with the two graphics the screen manager sets on it. */
  class TextAndGraphicManager {
    var state: ManagerState
    var started: bool
    var batchUpdates: bool
    var primaryGraphic: Option<Artwork>
    var secondaryGraphic: Option<Artwork>
    const blankArtwork: Artwork

    constructor (blankArtwork: Artwork)
      ensures state == SettingUp && !started && !batchUpdates
      ensures primaryGraphic.None? && secondaryGraphic.None? && this.blankArtwork == blankArtwork
    {
      state, started, batchUpdates := SettingUp, false, false;
      primaryGraphic, secondaryGraphic := None, None;
      this.blankArtwork := blankArtwork;
    }
  }

  datatype CommitStage = AwaitingSoftButton | AwaitingTextAndGraphic | Delivered

  /**
   * The completion listener `commit` hands to the soft-button manager, with the captured
   * `updateSuccessful` flag; its second stage is the listener it hands to the text-and-graphic
   * manager. `delivered` records what the caller's listener received.
   */
  class CommitCallback {
    const textAndGraphic: TextAndGraphicManager
    const hasListener: bool
    var updateSuccessful: bool
    var stage: CommitStage
    ghost var softButtonSucceeded: bool
    ghost var delivered: seq<bool>

    ghost predicate Valid()
      reads this
    {
      && (stage == AwaitingSoftButton ==> updateSuccessful && delivered == [])
      && (stage == AwaitingTextAndGraphic ==> updateSuccessful == softButtonSucceeded && delivered == [])
      && (stage == Delivered ==> delivered == if hasListener then [updateSuccessful] else [])
    }

    constructor (textAndGraphic: TextAndGraphicManager, hasListener: bool)
      ensures Valid() && stage == AwaitingSoftButton && delivered == []
      ensures this.textAndGraphic == textAndGraphic && this.hasListener == hasListener
    {
      this.textAndGraphic := textAndGraphic;
      this.hasListener := hasListener;
      updateSuccessful := true;
      stage := AwaitingSoftButton;
      softButtonSucceeded := true;
      delivered := [];
    }

    /** The soft-button update finished: record its outcome, leave batch mode on the text-and-graphic manager, update it. */
    method SoftButtonUpdated(success: bool)
      requires Valid() && stage == AwaitingSoftButton
      modifies this, textAndGraphic`batchUpdates
      ensures Valid() && stage == AwaitingTextAndGraphic
      ensures softButtonSucceeded == success && delivered == []
      ensures !textAndGraphic.batchUpdates
    {
      if !success {
        updateSuccessful := false;
      }
      softButtonSucceeded := success;
      textAndGraphic.batchUpdates := false;
      stage := AwaitingTextAndGraphic;
    }

    /** The text-and-graphic update finished: the caller's listener, if any, hears once whether both succeeded. */
    method TextAndGraphicUpdated(success: bool)
      requires Valid() && stage == AwaitingTextAndGraphic
      modifies this
      ensures Valid() && stage == Delivered
      ensures delivered == if hasListener then [old(softButtonSucceeded) && success] else []
    {
      if !success {
        updateSuccessful := false;
      }
      if hasListener {
        delivered := delivered + [updateSuccessful];
      }
      stage := Delivered;
    }
  }

  class ScreenManager {
    /** The weakly held file manager, as seen when the screen manager was built. */
    const fileManager: Option<FileManager>
    const softButton: SubManager?
    const textAndGraphic: TextAndGraphicManager?
    const voiceCommand: SubManager
    const menu: SubManager?
    const choiceSet: SubManager?
    /** The lifecycle state inherited from BaseSubManager. */
    var state: ManagerState
    var started: bool

    /** `initialize` creates the four file-dependent sub-managers only when there is a file manager. */
    ghost predicate Valid() {
      && (fileManager.Some? <==> softButton != null)
      && (fileManager.Some? <==> textAndGraphic != null)
      && (fileManager.Some? <==> menu != null)
      && (fileManager.Some? <==> choiceSet != null)
      && (softButton != null ==> softButton != voiceCommand && softButton != menu && softButton != choiceSet)
      && voiceCommand != menu && voiceCommand != choiceSet
      && (menu != null ==> menu != choiceSet)
    }

    /** The states of the five sub-managers, in listener order of arguments. */
    function Composite(): (r: ManagerState)
      reads softButton, textAndGraphic, voiceCommand, menu, choiceSet
      ensures r != Shutdown
    {
      ComposeState(StateOf(softButton), TextStateOf(textAndGraphic), StateOf(voiceCommand), StateOf(menu), StateOf(choiceSet))
    }

    constructor (fileManager: Option<FileManager>, blankArtwork: Artwork)
      ensures Valid()
      ensures this.fileManager == fileManager && state == SettingUp && !started
      ensures softButton != null ==> fresh(softButton) && softButton.state == SettingUp && !softButton.started && !softButton.batchUpdates
      ensures textAndGraphic != null ==> fresh(textAndGraphic) && textAndGraphic.state == SettingUp && !textAndGraphic.started && !textAndGraphic.batchUpdates
      ensures textAndGraphic != null ==> textAndGraphic.blankArtwork == blankArtwork
      ensures fresh(voiceCommand) && voiceCommand.state == SettingUp && !voiceCommand.started && !voiceCommand.batchUpdates
      ensures menu != null ==> fresh(menu) && menu.state == SettingUp && !menu.started && !menu.batchUpdates
      ensures choiceSet != null ==> fresh(choiceSet) && choiceSet.state == SettingUp && !choiceSet.started && !choiceSet.batchUpdates
      // with no file manager, every sub-manager but voice commands is missing, so the composite is ERROR
      ensures fileManager.None? ==> Composite() == Error
    {
      this.fileManager := fileManager;
      if fileManager.Some? {
        softButton := new SubManager();
        textAndGraphic := new TextAndGraphicManager(blankArtwork);
        menu := new SubManager();
        choiceSet := new SubManager();
      } else {
        softButton, textAndGraphic, menu, choiceSet := null, null, null, null;
      }
      voiceCommand := new SubManager();
      state := SettingUp;
      started := false;
    }

    /** The sub-manager listener: every completion recomputes the composite state. */
    method OnSubManagerComplete(success: bool)
      modifies this`state
      ensures state == Composite()
    {
      state := ComposeState(StateOf(softButton), TextStateOf(textAndGraphic), StateOf(voiceCommand), StateOf(menu), StateOf(choiceSet));
    }

    /** Starts itself, then the five sub-managers in order; the first missing one throws. */
    method Start() returns (ok: bool)
      requires Valid()
      modifies this`started, softButton, textAndGraphic, voiceCommand, menu, choiceSet
      ensures started
      ensures ok == fileManager.Some?
      ensures ok ==> softButton.started && textAndGraphic.started && voiceCommand.started && menu.started && choiceSet.started
      ensures !ok ==> unchanged(voiceCommand)
      ensures softButton != null ==> softButton.state == old(softButton.state) && softButton.batchUpdates == old(softButton.batchUpdates)
      ensures textAndGraphic != null ==> textAndGraphic.state == old(textAndGraphic.state) && textAndGraphic.batchUpdates == old(textAndGraphic.batchUpdates)
      ensures textAndGraphic != null ==> textAndGraphic.primaryGraphic == old(textAndGraphic.primaryGraphic) && textAndGraphic.secondaryGraphic == old(textAndGraphic.secondaryGraphic)
      ensures voiceCommand.state == old(voiceCommand.state) && voiceCommand.batchUpdates == old(voiceCommand.batchUpdates)
      ensures menu != null ==> menu.state == old(menu.state) && menu.batchUpdates == old(menu.batchUpdates)
      ensures choiceSet != null ==> choiceSet.state == old(choiceSet.state) && choiceSet.batchUpdates == old(choiceSet.batchUpdates)
    {
      started := true;
      if softButton == null {
        return false;
      }
      softButton.started := true;
      textAndGraphic.started := true;
      voiceCommand.started := true;
      menu.started := true;
      choiceSet.started := true;
      return true;
    }

    /** Disposes the five sub-managers in order, then itself; the first missing one throws. */
    method Dispose() returns (ok: bool)
      requires Valid()
      modifies this`state, softButton, textAndGraphic, voiceCommand, menu, choiceSet
      ensures ok == fileManager.Some?
      ensures ok ==> state == Shutdown && softButton.state == Shutdown && textAndGraphic.state == Shutdown &&
                     voiceCommand.state == Shutdown && menu.state == Shutdown && choiceSet.state == Shutdown
      ensures !ok ==> state == old(state) && unchanged(voiceCommand)
      ensures softButton != null ==> softButton.started == old(softButton.started) && softButton.batchUpdates == old(softButton.batchUpdates)
      ensures textAndGraphic != null ==>
                textAndGraphic.started == old(textAndGraphic.started) && textAndGraphic.batchUpdates == old(textAndGraphic.batchUpdates) &&
                textAndGraphic.primaryGraphic == old(textAndGraphic.primaryGraphic) &&
                textAndGraphic.secondaryGraphic == old(textAndGraphic.secondaryGraphic)
      ensures voiceCommand.started == old(voiceCommand.started) && voiceCommand.batchUpdates == old(voiceCommand.batchUpdates)
      ensures menu != null ==> menu.started == old(menu.started) && menu.batchUpdates == old(menu.batchUpdates)
      ensures choiceSet != null ==> choiceSet.started == old(choiceSet.started) && choiceSet.batchUpdates == old(choiceSet.batchUpdates)
    {
      if softButton == null {
        return false;
      }
      softButton.state := Shutdown;
      textAndGraphic.state := Shutdown;
      voiceCommand.state := Shutdown;
      menu.state := Shutdown;
      choiceSet.state := Shutdown;
      state := Shutdown;
      return true;
    }

    /** A null primary graphic is replaced by the text-and-graphic manager's blank artwork. */
    method SetPrimaryGraphic(primaryGraphic: Option<Artwork>) returns (ok: bool)
      modifies textAndGraphic
      ensures ok == (textAndGraphic != null)
      ensures ok ==> textAndGraphic.primaryGraphic.Some? &&
                     textAndGraphic.primaryGraphic.value == (if primaryGraphic.None? then textAndGraphic.blankArtwork else primaryGraphic.value)
      ensures ok ==> textAndGraphic.secondaryGraphic == old(textAndGraphic.secondaryGraphic) &&
                     textAndGraphic.state == old(textAndGraphic.state) && textAndGraphic.batchUpdates == old(textAndGraphic.batchUpdates) &&
                     textAndGraphic.started == old(textAndGraphic.started)
    {
      if textAndGraphic == null {
        return false;
      }
      textAndGraphic.primaryGraphic := Some(primaryGraphic.GetOr(textAndGraphic.blankArtwork));
      return true;
    }

    /** A null secondary graphic is replaced by the text-and-graphic manager's blank artwork. */
    method SetSecondaryGraphic(secondaryGraphic: Option<Artwork>) returns (ok: bool)
      modifies textAndGraphic
      ensures ok == (textAndGraphic != null)
      ensures ok ==> textAndGraphic.secondaryGraphic.Some? &&
                     textAndGraphic.secondaryGraphic.value == (if secondaryGraphic.None? then textAndGraphic.blankArtwork else secondaryGraphic.value)
      ensures ok ==> textAndGraphic.primaryGraphic == old(textAndGraphic.primaryGraphic) &&
                     textAndGraphic.state == old(textAndGraphic.state) && textAndGraphic.batchUpdates == old(textAndGraphic.batchUpdates) &&
                     textAndGraphic.started == old(textAndGraphic.started)
    {
      if textAndGraphic == null {
        return false;
      }
      textAndGraphic.secondaryGraphic := Some(secondaryGraphic.GetOr(textAndGraphic.blankArtwork));
      return true;
    }

    /** Puts the soft-button and text-and-graphic managers into batch mode. */
    method BeginTransaction() returns (ok: bool)
      requires Valid()
      modifies softButton, textAndGraphic
      ensures ok == fileManager.Some?
      ensures ok ==> softButton.batchUpdates && textAndGraphic.batchUpdates
      ensures ok ==> softButton.state == old(softButton.state) && textAndGraphic.state == old(textAndGraphic.state)
      ensures ok ==> textAndGraphic.primaryGraphic == old(textAndGraphic.primaryGraphic) && textAndGraphic.secondaryGraphic == old(textAndGraphic.secondaryGraphic)
      ensures ok ==> softButton.started == old(softButton.started) && textAndGraphic.started == old(textAndGraphic.started)
    {
      if softButton == null {
        return false;
      }
      softButton.batchUpdates := true;
      textAndGraphic.batchUpdates := true;
      return true;
    }

    /**
     * Takes the soft-button manager out of batch mode and starts its update; the returned
     * callback carries the rest of the commit. The text-and-graphic manager stays in batch mode
     * until the soft-button update has finished.
     */
    method Commit(hasListener: bool) returns (callback: CommitCallback?)
      requires Valid()
      modifies softButton
      ensures (callback == null) == fileManager.None?
      ensures callback != null ==> fresh(callback) && callback.Valid() && callback.stage == AwaitingSoftButton
      ensures callback != null ==> callback.textAndGraphic == textAndGraphic && callback.hasListener == hasListener
      ensures callback != null ==> !softButton.batchUpdates && softButton.state == old(softButton.state) &&
                                   softButton.started == old(softButton.started)
    {
      if softButton == null {
        return null;
      }
      softButton.batchUpdates := false;
      callback := new CommitCallback(textAndGraphic, hasListener);
    }
  }

  /**
   * A whole commit as the two managers report it: the listener hears once, true iff both updates
   * succeeded. `heard` is what the callback delivered to the caller's listener.
   */
  method CommitScenario(screen: ScreenManager, softButtonOk: bool, textAndGraphicOk: bool) returns (ghost heard: seq<bool>)
    requires screen.Valid() && screen.fileManager.Some?
    modifies screen.softButton, screen.textAndGraphic
    ensures heard == [softButtonOk && textAndGraphicOk]
    ensures !screen.softButton.batchUpdates && !screen.textAndGraphic.batchUpdates
  {
    var callback := screen.Commit(true);
    callback.SoftButtonUpdated(softButtonOk);
    callback.TextAndGraphicUpdated(textAndGraphicOk);
    heard := callback.delivered;
  }
}
