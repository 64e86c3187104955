/**
 * A choice set: the title, prompts, layout, timeout, choices and voice help shown when the app
 * presents a choice interaction. Layout and timeout fall back to defaults when given null, and
 * voice help items are copied and numbered by their position.
 */
module ChoiceSets {
  import opened Common

  datatype ChoiceSetLayout = ChoiceSetLayoutList | ChoiceSetLayoutTiles

  const DefaultLayout: ChoiceSetLayout := ChoiceSetLayoutList
  const DefaultTimeout: int := 10

  /** One spoken chunk of a prompt. */
  datatype TtsChunk = TtsChunk(text: string)

  /** A help entry shown during voice recognition; `position` is its 1-based place in the list. */
  datatype VrHelpItem = VrHelpItem(text: string, image: Option<Image>, position: int)

  /** The identity of the app's selection listener. */
  datatype SelectionListener = SelectionListener(id: nat)

  /** A keyboard configuration, carried unchanged. */
  datatype KeyboardProperties = KeyboardProperties(settings: map<string, string>)

  /** The warnings the debug-only parameter check can emit. */
  datatype ParameterWarning =
    | TitleLength(length: nat)
    | TimeoutOutOfRange(seconds: int)
    | ChoiceCountOutOfRange(count: nat)

  /** The prompt built from a plain string: a single text chunk. */
  function SimplePrompt(text: string): seq<TtsChunk> {
    [TtsChunk(text)]
  }

  /** `items` with every entry's position set to its 1-based index, everything else kept. */
  function Renumbered(items: seq<VrHelpItem>): (r: seq<VrHelpItem>)
    ensures |r| == |items|
  {
    seq(|items|, i requires 0 <= i < |items| => items[i].(position := i + 1))
  }

  /**
   * The numbered list keeps each item's text and image and gives the item at index i position
   * i + 1, so the positions are pairwise distinct.
   */
  lemma RenumberedPositions(items: seq<VrHelpItem>)
    ensures forall i :: 0 <= i < |items| ==>
              Renumbered(items)[i].text == items[i].text && Renumbered(items)[i].image == items[i].image &&
              Renumbered(items)[i].position == i + 1
    ensures forall i, j :: 0 <= i < j < |items| ==> Renumbered(items)[i].position != Renumbered(items)[j].position
  {
  }

  /**
   * Copies the help items and numbers the copies by position; null stays null. The caller's
   * list is a value here, so it cannot be changed by the copy.
   */
  method SetUpHelpItems(helpItems: Option<seq<VrHelpItem>>) returns (cloned: Option<seq<VrHelpItem>>)
    ensures cloned.None? <==> helpItems.None?
    ensures helpItems.Some? ==> |cloned.value| == |helpItems.value|
    ensures helpItems.Some? ==> forall i :: 0 <= i < |helpItems.value| ==>
              cloned.value[i].text == helpItems.value[i].text &&
              cloned.value[i].image == helpItems.value[i].image &&
              cloned.value[i].position == i + 1
    ensures helpItems.Some? ==> cloned.value == Renumbered(helpItems.value)
  {
    if helpItems.None? {
      return None;
    }
    var items := helpItems.value;
    var copies: seq<VrHelpItem> := [];
    var i := 0;
    while i < |items|
      invariant 0 <= i <= |items|
      invariant |copies| == i
      invariant forall k :: 0 <= k < i ==> copies[k] == items[k].(position := k + 1)
    {
      var copy := items[i];
      copy := copy.(position := i + 1);
      copies := copies + [copy];
      i := i + 1;
    }
    cloned := Some(copies);
  }

  class ChoiceSet {
    var title: Option<string>
    var initialPrompt: Option<seq<TtsChunk>>
    var timeoutPrompt: Option<seq<TtsChunk>>
    var helpPrompt: Option<seq<TtsChunk>>
    var layout: ChoiceSetLayout
    var timeout: int
    var choices: Option<seq<ChoiceCell>>
    var vrHelpList: Option<seq<VrHelpItem>>
    var choiceSetSelectionListener: Option<SelectionListener>
    var customKeyboardConfiguration: Option<KeyboardProperties>

    /** Title, choices and listener; the default layout and timeout; everything else null. */
    constructor (title: string, choices: seq<ChoiceCell>, listener: SelectionListener)
      ensures this.title == Some(title) && this.choices == Some(choices)
      ensures choiceSetSelectionListener == Some(listener)
      ensures layout == ChoiceSetLayoutList && timeout == 10
      ensures initialPrompt.None? && timeoutPrompt.None? && helpPrompt.None?
      ensures vrHelpList.None? && customKeyboardConfiguration.None?
    {
      this.title := Some(title);
      choiceSetSelectionListener := Some(listener);
      this.choices := Some(choices);
      layout := DefaultLayout;
      timeout := DefaultTimeout;
      initialPrompt, timeoutPrompt, helpPrompt := None, None, None;
      vrHelpList := None;
      customKeyboardConfiguration := None;
    }

    /** Every property, with prompts given as plain strings that become single text chunks. */
    constructor WithTextPrompts(title: string, layout: Option<ChoiceSetLayout>, timeout: Option<int>,
                                initialPrompt: Option<string>, timeoutPrompt: Option<string>, helpPrompt: Option<string>,
                                helpList: Option<seq<VrHelpItem>>, customKeyboardConfiguration: Option<KeyboardProperties>,
                                choices: seq<ChoiceCell>, listener: SelectionListener)
      ensures this.title == Some(title) && this.choices == Some(choices)
      ensures choiceSetSelectionListener == Some(listener)
      ensures this.layout == layout.GetOr(ChoiceSetLayoutList) && this.timeout == timeout.GetOr(10)
      ensures this.initialPrompt == (if initialPrompt.None? then None else Some(SimplePrompt(initialPrompt.value)))
      ensures this.timeoutPrompt == (if timeoutPrompt.None? then None else Some(SimplePrompt(timeoutPrompt.value)))
      ensures this.helpPrompt == (if helpPrompt.None? then None else Some(SimplePrompt(helpPrompt.value)))
      ensures this.customKeyboardConfiguration == customKeyboardConfiguration
      ensures vrHelpList.None? <==> helpList.None?
      ensures helpList.Some? ==> vrHelpList.value == Renumbered(helpList.value)
    {
      this.title := Some(title);
      choiceSetSelectionListener := Some(listener);
      this.layout := layout.GetOr(DefaultLayout);
      this.timeout := timeout.GetOr(DefaultTimeout);
      this.choices := Some(choices);
      this.customKeyboardConfiguration := customKeyboardConfiguration;
      this.initialPrompt := if initialPrompt.None? then None else Some(SimplePrompt(initialPrompt.value));
      this.timeoutPrompt := if timeoutPrompt.None? then None else Some(SimplePrompt(timeoutPrompt.value));
      this.helpPrompt := if helpPrompt.None? then None else Some(SimplePrompt(helpPrompt.value));
      var numbered := SetUpHelpItems(helpList);
      vrHelpList := numbered;
    }

    /** Every property, with prompts given as chunk lists stored as they are. */
    constructor WithChunkPrompts(title: string, layout: Option<ChoiceSetLayout>, timeout: Option<int>,
                                 initialPrompt: Option<seq<TtsChunk>>, timeoutPrompt: Option<seq<TtsChunk>>,
                                 helpPrompt: Option<seq<TtsChunk>>, helpList: Option<seq<VrHelpItem>>,
                                 customKeyboardConfiguration: Option<KeyboardProperties>,
                                 choices: seq<ChoiceCell>, listener: SelectionListener)
      ensures this.title == Some(title) && this.choices == Some(choices)
      ensures choiceSetSelectionListener == Some(listener)
      ensures this.layout == layout.GetOr(ChoiceSetLayoutList) && this.timeout == timeout.GetOr(10)
      ensures this.initialPrompt == initialPrompt && this.timeoutPrompt == timeoutPrompt && this.helpPrompt == helpPrompt
      ensures this.customKeyboardConfiguration == customKeyboardConfiguration
      ensures vrHelpList.None? <==> helpList.None?
      ensures helpList.Some? ==> vrHelpList.value == Renumbered(helpList.value)
    {
      this.title := Some(title);
      choiceSetSelectionListener := Some(listener);
      this.initialPrompt := initialPrompt;
      this.timeoutPrompt := timeoutPrompt;
      this.helpPrompt := helpPrompt;
      this.choices := Some(choices);
      this.timeout := timeout.GetOr(DefaultTimeout);
      this.layout := layout.GetOr(DefaultLayout);
      this.customKeyboardConfiguration := customKeyboardConfiguration;
      var numbered := SetUpHelpItems(helpList);
      vrHelpList := numbered;
    }

    method SetTitle(title: Option<string>)
      modifies this`title
      ensures this.title == title
    {
      this.title := title;
    }

    method SetInitialPrompt(initialPrompt: Option<seq<TtsChunk>>)
      modifies this`initialPrompt
      ensures this.initialPrompt == initialPrompt
    {
      this.initialPrompt := initialPrompt;
    }

    method SetTimeoutPrompt(timeoutPrompt: Option<seq<TtsChunk>>)
      modifies this`timeoutPrompt
      ensures this.timeoutPrompt == timeoutPrompt
    {
      this.timeoutPrompt := timeoutPrompt;
    }

    method SetHelpPrompt(helpPrompt: Option<seq<TtsChunk>>)
      modifies this`helpPrompt
      ensures this.helpPrompt == helpPrompt
    {
      this.helpPrompt := helpPrompt;
    }

    /** Stores numbered copies of the help items (null stays null). */
    method SetVrHelpList(vrHelpList: Option<seq<VrHelpItem>>)
      modifies this`vrHelpList
      ensures this.vrHelpList.None? <==> vrHelpList.None?
      ensures vrHelpList.Some? ==> this.vrHelpList.value == Renumbered(vrHelpList.value)
    {
      this.vrHelpList := SetUpHelpItems(vrHelpList);
    }

    /** A null layout becomes the list layout; any other layout is stored as given. */
    method SetLayout(layout: Option<ChoiceSetLayout>)
      modifies this`layout
      ensures layout.None? ==> this.layout == ChoiceSetLayoutList
      ensures layout.Some? ==> this.layout == layout.value
    {
      if layout.None? {
        this.layout := DefaultLayout;
      } else {
        this.layout := layout.value;
      }
    }

    /** A null timeout becomes 10 seconds; any other value is stored as given, in range or not. */
    method SetTimeout(timeout: Option<int>)
      modifies this`timeout
      ensures timeout.None? ==> this.timeout == 10
      ensures timeout.Some? ==> this.timeout == timeout.value
    {
      if timeout.None? {
        this.timeout := DefaultTimeout;
      } else {
        this.timeout := timeout.value;
      }
    }

    /** The choices are stored exactly as given: an empty list and a list of more than 100 alike. */
    method SetChoices(choices: Option<seq<ChoiceCell>>)
      modifies this`choices
      ensures this.choices == choices
    {
      this.choices := choices;
    }

    method SetChoiceSetSelectionListener(listener: Option<SelectionListener>)
      modifies this`choiceSetSelectionListener
      ensures choiceSetSelectionListener == listener
    {
      choiceSetSelectionListener := listener;
    }

    method SetCustomKeyboardConfiguration(configuration: Option<KeyboardProperties>)
      modifies this`customKeyboardConfiguration
      ensures customKeyboardConfiguration == configuration
    {
      customKeyboardConfiguration := configuration;
    }

    /**
     * The parameter check: with debugging enabled it warns about a title that is empty or longer
     * than 500 characters, a timeout outside 5..100 seconds and a choice count outside 1..100.
     * It changes no field.
     */
    method CheckChoiceSetParameters(debugEnabled: bool) returns (warnings: seq<ParameterWarning>)
      ensures !debugEnabled ==> warnings == []
      ensures |warnings| <= 3
      ensures forall i, j :: 0 <= i < j < |warnings| ==> warnings[i] != warnings[j]
      ensures (exists n :: TitleLength(n) in warnings) <==>
                debugEnabled && title.Some? && (|title.value| == 0 || |title.value| > 500)
      ensures (exists t :: TimeoutOutOfRange(t) in warnings) <==> debugEnabled && (timeout < 5 || timeout > 100)
      ensures (exists n :: ChoiceCountOutOfRange(n) in warnings) <==>
                debugEnabled && choices.Some? && (|choices.value| == 0 || |choices.value| > 100)
      ensures forall w :: w in warnings ==>
                match w
                case TitleLength(n) => title.Some? && n == |title.value|
                case TimeoutOutOfRange(t) => t == timeout
                case ChoiceCountOutOfRange(n) => choices.Some? && n == |choices.value|
    {
      warnings := [];
      if debugEnabled {
        if title.Some? && (|title.value| == 0 || |title.value| > 500) {
          warnings := warnings + [TitleLength(|title.value|)];
        }
        if timeout < 5 || timeout > 100 {
          warnings := warnings + [TimeoutOutOfRange(timeout)];
        }
        if choices.Some? && (|choices.value| == 0 || |choices.value| > 100) {
          warnings := warnings + [ChoiceCountOutOfRange(|choices.value|)];
        }
      }
    }
  }
}
