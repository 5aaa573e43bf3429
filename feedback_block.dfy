/**
 * The submit rule of src/components/blocks/FeedbackBlock.tsx: which panel
 * the block shows, when the submit button is disabled, what a submission
 * sends, and the three pieces of state (`selectedOption`, `customInput`,
 * `submitted`) its handlers update.
 */
module FeedbackBlock {
  import opened Types
  import opened Text

  /** The value of the free-text radio button. */
  const CustomValue: string := "custom"

  datatype Panel = MissingQuestion | ThankYou | Form

  /** The panel shown: a warning without a question, thanks once submitted, else the form. */
  function PanelFor(question: Option<string>, submitted: bool): (p: Panel)
    ensures p == MissingQuestion <==> !Truthy(question)
    ensures p == ThankYou <==> Truthy(question) && submitted
  {
    if !Truthy(question) then MissingQuestion
    else if submitted then ThankYou
    else Form
  }

  /** The feedback a submission sends: the typed text for the free-text option, else the option. */
  function FeedbackOf(selectedOption: string, customInput: string): string {
    if selectedOption == CustomValue then customInput else selectedOption
  }

  /**
   * The button's `disabled` attribute: nothing selected, or the free-text
   * option with only whitespace typed. An enabled button always has something
   * to send.
   */
  predicate SubmitDisabled(selectedOption: string, customInput: string)
    ensures !SubmitDisabled(selectedOption, customInput) ==> FeedbackOf(selectedOption, customInput) != ""
  {
    selectedOption == "" || (selectedOption == CustomValue && IsBlank(customInput))
  }

  /**
   * The handler's own guard is weaker than the button's: with the free-text
   * option and only whitespace typed, the button is disabled although the
   * handler, if called, would send the whitespace.
   */
  lemma GuardWeakerThanButton(typed: string)
    requires IsBlank(typed) && typed != ""
    ensures SubmitDisabled(CustomValue, typed) && FeedbackOf(CustomValue, typed) != ""
  {
  }

  /** One space is a text the button refuses and the handler would send. */
  lemma OneSpaceIsBlank()
    ensures IsBlank(" ")
  {
    assert IsWhitespace(" "[0]);
  }

  /**
   * An option whose text is literally "custom" is taken for the free-text
   * option: choosing it submits the typed text, so with nothing typed the
   * button stays disabled.
   */
  lemma OptionNamedCustomSendsTypedText(customInput: string)
    ensures FeedbackOf(CustomValue, customInput) == customInput
    ensures SubmitDisabled(CustomValue, customInput) <==> IsBlank(customInput)
  {
  }

  /** The state of one rendered feedback block. */
  class FeedbackForm {
    const data: BlockData
    var selectedOption: string
    var customInput: string
    var submitted: bool

    constructor (block: ResponseBlock)
      ensures data == block.data
      ensures selectedOption == "" && customInput == "" && !submitted
      ensures Panel() == (if Truthy(data.question) then Form else MissingQuestion)
    {
      data := block.data;
      selectedOption := "";
      customInput := "";
      submitted := false;
    }

    function Panel(): Panel
      reads this
    {
      PanelFor(data.question, submitted)
    }

    /** Selecting the radio button of the `i`-th option. */
    method ChooseOption(i: nat)
      requires Panel() == Form && i < |data.options|
      modifies this
      ensures selectedOption == data.options[i]
      ensures customInput == old(customInput) && submitted == old(submitted)
    {
      selectedOption := data.options[i];
    }

    /** Selecting the free-text radio button, shown when custom answers are allowed. */
    method ChooseCustom()
      requires Panel() == Form && data.allowCustom
      modifies this
      ensures selectedOption == CustomValue
      ensures customInput == old(customInput) && submitted == old(submitted)
    {
      selectedOption := CustomValue;
    }

    /** Typing in the text area, shown while the free-text option is selected. */
    method EditCustomInput(text: string)
      requires Panel() == Form && data.allowCustom && selectedOption == CustomValue
      modifies this
      ensures customInput == text
      ensures selectedOption == old(selectedOption) && submitted == old(submitted)
    {
      customInput := text;
    }

    /**
     * `handleSubmit`: send the feedback, and mark the block submitted, only
     * when there is something to send; otherwise change nothing.
     */
    method HandleSubmit() returns (sent: Option<string>)
      modifies this
      ensures var feedback := FeedbackOf(old(selectedOption), old(customInput));
        sent == (if feedback != "" then Some(feedback) else None)
      ensures submitted == (old(submitted) || sent.Some?)
      ensures selectedOption == old(selectedOption) && customInput == old(customInput)
    {
      var feedback := FeedbackOf(selectedOption, customInput);
      sent := None;
      if feedback != "" {
        sent := Some(feedback);
        submitted := true;
      }
    }

    /**
     * A click on the submit button: it exists only on the form and does
     * nothing while disabled. A click on an enabled button always submits,
     * after which only the thank-you panel is shown.
     */
    method PressSubmit() returns (sent: Option<string>)
      modifies this
      ensures sent.Some? <==> old(Panel()) == Form && !SubmitDisabled(old(selectedOption), old(customInput))
      ensures sent.Some? ==> sent.value == FeedbackOf(old(selectedOption), old(customInput)) && Panel() == ThankYou
      ensures sent.None? ==> submitted == old(submitted)
      ensures old(submitted) ==> submitted
      ensures selectedOption == old(selectedOption) && customInput == old(customInput)
    {
      sent := None;
      if Panel() == Form && !SubmitDisabled(selectedOption, customInput) {
        sent := HandleSubmit();
      }
    }
  }
}
