/**
 * `GenerateForm`: the text area's state, its validity flag, the submit guard,
 * the disabled submit button and the two length warnings. The client checks
 * the same range as the server.
 */
module GenerateForm {
  import opened Wrappers
  import opened JsString
  import Validation

  datatype FormState = FormState(text: string, isValid: bool)

  const MinChars: nat := 1000
  const MaxChars: nat := 10000

  /** The form on first render: empty and invalid. */
  const Initial: FormState := FormState("", false)

  /** The predicate `handleTextChange` stores: `text.length >= 1000 && text.length <= 10000`. */
  predicate LengthOk(text: string) {
    Utf16Length(text) >= 1000 && Utf16Length(text) <= 10000
  }

  /** `handleTextChange`: the new text and its validity. */
  function TextChanged(text: string): (s: FormState)
    ensures s.text == text
    ensures s.isValid <==> MinChars <= Utf16Length(text) <= MaxChars
  {
    FormState(text, LengthOk(text))
  }

  /** `handleSubmit`: the text passed to `onSubmit`, or None when nothing happens. */
  function Submit(s: FormState): (sent: Option<string>)
    ensures sent.Some? <==> s.isValid
    ensures sent.Some? ==> sent.value == s.text
  {
    if s.isValid then Some(s.text) else None
  }

  predicate SubmitDisabled(s: FormState) {
    !s.isValid
  }

  predicate MinWarningShown(s: FormState) {
    Utf16Length(s.text) < MinChars
  }

  predicate MaxWarningShown(s: FormState) {
    Utf16Length(s.text) > MaxChars
  }

  /** The flag agrees with the text: true of the initial state and of every state a change produces. */
  predicate Consistent(s: FormState) {
    s.isValid == LengthOk(s.text)
  }

  /** The form after a sequence of edits: the last edit decides. */
  function AfterEdits(edits: seq<string>): (s: FormState)
    ensures Consistent(s)
    ensures edits == [] ==> s == Initial
    ensures edits != [] ==> s.text == edits[|edits| - 1]
  {
    if edits == [] then Initial else TextChanged(edits[|edits| - 1])
  }

  /**
   * In every reachable state: submit sends exactly the current text when its
   * length is in range; the button is disabled otherwise; and the form is
   * valid exactly when neither warning shows (the warnings never show together).
   */
  lemma ReachableFormBehaviour(edits: seq<string>)
    ensures var s := AfterEdits(edits);
      && (Submit(s) == Some(s.text) <==> MinChars <= Utf16Length(s.text) <= MaxChars)
      && (Submit(s).None? <==> SubmitDisabled(s))
      && (s.isValid <==> !MinWarningShown(s) && !MaxWarningShown(s))
      && !(MinWarningShown(s) && MaxWarningShown(s))
  {
  }

  /** The client's bounds coincide with the server's: a text the form accepts is one the endpoint accepts, and conversely. */
  lemma ClientAgreesWithServer(text: string)
    ensures LengthOk(text) <==> Validation.ValidateGenerateFlashcardsCommand(Validation.Body(text)).data.Some?
  {
  }

  /** Whatever the form submits passes server validation unchanged. */
  lemma SubmittedTextPassesServer(edits: seq<string>)
    requires Submit(AfterEdits(edits)).Some?
    ensures var t := Submit(AfterEdits(edits)).value;
      Validation.ValidateGenerateFlashcardsCommand(Validation.Body(t)).data == Some(Validation.GenerateFlashcardsCommand(t))
  {
  }
}
