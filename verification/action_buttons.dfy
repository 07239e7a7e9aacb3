/**
 * `ActionButtons`: when the two save buttons are enabled, when they show the
 * spinner, and the counts their labels display.
 */
module ActionButtons {
  import opened JsString

  /** The props the buttons read: the `disabled` flag and the two counts. */
  datatype Props = Props(disabled: bool, acceptedCount: nat, proposalCount: nat)

  /** "Save accepted" is enabled when not disabled and at least one card is accepted. */
  predicate SaveAcceptedEnabled(p: Props) {
    !(p.disabled || !(p.acceptedCount > 0))
  }

  /** "Save all" is enabled when not disabled and there is at least one proposal. */
  predicate SaveAllEnabled(p: Props) {
    !(p.disabled || !(p.proposalCount > 0))
  }

  /** Both buttons show the spinner exactly while disabled. */
  predicate ShowsSpinner(p: Props) {
    p.disabled
  }

  const SaveAcceptedText: string := "Zapisz zaakceptowane ("
  const SaveAllText: string := "Zapisz wszystkie ("

  /** The label of a button: its text followed by a count in parentheses. */
  function Label(text: string, count: nat): (l: string)
    ensures |l| > |text| + 1 && l[..|text|] == text && l[|l| - 1] == ')'
    ensures forall i :: |text| <= i < |l| - 1 ==> '0' <= l[i] <= '9'
  {
    text + NatToString(count) + ")"
  }

  /** The count a label displays, read back from its digits. */
  function DisplayedCount(text: string, shown: string): nat
    requires |shown| > |text| + 1
    requires forall i :: |text| <= i < |shown| - 1 ==> '0' <= shown[i] <= '9'
  {
    DecimalValue(shown[|text|..|shown| - 1])
  }

  /** The labels display the number of accepted cards and the number of proposals. */
  lemma LabelsShowCounts(p: Props)
    ensures DisplayedCount(SaveAcceptedText, Label(SaveAcceptedText, p.acceptedCount)) == p.acceptedCount
    ensures DisplayedCount(SaveAllText, Label(SaveAllText, p.proposalCount)) == p.proposalCount
  {
    var l1 := Label(SaveAcceptedText, p.acceptedCount);
    assert l1[|SaveAcceptedText|..|l1| - 1] == NatToString(p.acceptedCount);
    NatToStringRoundTrip(p.acceptedCount);
    var l2 := Label(SaveAllText, p.proposalCount);
    assert l2[|SaveAllText|..|l2| - 1] == NatToString(p.proposalCount);
    NatToStringRoundTrip(p.proposalCount);
  }

  /** A spinner and an enabled button never appear together. */
  lemma SpinnerMeansDisabled(p: Props)
    ensures ShowsSpinner(p) ==> !SaveAcceptedEnabled(p) && !SaveAllEnabled(p)
    ensures !ShowsSpinner(p) ==> (SaveAcceptedEnabled(p) <==> p.acceptedCount > 0) && (SaveAllEnabled(p) <==> p.proposalCount > 0)
  {
  }
}
