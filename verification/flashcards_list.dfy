/**
 * `FlashcardsList`: the list's own sets of accepted and rejected card
 * indices, the two click handlers that grow them and forward to the parent's
 * optional callbacks, and which button of a card is rendered and enabled.
 */
module FlashcardsList {
  import opened Wrappers

  datatype ListState = ListState(accepted: set<int>, rejected: set<int>)

  /** The state of a freshly mounted list. */
  const Fresh: ListState := ListState({}, {})

  datatype Button = AcceptButton | RejectButton

  /** A call forwarded to the parent: which callback, for which index. */
  datatype Forward = Forward(button: Button, index: int)

  /** `handleAccept`: mark the card accepted and call `onAccept` if the parent passed one. */
  function HandleAccept(s: ListState, index: int, hasOnAccept: bool): (r: (ListState, seq<Forward>))
    ensures r.0.accepted == s.accepted + {index} && r.0.rejected == s.rejected
    ensures r.1 == if hasOnAccept then [Forward(AcceptButton, index)] else []
  {
    (s.(accepted := s.accepted + {index}), if hasOnAccept then [Forward(AcceptButton, index)] else [])
  }

  /** `handleReject`: mark the card rejected and call `onReject` if the parent passed one. */
  function HandleReject(s: ListState, index: int, hasOnReject: bool): (r: (ListState, seq<Forward>))
    ensures r.0.rejected == s.rejected + {index} && r.0.accepted == s.accepted
    ensures r.1 == if hasOnReject then [Forward(RejectButton, index)] else []
  {
    (s.(rejected := s.rejected + {index}), if hasOnReject then [Forward(RejectButton, index)] else [])
  }

  /** The Accept button is rendered unless the card is rejected; Reject unless it is accepted. */
  predicate Shown(s: ListState, index: int, b: Button) {
    match b
    case AcceptButton => index !in s.rejected
    case RejectButton => index !in s.accepted
  }

  /** Accept is disabled once the card is accepted; Reject once it is rejected. */
  predicate Disabled(s: ListState, index: int, b: Button) {
    match b
    case AcceptButton => index in s.accepted
    case RejectButton => index in s.rejected
  }

  /** A button the user can click: rendered and enabled. */
  predicate Clickable(s: ListState, index: int, b: Button) {
    Shown(s, index, b) && !Disabled(s, index, b)
  }

  /** Only an unmarked card has a clickable button, and then both of its buttons are. */
  lemma ClickableOnlyWhenUnmarked(s: ListState, index: int, b: Button)
    ensures Clickable(s, index, b) <==> index !in s.accepted && index !in s.rejected
  {
  }

  datatype Click = Click(index: int, button: Button)

  /** One click on card `c.index`; a hidden or disabled button produces no event. */
  function Step(s: ListState, c: Click, hasOnAccept: bool, hasOnReject: bool): (r: (ListState, seq<Forward>))
    ensures s.accepted <= r.0.accepted && s.rejected <= r.0.rejected
    ensures !Clickable(s, c.index, c.button) ==> r == (s, [])
  {
    if !Clickable(s, c.index, c.button) then (s, [])
    else if c.button == AcceptButton then HandleAccept(s, c.index, hasOnAccept)
    else HandleReject(s, c.index, hasOnReject)
  }

  /** A sequence of clicks, with the calls forwarded to the parent in order. */
  function Run(s: ListState, clicks: seq<Click>, hasOnAccept: bool, hasOnReject: bool): (r: (ListState, seq<Forward>))
    ensures s.accepted <= r.0.accepted && s.rejected <= r.0.rejected
    decreases |clicks|
  {
    if clicks == [] then (s, [])
    else
      var (s1, f1) := Step(s, clicks[0], hasOnAccept, hasOnReject);
      var (s2, f2) := Run(s1, clicks[1..], hasOnAccept, hasOnReject);
      (s2, f1 + f2)
  }

  predicate Disjoint(s: ListState) {
    s.accepted !! s.rejected
  }

  /** Clicking only what is rendered and enabled never marks a card both accepted and rejected. */
  lemma {:induction false} RunKeepsDisjoint(s: ListState, clicks: seq<Click>, hasOnAccept: bool, hasOnReject: bool)
    requires Disjoint(s)
    ensures Disjoint(Run(s, clicks, hasOnAccept, hasOnReject).0)
    decreases |clicks|
  {
    if clicks != [] {
      var (s1, _) := Step(s, clicks[0], hasOnAccept, hasOnReject);
      RunKeepsDisjoint(s1, clicks[1..], hasOnAccept, hasOnReject);
    }
  }

  /** The indices of the forwarded calls of one kind. */
  function Indices(fs: seq<Forward>, b: Button): seq<int> {
    if fs == [] then []
    else (if fs[0].button == b then [fs[0].index] else []) + Indices(fs[1..], b)
  }

  lemma {:induction false} IndicesAppend(f1: seq<Forward>, f2: seq<Forward>, b: Button)
    ensures Indices(f1 + f2, b) == Indices(f1, b) + Indices(f2, b)
  {
    if f1 != [] {
      assert (f1 + f2)[1..] == f1[1..] + f2;
      IndicesAppend(f1[1..], f2, b);
    } else {
      assert f1 + f2 == f2;
    }
  }

  predicate NoDuplicates(xs: seq<int>) {
    forall i, j :: 0 <= i < j < |xs| ==> xs[i] != xs[j]
  }

  /**
   * With a parent `onAccept`, each card is forwarded to it at most once, and
   * the forwarded cards are exactly the ones newly accepted.
   */
  lemma {:induction false} AcceptForwardedOnce(s: ListState, clicks: seq<Click>, hasOnReject: bool)
    ensures var (s', fs) := Run(s, clicks, true, hasOnReject);
      && NoDuplicates(Indices(fs, AcceptButton))
      && (forall i :: i in Indices(fs, AcceptButton) <==> i in s'.accepted - s.accepted)
    decreases |clicks|
  {
    if clicks != [] {
      var (s1, f1) := Step(s, clicks[0], true, hasOnReject);
      var (s2, f2) := Run(s1, clicks[1..], true, hasOnReject);
      AcceptForwardedOnce(s1, clicks[1..], hasOnReject);
      IndicesAppend(f1, f2, AcceptButton);
      assert Run(s, clicks, true, hasOnReject) == (s2, f1 + f2);
      var rest := Indices(f2, AcceptButton);
      var c := clicks[0];
      if Clickable(s, c.index, c.button) && c.button == AcceptButton {
        assert f1 == [Forward(AcceptButton, c.index)];
        assert Indices(f1, AcceptButton) == [c.index] by {
          assert f1[1..] == [];
        }
        assert c.index !in rest;
        var all := [c.index] + rest;
        forall i, j | 0 <= i < j < |all|
          ensures all[i] != all[j]
        {
          assert all[j] == rest[j - 1];
          if i > 0 {
            assert all[i] == rest[i - 1];
          }
        }
      } else {
        assert Indices(f1, AcceptButton) == [] by {
          if f1 != [] {
            assert f1 == [Forward(RejectButton, c.index)];
            assert f1[1..] == [];
          }
        }
        assert Indices(f1 + f2, AcceptButton) == rest;
      }
    }
  }
}
