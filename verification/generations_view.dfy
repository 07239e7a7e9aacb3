/**
 * `GenerationsView`: the page state of the generation flow and its
 * transitions (generate start, success and failure; accepting a proposal;
 * building the save payload; saving all or only the accepted proposals).
 * `fetch` calls are replaced by their replies.
 */
module GenerationsView {
  import opened Wrappers
  import ActionButtons

  /** `FlashcardProposalDto` as the page receives it. */
  datatype Proposal = Proposal(front: string, back: string, source: string)

  /** `GenerationViewState`. */
  datatype ViewState = ViewState(
    loading: bool,
    error: Option<string>,
    proposals: seq<Proposal>,
    acceptedCards: set<int>,
    generationId: Option<int>,
    saving: bool)

  const Initial: ViewState := ViewState(false, None, [], {}, None, false)

  const GenerateErrorMessage: string := "Wyst\U{0105}pi\U{0142} b\U{0142}\U{0105}d podczas generowania fiszek"
  const UnknownErrorMessage: string := "Wyst\U{0105}pi\U{0142} nieznany b\U{0142}\U{0105}d"
  const SaveErrorMessage: string := "Wyst\U{0105}pi\U{0142} b\U{0142}\U{0105}d podczas zapisywania fiszek"

  /** `GenerationCreateResponseDto` as the page reads it. */
  datatype GenerateResponse = GenerateResponse(generationId: int, proposals: seq<Proposal>)

  /**
   * How a request made by a handler ends: a 2xx reply carrying `data`, a
   * reply that is not ok, or a thrown value (`Some(message)` for an `Error`).
   */
  datatype Reply<T> = Ok(data: T) | NotOk | Threw(message: Option<string>)

  /** The message a handler's `catch` stores for a failed reply. */
  function FailureMessage<T>(reply: Reply<T>, notOkMessage: string, fallback: string): string
    requires !reply.Ok?
  {
    match reply
    case NotOk => notOkMessage
    case Threw(m) => m.GetOr(fallback)
  }

  /** The first `setState` of `handleGenerateSubmit`. */
  function GenerateStarted(s: ViewState): (r: ViewState)
    ensures r.loading && r.error.None?
    ensures r.proposals == s.proposals && r.acceptedCards == s.acceptedCards
    ensures r.generationId == s.generationId && r.saving == s.saving
  {
    s.(loading := true, error := None)
  }

  /** `handleGenerateSubmit(text)`, from the start of the request to the reply's `setState`. */
  function HandleGenerateSubmit(s: ViewState, reply: Reply<GenerateResponse>): (r: ViewState)
    ensures !r.loading && r.saving == s.saving
    ensures reply.Ok? ==>
      && r.proposals == reply.data.proposals && r.acceptedCards == {}
      && r.generationId == Some(reply.data.generationId) && r.error.None?
    ensures !reply.Ok? ==>
      && r.proposals == s.proposals && r.acceptedCards == s.acceptedCards
      && r.generationId == s.generationId
      && r.error == Some(FailureMessage(reply, GenerateErrorMessage, UnknownErrorMessage))
  {
    var started := GenerateStarted(s);
    match reply
    case Ok(data) =>
      started.(loading := false, proposals := data.proposals, acceptedCards := {}, generationId := Some(data.generationId))
    case _ =>
      started.(loading := false, error := Some(FailureMessage(reply, GenerateErrorMessage, UnknownErrorMessage)))
  }

  /** `handleAccept(flashcard, index)`: the index joins the accepted set; nothing else changes. */
  function Accept(s: ViewState, index: int): (r: ViewState)
    ensures r.acceptedCards == s.acceptedCards + {index}
    ensures r == s.(acceptedCards := r.acceptedCards)
  {
    s.(acceptedCards := s.acceptedCards + {index})
  }

  /** Accepting the same card twice is accepting it once. */
  lemma AcceptIdempotent(s: ViewState, index: int)
    ensures Accept(Accept(s, index), index) == Accept(s, index)
  {
  }

  /** `FlashcardCreateDto`. */
  datatype FlashcardCreate = FlashcardCreate(front: string, back: string, source: string, generationId: Option<int>)

  /** `createFlashcardsPayload(selected)`: each proposal's fields, stamped with the current generation. */
  function CreatePayload(generationId: Option<int>, selected: seq<Proposal>): (r: seq<FlashcardCreate>)
    ensures |r| == |selected|
    ensures forall i :: 0 <= i < |selected| ==>
      r[i] == FlashcardCreate(selected[i].front, selected[i].back, selected[i].source, generationId)
  {
    seq(|selected|, i requires 0 <= i < |selected| => FlashcardCreate(selected[i].front, selected[i].back, selected[i].source, generationId))
  }

  /** The accepted indices below `n`, in increasing order. */
  function SelectedIndices(n: nat, accepted: set<int>): (idx: seq<nat>)
    ensures forall j :: 0 <= j < |idx| ==> idx[j] < n && idx[j] in accepted
    ensures forall j, k :: 0 <= j < k < |idx| ==> idx[j] < idx[k]
  {
    if n == 0 then [] else SelectedIndices(n - 1, accepted) + (if n - 1 in accepted then [n - 1] else [])
  }

  /** Every accepted index below `n` is selected. */
  lemma {:induction false} SelectedIndicesComplete(n: nat, accepted: set<int>, i: int)
    requires 0 <= i < n && i in accepted
    ensures i in SelectedIndices(n, accepted)
  {
    if i < n - 1 {
      SelectedIndicesComplete(n - 1, accepted, i);
    }
  }

  /** `proposals.filter((_, index) => acceptedCards.has(index))`. */
  function FilterAccepted(proposals: seq<Proposal>, accepted: set<int>): (r: seq<Proposal>)
    ensures var idx := SelectedIndices(|proposals|, accepted);
      |r| == |idx| && forall j :: 0 <= j < |idx| ==> r[j] == proposals[idx[j]]
  {
    if proposals == [] then []
    else
      var n := |proposals| - 1;
      FilterAccepted(proposals[..n], accepted) + (if n in accepted then [proposals[n]] else [])
  }

  function AcceptedBelow(accepted: set<int>, n: nat): set<int> {
    set i | i in accepted && 0 <= i < n
  }

  /** The filter keeps one proposal per accepted index in range. */
  lemma AcceptedBelowStep(accepted: set<int>, n: nat)
    ensures |AcceptedBelow(accepted, n + 1)| == |AcceptedBelow(accepted, n)| + (if n in accepted then 1 else 0)
  {
    var below := AcceptedBelow(accepted, n);
    assert n !in below;
    if n in accepted {
      assert AcceptedBelow(accepted, n + 1) == below + {n};
    } else {
      assert AcceptedBelow(accepted, n + 1) == below;
    }
  }

  lemma AcceptedBelowZero(accepted: set<int>)
    ensures |AcceptedBelow(accepted, 0)| == 0
  {
    assert AcceptedBelow(accepted, 0) == {};
  }

  lemma SelectedIndicesStep(n: nat, accepted: set<int>)
    requires n > 0
    ensures |SelectedIndices(n, accepted)| == |SelectedIndices(n - 1, accepted)| + (if n - 1 in accepted then 1 else 0)
  {
  }

  lemma {:induction false} SelectedIndicesCount(n: nat, accepted: set<int>)
    ensures |SelectedIndices(n, accepted)| == |AcceptedBelow(accepted, n)|
  {
    if n == 0 {
      AcceptedBelowZero(accepted);
    } else {
      SelectedIndicesCount(n - 1, accepted);
      AcceptedBelowStep(accepted, n - 1);
      SelectedIndicesStep(n, accepted);
    }
  }

  /** Every accepted index names a proposal on the page. */
  predicate AcceptedInRange(s: ViewState) {
    forall i :: i in s.acceptedCards ==> 0 <= i < |s.proposals|
  }

  datatype SaveKind = SaveAll | SaveAccepted

  /** The proposals a save sends: all of them, or the accepted ones in page order. */
  function Selection(s: ViewState, kind: SaveKind): seq<Proposal> {
    match kind
    case SaveAll => s.proposals
    case SaveAccepted => FilterAccepted(s.proposals, s.acceptedCards)
  }

  /** The payload a save sends and the state after its reply. */
  datatype SaveResult = SaveResult(payload: seq<FlashcardCreate>, state: ViewState)

  /**
   * `handleSaveAll` / `handleSaveAccepted`: set `saving` and clear the error,
   * send the selection stamped with the current generation id, then either
   * clear the proposals, the accepted set and the generation id, or keep them
   * and store the error.
   */
  function HandleSave(s: ViewState, kind: SaveKind, reply: Reply<()>): (r: SaveResult)
    ensures r.payload == CreatePayload(s.generationId, Selection(s, kind))
    ensures !r.state.saving && r.state.loading == s.loading
    ensures reply.Ok? ==> r.state == s.(saving := false, error := None, proposals := [], acceptedCards := {}, generationId := None)
    ensures !reply.Ok? ==>
      && r.state.proposals == s.proposals && r.state.acceptedCards == s.acceptedCards
      && r.state.generationId == s.generationId
      && r.state.error == Some(FailureMessage(reply, SaveErrorMessage, SaveErrorMessage))
  {
    var payload := CreatePayload(s.generationId, Selection(s, kind));
    var started := s.(saving := true, error := None);
    match reply
    case Ok(_) => SaveResult(payload, started.(saving := false, proposals := [], acceptedCards := {}, generationId := None))
    case _ => SaveResult(payload, started.(saving := false, error := Some(FailureMessage(reply, SaveErrorMessage, SaveErrorMessage))))
  }

  /**
   * Saving the accepted cards sends the proposal at every accepted index on
   * the page and nothing else, in page order.
   */
  lemma SaveAcceptedSendsAcceptedInOrder(s: ViewState, reply: Reply<()>)
    ensures var p := HandleSave(s, SaveAccepted, reply).payload;
      var idx := SelectedIndices(|s.proposals|, s.acceptedCards);
      && |p| == |idx|
      && (forall j :: 0 <= j < |idx| ==>
            && idx[j] in s.acceptedCards
            && p[j].front == s.proposals[idx[j]].front
            && p[j].back == s.proposals[idx[j]].back
            && p[j].source == s.proposals[idx[j]].source)
      && (forall j, k :: 0 <= j < k < |idx| ==> idx[j] < idx[k])
      && (forall i :: 0 <= i < |s.proposals| && i in s.acceptedCards ==> i in idx)
  {
    forall i | 0 <= i < |s.proposals| && i in s.acceptedCards
      ensures i in SelectedIndices(|s.proposals|, s.acceptedCards)
    {
      SelectedIndicesComplete(|s.proposals|, s.acceptedCards, i);
    }
  }

  /** The props the page passes to the action buttons. */
  function Buttons(s: ViewState): ActionButtons.Props {
    ActionButtons.Props(s.saving, |s.acceptedCards|, |s.proposals|)
  }

  /**
   * On a page whose accepted indices are in range, "Save accepted" sends as
   * many cards as its label shows, and is enabled only when it sends at least one.
   */
  lemma SaveAcceptedMatchesLabel(s: ViewState, reply: Reply<()>)
    requires AcceptedInRange(s)
    ensures |HandleSave(s, SaveAccepted, reply).payload| == Buttons(s).acceptedCount
    ensures ActionButtons.SaveAcceptedEnabled(Buttons(s)) ==> |HandleSave(s, SaveAccepted, reply).payload| > 0
  {
    SelectedIndicesCount(|s.proposals|, s.acceptedCards);
    assert AcceptedBelow(s.acceptedCards, |s.proposals|) == s.acceptedCards;
  }

  /** Every transition keeps the accepted indices in range, provided accepted cards come from the page. */
  lemma TransitionsKeepAcceptedInRange(s: ViewState, gen: Reply<GenerateResponse>, index: int, kind: SaveKind, save: Reply<()>)
    requires AcceptedInRange(s)
    ensures AcceptedInRange(HandleGenerateSubmit(s, gen))
    ensures 0 <= index < |s.proposals| ==> AcceptedInRange(Accept(s, index))
    ensures AcceptedInRange(HandleSave(s, kind, save).state)
  {
  }
}
