/**
 * `Screen`: the generation page together with the list it mounts. The list
 * keeps its own accepted and rejected sets for as long as it stays mounted.
 * The page passes `onAccept` to the list but no `onReject`.
 *
 * Mounting is an assumption of this module, not a consequence of the page:
 * the list is taken to stay mounted exactly while the page has proposals.
 * On the page it is the last of three keyless `motion.div` children of
 * `AnimatePresence`, and the error and loader blocks that appear ahead of it
 * may make the reconciler remount it; that depends on how `AnimatePresence`
 * reconciles keyless children, which is outside this model.
 *
 * `StepAsWritten` composes the two under that assumption: a successful
 * regeneration replaces the proposals under a list that stays mounted, so
 * the list keeps the previous generation's marks. `StepCorrected` gives the
 * list a fresh state for each generation, and keeps the list's accepted set
 * equal to the page's.
 */
module Screen {
  import opened Wrappers
  import opened GenerationsView
  import FL = FlashcardsList

  datatype Screen = Screen(view: ViewState, list: FL.ListState)

  const Start: Screen := Screen(Initial, FL.Fresh)

  /** What the user (or a reply) does on the page. */
  datatype Event =
    | Generated(reply: Reply<GenerateResponse>)
    | Clicked(click: FL.Click)
    | Saved(kind: SaveKind, saveReply: Reply<()>)

  /** Assumed: the list is mounted exactly while there are proposals to show. */
  predicate Mounted(v: ViewState) {
    |v.proposals| > 0
  }

  /** An unmounted list has no state; the next mount starts from `Fresh`. */
  function Settle(v: ViewState, l: FL.ListState): (r: FL.ListState)
    ensures !Mounted(v) ==> r == FL.Fresh
    ensures Mounted(v) ==> r == l
  {
    if Mounted(v) then l else FL.Fresh
  }

  /** The page's `handleAccept` applied to every call the list forwards; no `onReject` is wired. */
  function ApplyForwards(v: ViewState, fs: seq<FL.Forward>): (r: ViewState)
    ensures r == v.(acceptedCards := r.acceptedCards)
    ensures forall i :: i in r.acceptedCards <==> i in v.acceptedCards || i in FL.Indices(fs, FL.AcceptButton)
    decreases |fs|
  {
    if fs == [] then v
    else if fs[0].button == FL.AcceptButton then ApplyForwards(Accept(v, fs[0].index), fs[1..])
    else ApplyForwards(v, fs[1..])
  }

  /** A click on a card that is on the page goes through the list; any other click does nothing. */
  function ClickStep(sc: Screen, c: FL.Click): (r: Screen)
    ensures r.view == sc.view.(acceptedCards := r.view.acceptedCards)
    ensures sc.view.acceptedCards <= r.view.acceptedCards
  {
    if Mounted(sc.view) && 0 <= c.index < |sc.view.proposals| then
      var (l, fs) := FL.Step(sc.list, c, true, false);
      Screen(ApplyForwards(sc.view, fs), l)
    else sc
  }

  /** One event, composed as the page composes it. */
  function StepAsWritten(sc: Screen, e: Event): (r: Screen)
    ensures e.Generated? && e.reply.Ok? && Mounted(sc.view) && Mounted(r.view) ==> r.list == sc.list
  {
    match e
    case Generated(reply) =>
      var v := HandleGenerateSubmit(sc.view, reply);
      Screen(v, Settle(v, sc.list))
    case Clicked(c) => ClickStep(sc, c)
    case Saved(kind, reply) =>
      var v := HandleSave(sc.view, kind, reply).state;
      Screen(v, Settle(v, sc.list))
  }

  /** One event, with the list given a fresh state for each new generation. */
  function StepCorrected(sc: Screen, e: Event): (r: Screen)
    ensures e.Generated? && e.reply.Ok? ==> r.list == FL.Fresh && r.view.acceptedCards == {}
    ensures !e.Generated? || !e.reply.Ok? ==> r == StepAsWritten(sc, e)
  {
    match e
    case Generated(reply) =>
      var v := HandleGenerateSubmit(sc.view, reply);
      Screen(v, if reply.Ok? then FL.Fresh else Settle(v, sc.list))
    case _ => StepAsWritten(sc, e)
  }

  function RunAsWritten(sc: Screen, events: seq<Event>): Screen
    decreases |events|
  {
    if events == [] then sc else RunAsWritten(StepAsWritten(sc, events[0]), events[1..])
  }

  function RunCorrected(sc: Screen, events: seq<Event>): Screen
    decreases |events|
  {
    if events == [] then sc else RunCorrected(StepCorrected(sc, events[0]), events[1..])
  }

  /**
   * The page and the list agree: the list shows accepted exactly the cards
   * the page will save as accepted, no card is both accepted and rejected,
   * every mark names a card on the page, and an unmounted list is fresh.
   */
  predicate Synced(sc: Screen) {
    && sc.list.accepted == sc.view.acceptedCards
    && FL.Disjoint(sc.list)
    && AcceptedInRange(sc.view)
    && (forall i :: i in sc.list.rejected ==> 0 <= i < |sc.view.proposals|)
    && (!Mounted(sc.view) ==> sc.list == FL.Fresh)
  }

  lemma StartSynced()
    ensures Synced(Start)
  {
  }

  lemma ClickKeepsSynced(sc: Screen, c: FL.Click)
    requires Synced(sc)
    ensures Synced(ClickStep(sc, c))
  {
    if Mounted(sc.view) && 0 <= c.index < |sc.view.proposals| {
      var (l, fs) := FL.Step(sc.list, c, true, false);
      if FL.Clickable(sc.list, c.index, c.button) {
        if c.button == FL.AcceptButton {
          assert fs == [FL.Forward(FL.AcceptButton, c.index)];
          assert FL.Indices(fs, FL.AcceptButton) == [c.index] by {
            assert fs[1..] == [];
          }
        } else {
          assert fs == [];
        }
      }
    }
  }

  /** Every event of the corrected page keeps the page and the list in agreement. */
  lemma StepCorrectedKeepsSynced(sc: Screen, e: Event)
    requires Synced(sc)
    ensures Synced(StepCorrected(sc, e))
  {
    match e
    case Clicked(c) => ClickKeepsSynced(sc, c);
    case Generated(reply) =>
    case Saved(kind, reply) =>
  }

  lemma {:induction false} RunCorrectedKeepsSynced(sc: Screen, events: seq<Event>)
    requires Synced(sc)
    ensures Synced(RunCorrected(sc, events))
    decreases |events|
  {
    if events != [] {
      StepCorrectedKeepsSynced(sc, events[0]);
      RunCorrectedKeepsSynced(StepCorrected(sc, events[0]), events[1..]);
    }
  }

  /**
   * On an agreeing page, a card's Accept button can be clicked exactly when
   * the card is neither saved-as-accepted nor rejected, "Save accepted" sends
   * no rejected card, and "Save all" still sends the rejected ones.
   */
  lemma SyncedButtons(sc: Screen, i: int, reply: Reply<()>)
    requires Synced(sc) && 0 <= i < |sc.view.proposals|
    ensures FL.Clickable(sc.list, i, FL.AcceptButton) <==> i !in sc.view.acceptedCards && i !in sc.list.rejected
    ensures var idx := SelectedIndices(|sc.view.proposals|, sc.view.acceptedCards);
      forall j :: 0 <= j < |idx| ==> idx[j] !in sc.list.rejected
    ensures |HandleSave(sc.view, SaveAll, reply).payload| == |sc.view.proposals|
  {
  }

  const Card: Proposal := Proposal("front", "back", "ai-full")

  /** Generate two cards, accept the first, generate two cards again. */
  const Regenerate: seq<Event> := [
    Generated(Ok(GenerateResponse(1, [Card, Card]))),
    Clicked(FL.Click(0, FL.AcceptButton)),
    Generated(Ok(GenerateResponse(2, [Card, Card])))
  ]

  /**
   * As written, after a regeneration the list still shows the first card as
   * accepted while the page has accepted nothing, and that card's Accept
   * button can no longer be clicked.
   */
  lemma RegenerateKeepsStaleMarks()
    ensures var sc := RunAsWritten(Start, Regenerate);
      && sc.view.acceptedCards == {}
      && sc.list.accepted == {0}
      && !FL.Clickable(sc.list, 0, FL.AcceptButton)
      && !Synced(sc)
  {
    var s1 := StepAsWritten(Start, Regenerate[0]);
    assert s1.list == FL.Fresh;
    var s2 := StepAsWritten(s1, Regenerate[1]);
    assert s2.list.accepted == {0};
    var s3 := StepAsWritten(s2, Regenerate[2]);
    assert RunAsWritten(Start, Regenerate) == RunAsWritten(s1, Regenerate[1..]);
    assert RunAsWritten(s1, Regenerate[1..]) == RunAsWritten(s2, Regenerate[2..]);
    assert RunAsWritten(s2, Regenerate[2..]) == RunAsWritten(s3, []);
  }

  /** Only clicks. */
  predicate ClicksOnly(events: seq<Event>) {
    forall k :: 0 <= k < |events| ==> events[k].Clicked?
  }

  /**
   * As written, once the list shows a card accepted that the page has not
   * accepted, no sequence of clicks puts that card into the saved selection.
   */
  lemma {:induction false} StaleCardNeverSelected(sc: Screen, events: seq<Event>, i: int)
    requires i in sc.list.accepted && i !in sc.view.acceptedCards
    requires ClicksOnly(events)
    ensures var r := RunAsWritten(sc, events); i in r.list.accepted && i !in r.view.acceptedCards
    decreases |events|
  {
    if events != [] {
      var c := events[0].click;
      var next := StepAsWritten(sc, events[0]);
      if Mounted(sc.view) && 0 <= c.index < |sc.view.proposals| {
        var (l, fs) := FL.Step(sc.list, c, true, false);
        if FL.Clickable(sc.list, c.index, c.button) && c.button == FL.AcceptButton {
          assert FL.Indices(fs, FL.AcceptButton) == [c.index] by {
            assert fs[1..] == [];
          }
        } else if FL.Clickable(sc.list, c.index, c.button) {
          assert fs == [];
        }
      }
      assert ClicksOnly(events[1..]) by {
        forall k | 0 <= k < |events[1..]| ensures events[1..][k].Clicked? {
          assert events[1..][k] == events[k + 1];
        }
      }
      StaleCardNeverSelected(next, events[1..], i);
    }
  }

  /** The same events on the corrected page leave the page and the list in agreement. */
  lemma RegenerateCorrected()
    ensures var sc := RunCorrected(Start, Regenerate);
      && sc.view.acceptedCards == {} && sc.list == FL.Fresh
      && FL.Clickable(sc.list, 0, FL.AcceptButton)
  {
    StartSynced();
    RunCorrectedKeepsSynced(Start, Regenerate);
    var s1 := StepCorrected(Start, Regenerate[0]);
    var s2 := StepCorrected(s1, Regenerate[1]);
    var s3 := StepCorrected(s2, Regenerate[2]);
    assert RunCorrected(Start, Regenerate) == RunCorrected(s1, Regenerate[1..]);
    assert RunCorrected(s1, Regenerate[1..]) == RunCorrected(s2, Regenerate[2..]);
    assert RunCorrected(s2, Regenerate[2..]) == RunCorrected(s3, []);
  }
}
