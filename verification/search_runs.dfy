/**
 * Sequences of the search view's handler phases, and what holds of every state
 * such a sequence reaches.
 */
module SearchRuns {
  import opened Wrappers
  import opened Context
  import opened Replies
  import opened Dialog
  import opened Search

  /** A handler phase that changes the view's or the store's cells. */
  datatype ViewEvent =
    | Typed(value: string)
    | Submitted
    | SubmitDelayOver
    | LookupReplied(lookup: LookupReply)
    | WaitOver
    | ModalOpened
    | ModalClosed
    | DeleteFinished(deletion: DeleteReply, value: string)

  /**
   * One phase. A submit does nothing while the submit button is disabled, and the
   * dialog can only be opened from the trash button of a shown product.
   */
  function Step(s: ViewState, e: ViewEvent): ViewState
  {
    match e
    case Typed(v) => AfterIdChange(s, v)
    case Submitted => if s.btn then s else AfterSearchStart(s)
    case SubmitDelayOver => AfterSearchDelay(s)
    case LookupReplied(reply) => AfterLookup(s, reply)
    case WaitOver => AfterMessageWait(s)
    case ModalOpened => if s.producto.Data? then AfterOpenModal(s) else s
    case ModalClosed => AfterCloseModal(s)
    case DeleteFinished(reply, value) => AfterDeleteSettled(s, reply, value)
  }

  /** The state after the phases `evs`, in order. */
  function Run(s: ViewState, evs: seq<ViewEvent>): ViewState
    decreases |evs|
  {
    if evs == [] then s else Step(Run(s, evs[..|evs| - 1]), evs[|evs| - 1])
  }

  /**
   * What every reachable state satisfies: the identifier is all digits; a stored
   * response always carries a message; the delete signal is only set together
   * with a response; and a message object in the view always carries a message.
   */
  predicate Consistent(s: ViewState)
  {
    && MatchesDigits(s.cells.idproducto)
    && (s.cells.resjson.Notice? ==> HasMessage(s.cells.resjson))
    && (s.cells.btnValueEliminar != "" ==> s.cells.resjson.Notice?)
    && (s.globalErrorMsg.Shown? ==> HasMessage(s.globalErrorMsg.payload))
  }

  /** The initial state is consistent, shows no alert and no product, and its submit button is disabled. */
  lemma InitialStateIsQuiet()
    ensures Consistent(InitialState())
    ensures !AlertShown(InitialState().globalErrorMsg) && !InitialState().producto.Data?
    ensures InitialState().btn && !InitialState().modal
    ensures AfterObserve(InitialState()) == InitialState()
  {
  }

  lemma StepKeepsConsistent(s: ViewState, e: ViewEvent)
    requires Consistent(s)
    ensures Consistent(Step(s, e))
  {
  }

  lemma {:induction false} RunKeepsConsistent(s: ViewState, evs: seq<ViewEvent>)
    requires Consistent(s)
    ensures Consistent(Run(s, evs))
    decreases |evs|
  {
    if evs != [] {
      RunKeepsConsistent(s, evs[..|evs| - 1]);
      StepKeepsConsistent(Run(s, evs[..|evs| - 1]), evs[|evs| - 1]);
    }
  }

  /**
   * From the start, whatever happens: the identifier stays all digits, and
   * whenever `globalErrorMsg` holds an object the alert is rendered.
   */
  lemma ReachableStates(evs: seq<ViewEvent>)
    ensures MatchesDigits(Run(InitialState(), evs).cells.idproducto)
    ensures Run(InitialState(), evs).globalErrorMsg.Shown? ==> AlertShown(Run(InitialState(), evs).globalErrorMsg)
  {
    InitialStateIsQuiet();
    RunKeepsConsistent(InitialState(), evs);
  }

  predicate NoDeletion(evs: seq<ViewEvent>)
  {
    forall i :: 0 <= i < |evs| ==> !evs[i].DeleteFinished?
  }

  /**
   * Until a deletion completes, the delete signal stays empty and `resjson` stays
   * `{}`, so the observer changes nothing and the product is never blanked by it.
   */
  lemma {:induction false} ObserverInertWithoutDeletion(s: ViewState, evs: seq<ViewEvent>)
    requires s.cells.btnValueEliminar == "" && s.cells.resjson == EmptyObject && !s.producto.Blank?
    requires NoDeletion(evs)
    ensures Run(s, evs).cells.btnValueEliminar == "" && Run(s, evs).cells.resjson == EmptyObject
    ensures !Run(s, evs).producto.Blank?
    ensures AfterObserve(Run(s, evs)) == Run(s, evs)
    decreases |evs|
  {
    if evs != [] {
      assert NoDeletion(evs[..|evs| - 1]);
      ObserverInertWithoutDeletion(s, evs[..|evs| - 1]);
      assert !evs[|evs| - 1].DeleteFinished?;
    }
  }

  /**
   * The value the most recent spinner write in `evs`, run from `s`, stored, if
   * any: a submit writes only when the submit button was enabled.
   */
  function LatestSearchSpinner(s: ViewState, evs: seq<ViewEvent>): Option<bool>
    decreases |evs|
  {
    if evs == [] then None
    else match evs[|evs| - 1]
      case Submitted =>
        if Run(s, evs[..|evs| - 1]).btn then LatestSearchSpinner(s, evs[..|evs| - 1]) else Some(true)
      case SubmitDelayOver => Some(false)
      case _ => LatestSearchSpinner(s, evs[..|evs| - 1])
  }

  /**
   * The spinner shows exactly when the latest accepted start-or-end-of-delay
   * phase was a start: it is off while the lookup is in flight, and overlapping
   * searches are not guarded against.
   */
  lemma {:induction false} SearchSpinnerIsLatestWrite(s: ViewState, evs: seq<ViewEvent>)
    ensures Run(s, evs).spinner == match LatestSearchSpinner(s, evs)
                                    case Some(b) => b
                                    case None => s.spinner
    decreases |evs|
  {
    if evs != [] {
      SearchSpinnerIsLatestWrite(s, evs[..|evs| - 1]);
    }
  }

  /** While the submit button is disabled, a submit changes nothing; in particular not from the start. */
  lemma SubmitIgnoredWhileDisabled(s: ViewState)
    requires s.btn
    ensures Step(s, Submitted) == s
    ensures Step(InitialState(), Submitted) == InitialState()
  {
  }

  /**
   * A value the filter rejects still sets `btn` from itself: from the start,
   * typing "-1" leaves the identifier empty yet enables the submit button, and
   * the search then started looks up the empty identifier.
   */
  lemma RejectedValueEnablesSubmit()
    ensures Run(InitialState(), [Typed("-1")]).cells.idproducto == ""
    ensures !Run(InitialState(), [Typed("-1")]).btn
    ensures Run(InitialState(), [Typed("-1"), Submitted]).spinner
    ensures LookupUrl(Run(InitialState(), [Typed("-1"), Submitted]).cells.idproducto) == "/consultar/"
  {
    assert !IsDigit('-');
    assert [Typed("-1"), Submitted][..1] == [Typed("-1")];
    assert [Typed("-1")][..0] == [];
  }

  /**
   * A press on the spinner's label, while an earlier deletion is still in its
   * 1 s wait, writes an empty signal when its request settles: the dialog is
   * removed but the product stays and the outcome is not shown.
   */
  lemma LabelPressHidesOutcome(s: ViewState, reply: DeleteReply)
    ensures PressedValue(true, true) == ""
    ensures Step(s, DeleteFinished(reply, PressedValue(true, true))).producto == s.producto
    ensures Step(s, DeleteFinished(reply, PressedValue(true, true))).globalErrorMsg == s.globalErrorMsg
    ensures !Step(s, DeleteFinished(reply, PressedValue(true, true))).modal
  {
  }

  /**
   * The end of any 3 s wait clears whatever message shows, a deletion's message
   * included: a wait is not tied to the message it was started for.
   */
  lemma AnyWaitClearsDeletionMessage(s: ViewState, reply: DeleteReply)
    ensures AlertShown(Step(s, DeleteFinished(reply, BUTTON_VALUE)).globalErrorMsg)
    ensures Run(s, [DeleteFinished(reply, BUTTON_VALUE), WaitOver]).globalErrorMsg == NoBanner
  {
    assert [DeleteFinished(reply, BUTTON_VALUE), WaitOver][..1] == [DeleteFinished(reply, BUTTON_VALUE)];
    assert [DeleteFinished(reply, BUTTON_VALUE)][..0] == [];
  }
}
