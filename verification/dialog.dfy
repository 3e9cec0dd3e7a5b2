/**
 * The confirmation dialog of Modal.jsx. It is mounted by the search view with
 * the product's id and name and the view's close handler as `onClose`. Its own
 * state is `open` and `spinner`; the delete handler writes the shared `resjson`
 * and delete signal and calls `onClose` in its `finally` block.
 *
 * The dialog cannot see the view, so each handler that calls `onClose` returns
 * how many times it did (or the ordered trace of its effects), and the view
 * runs its close handler for them.
 */
module Dialog {
  import opened Context
  import opened Replies
  import opened Wrappers

  /** The `value` attribute of the delete button. */
  const BUTTON_VALUE := "eliminar"

  /** The message shown after a successful delete whose reply brings no message. */
  const DELETED_MSG := "Producto Eliminado"

  /**
   * `e.target.value` of a press on the delete button. While the spinner shows,
   * the button holds a label with an icon, and a press on the label targets an
   * element that has no value: `undefined`, modelled as the empty string, since
   * its one reader only tests truthiness. Otherwise the target is the button.
   */
  function PressedValue(spinner: bool, onLabel: bool): (v: string)
    ensures !spinner || !onLabel ==> v == BUTTON_VALUE
    ensures spinner && onLabel ==> v == ""
  {
    if spinner && onLabel then "" else BUTTON_VALUE
  }

  /** What a run of `eliminarProducto` captured at the press: the product id of that render and the event's target value. */
  datatype DeleteTask = DeleteTask(idproducto: string, value: string)

  /** The dialog's own state cells. */
  datatype DialogCells = DialogCells(open: bool, spinner: bool)

  /** Both cells as the dialog mounts. */
  function InitialDialog(): DialogCells
  {
    DialogCells(true, false)
  }

  /** The Cancel button is disabled exactly while the spinner shows. */
  predicate CancelDisabled(d: DialogCells)
  {
    d.spinner
  }

  /**
   * `handleOnClose`: ignored while the spinner shows; otherwise the dialog is
   * hidden and `onClose` is called once. The second component is the number of
   * `onClose` calls.
   */
  function CloseGuard(d: DialogCells): (r: (DialogCells, nat))
    ensures d.spinner ==> r == (d, 0)
    ensures !d.spinner ==> r.0 == DialogCells(false, false) && r.1 == 1
  {
    if d.spinner then (d, 0) else (d.(open := false), 1)
  }

  /** Closing does nothing exactly when the Cancel button is disabled, and calls `onClose` at most once. */
  lemma CloseIgnoredIffCancelDisabled(d: DialogCells)
    ensures CancelDisabled(d) <==> CloseGuard(d).1 == 0
    ensures CloseGuard(d).1 <= 1
  {
  }

  /** The first phase of `eliminarProducto`: the spinner is shown, nothing else changes. */
  function AfterConfirm(d: DialogCells): (r: DialogCells)
    ensures r.spinner && r.open == d.open
  {
    d.(spinner := true)
  }

  /** The end of the 1 s wait: the spinner is hidden before the DELETE request is made. */
  function AfterConfirmDelay(d: DialogCells): (r: DialogCells)
    ensures !r.spinner && r.open == d.open
  {
    d.(spinner := false)
  }

  /**
   * What `resjson` becomes when the DELETE request settles: the reply's message or
   * a fixed one, flagged `error: true` on success and `error: false` on failure.
   */
  function DeletePayload(reply: DeleteReply): (p: Payload)
    ensures HasMessage(p)
    ensures p.error <==> reply.DeleteOk?
    ensures reply.DeleteOk? && reply.msg.Some? && reply.msg.value != "" ==> p.msg == reply.msg.value
    ensures reply.DeleteOk? && (reply.msg.None? || reply.msg.value == "") ==> p.msg == DELETED_MSG
    ensures reply.DeleteErr? && reply.msg.Some? && reply.msg.value != "" ==> p.msg == reply.msg.value
    ensures reply.DeleteErr? && (reply.msg.None? || reply.msg.value == "") ==> p.msg == REQUEST_ERROR
  {
    match reply
    case DeleteOk(m) => Notice(MsgOr(m, DELETED_MSG), true)
    case DeleteErr(m) => Notice(MsgOr(m, REQUEST_ERROR), false)
  }

  /**
   * The shared cells after the DELETE request settles: the response is stored and
   * the signal is set to the pressed element's value, whatever the outcome; the
   * identifier is untouched.
   */
  function SettleCells(c: Cells, reply: DeleteReply, value: string): (r: Cells)
    ensures r.resjson == DeletePayload(reply) && HasMessage(r.resjson)
    ensures r.btnValueEliminar == value
    ensures r.idproducto == c.idproducto
  {
    c.(resjson := DeletePayload(reply), btnValueEliminar := value)
  }

  /** An observable effect of the delete handler's last phase. */
  datatype Effect = WroteResponse(payload: Payload) | CalledOnClose | WroteSignal(value: string)

  /** How many times a trace calls `onClose`. */
  function OnCloseCalls(e: seq<Effect>): nat
  {
    if e == [] then 0 else (if e[0] == CalledOnClose then 1 else 0) + OnCloseCalls(e[1..])
  }

  /** How many times a trace writes the delete signal. */
  function SignalWrites(e: seq<Effect>): nat
  {
    if e == [] then 0 else (if e[0].WroteSignal? then 1 else 0) + SignalWrites(e[1..])
  }

  /**
   * The effects of the last phase, in order: the response is written first (in
   * the `try` or the `catch`), then the `finally` block calls `onClose` once and
   * writes the signal once, last.
   */
  function SettleEffects(reply: DeleteReply, value: string): (e: seq<Effect>)
    ensures |e| > 0 && e[0] == WroteResponse(DeletePayload(reply))
    ensures e[|e| - 1] == WroteSignal(value)
    ensures OnCloseCalls(e) == 1 && SignalWrites(e) == 1
  {
    var e := [WroteResponse(DeletePayload(reply)), CalledOnClose, WroteSignal(value)];
    assert e[1..] == [CalledOnClose, WroteSignal(value)];
    assert e[1..][1..] == [WroteSignal(value)];
    assert e[1..][1..][1..] == [];
    assert OnCloseCalls(e[1..][1..]) == 0 && SignalWrites(e[1..][1..]) == 1;
    assert OnCloseCalls(e[1..]) == 1 && SignalWrites(e[1..]) == 1;
    e
  }

  /** The dialog's handler phases, as inputs of a run. */
  datatype DialogEvent = Confirm | ConfirmDelayOver | Dismiss | Settle(reply: DeleteReply)

  /** One handler phase on the dialog's own cells; settling touches only the shared store. */
  function DialogStep(d: DialogCells, ev: DialogEvent): DialogCells
  {
    match ev
    case Confirm => AfterConfirm(d)
    case ConfirmDelayOver => AfterConfirmDelay(d)
    case Dismiss => CloseGuard(d).0
    case Settle(_) => d
  }

  /** The dialog's cells after a sequence of handler phases. */
  function DialogRun(d: DialogCells, evs: seq<DialogEvent>): DialogCells
    decreases |evs|
  {
    if evs == [] then d else DialogStep(DialogRun(d, evs[..|evs| - 1]), evs[|evs| - 1])
  }

  /** The value the most recent spinner write in `evs` stored, if any. */
  function LatestSpinnerWrite(evs: seq<DialogEvent>): Option<bool>
    decreases |evs|
  {
    if evs == [] then None
    else match evs[|evs| - 1]
      case Confirm => Some(true)
      case ConfirmDelayOver => Some(false)
      case _ => LatestSpinnerWrite(evs[..|evs| - 1])
  }

  /**
   * The spinner shows exactly when the latest start-or-end-of-delay phase was a
   * start: it is not held while the DELETE request is in flight, and overlapping
   * deletions are not guarded against.
   */
  lemma {:induction false} SpinnerIsLatestWrite(d: DialogCells, evs: seq<DialogEvent>)
    ensures DialogRun(d, evs).spinner == match LatestSpinnerWrite(evs)
                                          case Some(b) => b
                                          case None => d.spinner
    decreases |evs|
  {
    if evs != [] {
      SpinnerIsLatestWrite(d, evs[..|evs| - 1]);
    }
  }

  /** Once hidden, the dialog stays hidden: no phase sets `open` back to true. */
  lemma {:induction false} HiddenStaysHidden(d: DialogCells, evs: seq<DialogEvent>)
    requires !d.open
    ensures !DialogRun(d, evs).open
    decreases |evs|
  {
    if evs != [] {
      HiddenStaysHidden(d, evs[..|evs| - 1]);
    }
  }

  class ConfirmDialog {
    const store: Store
    /** The props of the latest render. */
    var idproducto: string
    var nombre: string
    var open: bool
    var spinner: bool

    /** The current value of the dialog's own cells. */
    function Cells(): DialogCells
      reads this
    {
      DialogCells(open, spinner)
    }

    /** Mounting: shown, spinner hidden, bound to the shared store and the product's id and name. */
    constructor (store: Store, idproducto: string, nombre: string)
      ensures this.store == store && this.idproducto == idproducto && this.nombre == nombre
      ensures Cells() == InitialDialog()
    {
      this.store := store;
      this.idproducto := idproducto;
      this.nombre := nombre;
      open := true;
      spinner := false;
    }

    /** A render of the view passes the current product's id and name as props again. */
    method Rerender(idproducto: string, nombre: string)
      modifies this`idproducto, this`nombre
      ensures this.idproducto == idproducto && this.nombre == nombre
    {
      this.idproducto := idproducto;
      this.nombre := nombre;
    }

    /** `handleOnClose`, returning the number of `onClose` calls it made. */
    method HandleOnClose() returns (onCloseCalls: nat)
      modifies this`open
      ensures (Cells(), onCloseCalls) == CloseGuard(old(Cells()))
    {
      if spinner {
        return 0;
      }
      open := false;
      onCloseCalls := 1;
    }

    /**
     * `eliminarProducto`, up to its 1 s wait, for a press on the button's label
     * (`onLabel`) or elsewhere on the button; returns what its closure and event captured.
     */
    method EliminarStart(onLabel: bool) returns (task: DeleteTask)
      modifies this`spinner
      ensures task == DeleteTask(idproducto, PressedValue(old(spinner), onLabel))
      ensures Cells() == AfterConfirm(old(Cells()))
    {
      task := DeleteTask(idproducto, PressedValue(spinner, onLabel));
      spinner := true;
    }

    /** `eliminarProducto` after its 1 s wait: hides the spinner and issues the DELETE request at `url`. */
    method EliminarDelayOver(task: DeleteTask) returns (url: string)
      modifies this`spinner
      ensures Cells() == AfterConfirmDelay(old(Cells()))
      ensures url == "/eliminar/" + task.idproducto
    {
      spinner := false;
      url := "/eliminar/" + task.idproducto;
    }

    /**
     * `eliminarProducto` once the DELETE request settles: the `try`/`catch` write of
     * `resjson`, then the `finally` block. Returns the ordered effects, whose
     * `onClose` call the owner of the callback carries out.
     */
    method EliminarSettled(task: DeleteTask, reply: DeleteReply) returns (effects: seq<Effect>)
      modifies store
      ensures store.Snapshot() == SettleCells(old(store.Snapshot()), reply, task.value)
      ensures effects == SettleEffects(reply, task.value)
    {
      var p := DeletePayload(reply);
      store.SetResjson(p);
      effects := [WroteResponse(p), CalledOnClose];
      store.SetBtnValueEliminar(task.value);
      effects := effects + [WroteSignal(task.value)];
    }
  }
}
