/**
 * The search view of BuscarEliminar.jsx. Its own state cells are `spinner`,
 * `btn` (the submit button is disabled while it is true), `globalErrorMsg`,
 * `producto` and `modal`; it shares the identifier, the delete signal and the
 * last delete response with the dialog through the Store. Every `await` of a
 * handler ends one phase: the phases are separate methods, called in whatever
 * order the user, the timers and the network produce, with no guard against
 * overlapping runs of the same handler, exactly as in the code.
 */
module Search {
  import opened Context
  import opened Replies
  import opened Dialog

  predicate IsDigit(c: char)
  {
    '0' <= c <= '9'
  }

  /** `/^\d*$/.test(s)`, matched one character at a time: only decimal digits, the empty string included. */
  function MatchesDigits(s: string): (b: bool)
    ensures b <==> forall i :: 0 <= i < |s| ==> IsDigit(s[i])
  {
    if s == [] then true else IsDigit(s[0]) && MatchesDigits(s[1..])
  }

  /** The value of `producto`: `null`, the empty string the observer stores, or the product found. */
  datatype Producto = Null | Blank | Data(product: Product)

  /** The value of `globalErrorMsg`: the empty string, or a `{msg, error}` object. */
  datatype Banner = NoBanner | Shown(payload: Payload)

  /** `globalErrorMsg.msg && <Alert/>`: the alert is rendered exactly when the object has a non-empty message. */
  predicate AlertShown(b: Banner)
  {
    b.Shown? && HasMessage(b.payload)
  }

  /** The view's cells together with the shared store's cells. */
  datatype ViewState = ViewState(
    cells: Cells,
    spinner: bool,
    btn: bool,
    globalErrorMsg: Banner,
    producto: Producto,
    modal: bool)

  /** The view's own cells as it mounts over the store's current cells, before its mount-time effect. */
  function Mounted(c: Cells): ViewState
  {
    ViewState(c, false, true, NoBanner, Null, false)
  }

  /** The state of the application as it starts: a fresh store and a freshly mounted view. */
  function InitialState(): ViewState
  {
    Mounted(InitialCells())
  }

  /**
   * `handleIdProductoChange`: the identifier takes the typed value only when it
   * is all digits; `btn` follows the typed value whether or not it was accepted.
   * Nothing else changes.
   */
  function AfterIdChange(s: ViewState, value: string): (r: ViewState)
    ensures MatchesDigits(value) ==> r.cells.idproducto == value
    ensures !MatchesDigits(value) ==> r.cells.idproducto == s.cells.idproducto
    ensures r.btn <==> value == ""
    ensures r == s.(cells := s.cells.(idproducto := r.cells.idproducto), btn := r.btn)
  {
    var id := if MatchesDigits(value) then value else s.cells.idproducto;
    s.(cells := s.cells.(idproducto := id), btn := value == "")
  }

  /** `handleBuscar` up to its 1 s wait: the message and the product are cleared and the spinner shows. */
  function AfterSearchStart(s: ViewState): (r: ViewState)
    ensures r.globalErrorMsg == NoBanner && !AlertShown(r.globalErrorMsg)
    ensures r.producto == Null && r.spinner
    ensures r.cells == s.cells && r.btn == s.btn && r.modal == s.modal
  {
    s.(globalErrorMsg := NoBanner, producto := Null, spinner := true)
  }

  /** `handleBuscar` after its 1 s wait: the spinner is hidden before the request is made. */
  function AfterSearchDelay(s: ViewState): (r: ViewState)
    ensures !r.spinner
    ensures r == s.(spinner := r.spinner)
  {
    s.(spinner := false)
  }

  /**
   * `handleBuscar` once the lookup settles. On success the product is shown,
   * the identifier is cleared and the submit button is disabled; on failure the
   * message is the error's `msg`, or the fixed text when it is absent or empty,
   * flagged `error: false`.
   */
  function AfterLookup(s: ViewState, reply: LookupReply): (r: ViewState)
    ensures reply.LookupOk? ==> r.producto == Data(reply.data) && r.cells.idproducto == "" && r.btn
    ensures reply.LookupOk? ==> r.globalErrorMsg == s.globalErrorMsg
    ensures reply.LookupErr? ==> r.producto == s.producto && r.cells == s.cells && r.btn == s.btn
    ensures reply.LookupErr? ==> AlertShown(r.globalErrorMsg) && !r.globalErrorMsg.payload.error
    ensures reply.LookupErr? && reply.msg.Some? && reply.msg.value != "" ==>
      r.globalErrorMsg.payload.msg == reply.msg.value
    ensures reply.LookupErr? && (reply.msg.None? || reply.msg.value == "") ==>
      r.globalErrorMsg.payload.msg == REQUEST_ERROR
    ensures r.spinner == s.spinner && r.modal == s.modal
    ensures r.cells.btnValueEliminar == s.cells.btnValueEliminar && r.cells.resjson == s.cells.resjson
  {
    match reply
    case LookupOk(data) =>
      s.(producto := Data(data), cells := s.cells.(idproducto := ""), btn := true)
    case LookupErr(m) =>
      s.(globalErrorMsg := Shown(Notice(MsgOr(m, REQUEST_ERROR), false)))
  }

  /** The end of either 3 s wait (the lookup's `finally`, or `msgEliminado`): the message is cleared. */
  function AfterMessageWait(s: ViewState): (r: ViewState)
    ensures r.globalErrorMsg == NoBanner && !AlertShown(r.globalErrorMsg)
    ensures r == s.(globalErrorMsg := r.globalErrorMsg)
  {
    s.(globalErrorMsg := NoBanner)
  }

  /** `handleOpenModal`: the dialog is to be shown. */
  function AfterOpenModal(s: ViewState): (r: ViewState)
    ensures r.modal
    ensures r == s.(modal := r.modal)
  {
    s.(modal := true)
  }

  /** `handleCloseModal`, the dialog's `onClose`: the dialog is to be removed. */
  function AfterCloseModal(s: ViewState): (r: ViewState)
    ensures !r.modal
    ensures r == s.(modal := r.modal)
  {
    s.(modal := false)
  }

  /**
   * The effect that runs when `resjson` changes: while the delete signal is empty
   * it does nothing; otherwise the product is cleared and `resjson` becomes the
   * message.
   */
  function AfterObserve(s: ViewState): (r: ViewState)
    ensures s.cells.btnValueEliminar == "" ==> r == s
    ensures s.cells.btnValueEliminar != "" ==> r.producto == Blank && r.globalErrorMsg == Shown(s.cells.resjson)
    ensures r == s.(producto := r.producto, globalErrorMsg := r.globalErrorMsg)
  {
    if s.cells.btnValueEliminar == "" then s
    else s.(producto := Blank, globalErrorMsg := Shown(s.cells.resjson))
  }

  /**
   * A DELETE request settles: the dialog writes the response and the signal (the
   * pressed element's `value`) and calls `onClose`, and the observer then reacts
   * to the new `resjson`. Whatever the outcome, the dialog is removed. When the
   * signal written is the button's value, the product is cleared and the
   * response's message is shown; when it is empty (a press on the spinner's
   * label), the observer sees a falsy signal and nothing else changes.
   */
  function AfterDeleteSettled(s: ViewState, reply: DeleteReply, value: string): (r: ViewState)
    ensures r.cells.resjson == DeletePayload(reply) && r.cells.btnValueEliminar == value
    ensures r.cells.idproducto == s.cells.idproducto
    ensures !r.modal
    ensures value != "" ==> r.producto == Blank
    ensures value != "" ==> r.globalErrorMsg == Shown(DeletePayload(reply)) && AlertShown(r.globalErrorMsg)
    ensures value == "" ==> r.producto == s.producto && r.globalErrorMsg == s.globalErrorMsg
    ensures r.spinner == s.spinner && r.btn == s.btn
  {
    AfterObserve(AfterCloseModal(s.(cells := SettleCells(s.cells, reply, value))))
  }

  /** The lookup request of a search whose closure captured identifier `id`. */
  function LookupUrl(id: string): (url: string)
    ensures |url| >= |"/consultar/"| && url[..|"/consultar/"|] == "/consultar/"
    ensures url[|"/consultar/"|..] == id
  {
    "/consultar/" + id
  }

  class SearchView {
    const store: Store
    var spinner: bool
    var btn: bool
    var globalErrorMsg: Banner
    var producto: Producto
    var modal: bool
    /** The mounted dialog, present exactly while `modal` is true. */
    var dialog: ConfirmDialog?

    /** The view's cells together with the store's. */
    function State(): ViewState
      reads this, store
    {
      ViewState(store.Snapshot(), spinner, btn, globalErrorMsg, producto, modal)
    }

    /**
     * The dialog is mounted exactly while `modal` is true, it shares the view's
     * store, and its props are the id and name of the product shown.
     */
    ghost predicate Valid()
      reads this, dialog
    {
      && (modal <==> dialog != null)
      && (dialog != null ==> dialog.store == store)
      && (dialog != null && producto.Data? ==>
            dialog.idproducto == producto.product.idproducto && dialog.nombre == producto.product.nombre)
    }

    /** Mounting: the view's cells start as declared, then the effect on `resjson` runs once. */
    constructor (store: Store)
      ensures this.store == store && Valid() && dialog == null
      ensures State() == AfterObserve(Mounted(store.Snapshot()))
    {
      this.store := store;
      spinner, btn, globalErrorMsg, producto, modal := false, true, NoBanner, Null, false;
      dialog := null;
      new;
      ObserveResjson();
    }

    method HandleIdProductoChange(value: string)
      requires Valid()
      modifies this, store
      ensures Valid()
      ensures State() == AfterIdChange(old(State()), value) && dialog == old(dialog)
    {
      if MatchesDigits(value) {
        store.SetIdProducto(value);
      }
      btn := value == "";
    }

    /**
     * `handleBuscar` up to its 1 s wait; returns the identifier its closure
     * captured. The form is submitted only through its submit button or the
     * input, and neither submits while the button is disabled.
     */
    method BuscarStart() returns (captured: string)
      requires Valid() && !btn
      modifies this
      ensures Valid()
      ensures captured == old(store.idproducto)
      ensures State() == AfterSearchStart(old(State())) && dialog == old(dialog)
    {
      captured := store.idproducto;
      globalErrorMsg := NoBanner;
      producto := Null;
      spinner := true;
    }

    /** `handleBuscar` after its 1 s wait: issues the lookup at `url`, built from the captured identifier. */
    method BuscarDelayOver(captured: string) returns (url: string)
      requires Valid()
      modifies this
      ensures Valid()
      ensures url == LookupUrl(captured)
      ensures State() == AfterSearchDelay(old(State())) && dialog == old(dialog)
    {
      spinner := false;
      url := LookupUrl(captured);
    }

    /**
     * `handleBuscar` once the lookup settles: the `try` or the `catch` block. A
     * mounted dialog is rendered again with the new product's id and name.
     */
    method BuscarSettled(reply: LookupReply)
      requires Valid()
      modifies this, store, dialog
      ensures Valid()
      ensures State() == AfterLookup(old(State()), reply) && dialog == old(dialog)
      ensures dialog != null ==> dialog.Cells() == old(dialog.Cells())
      ensures dialog != null && reply.LookupOk? ==>
        dialog.idproducto == reply.data.idproducto && dialog.nombre == reply.data.nombre
    {
      match reply
      case LookupOk(data) =>
        producto := Data(data);
        store.SetIdProducto("");
        btn := true;
        if dialog != null {
          dialog.Rerender(data.idproducto, data.nombre);
        }
      case LookupErr(m) =>
        globalErrorMsg := Shown(Notice(MsgOr(m, REQUEST_ERROR), false));
    }

    /** The `finally` block of `handleBuscar`, after its 3 s wait. */
    method BuscarWaitOver()
      requires Valid()
      modifies this
      ensures Valid()
      ensures State() == AfterMessageWait(old(State())) && dialog == old(dialog)
    {
      globalErrorMsg := NoBanner;
    }

    /** The effect on `resjson`, which runs at mount and whenever `resjson` is replaced. */
    method ObserveResjson()
      requires Valid()
      modifies this
      ensures Valid()
      ensures State() == AfterObserve(old(State())) && dialog == old(dialog)
    {
      if store.btnValueEliminar != "" {
        producto := Blank;
        globalErrorMsg := Shown(store.resjson);
      }
    }

    /** `msgEliminado` after its 3 s wait. */
    method MsgEliminadoWaitOver()
      requires Valid()
      modifies this
      ensures Valid()
      ensures State() == AfterMessageWait(old(State())) && dialog == old(dialog)
    {
      globalErrorMsg := NoBanner;
    }

    /**
     * `handleOpenModal`, and the render that mounts the dialog with the product's
     * id and name. The trash button that calls it exists only while a product is
     * shown.
     */
    method HandleOpenModal()
      requires Valid() && producto.Data?
      modifies this
      ensures Valid() && State() == AfterOpenModal(old(State()))
      ensures old(dialog) != null ==> dialog == old(dialog)
      ensures old(dialog) == null ==>
        && dialog != null && fresh(dialog) && dialog.Cells() == InitialDialog()
        && dialog.idproducto == producto.product.idproducto && dialog.nombre == producto.product.nombre
    {
      modal := true;
      if dialog == null {
        dialog := new ConfirmDialog(store, producto.product.idproducto, producto.product.nombre);
      }
    }

    /** `handleCloseModal`, and the render that removes the dialog. */
    method HandleCloseModal()
      modifies this
      ensures Valid()
      ensures State() == AfterCloseModal(old(State())) && dialog == null
    {
      modal := false;
      dialog := null;
    }

    /** The dialog's Cancel button (or its own dismissal): its close guard, then `onClose` if it was called. */
    method CancelDialog()
      requires Valid() && dialog != null
      modifies this, dialog
      ensures Valid()
      ensures old(dialog.spinner) ==>
        State() == old(State()) && dialog == old(dialog) && dialog.Cells() == old(dialog.Cells())
      ensures !old(dialog.spinner) ==>
        State() == AfterCloseModal(old(State())) && dialog == null && !old(dialog).open
    {
      var d := dialog;
      var calls := d.HandleOnClose();
      if calls > 0 {
        HandleCloseModal();
      }
    }

    /**
     * The DELETE request of a run `task` of dialog `d` settles (`d` may already have been removed):
     * its last phase runs, its one `onClose` call closes the dialog, and the new
     * `resjson` sets off the observer.
     */
    method DeleteSettled(d: ConfirmDialog, task: DeleteTask, reply: DeleteReply)
      requires Valid() && d.store == store
      modifies this, store
      ensures Valid() && dialog == null
      ensures State() == AfterDeleteSettled(old(State()), reply, task.value)
    {
      var effects := d.EliminarSettled(task, reply);
      if OnCloseCalls(effects) > 0 {
        HandleCloseModal();  // the dialog's onClose is handleCloseModal
      }
      ObserveResjson();
    }
  }
}
