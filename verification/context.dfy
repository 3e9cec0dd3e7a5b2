/**
 * The shared store of DatosContext.jsx: three state cells, the identifier being
 * searched, the delete signal and the last delete response, each overwritten
 * through its setter. One Store object is handed to both the search view and the
 * confirmation dialog.
 */
module Context {

  /** A value of `resjson`: the empty object `{}` it starts as, or a `{msg, error}` notice. */
  datatype Payload = EmptyObject | Notice(msg: string, error: bool)

  /** JavaScript truthiness of `payload.msg`: the Alert is rendered exactly then. */
  predicate HasMessage(p: Payload)
  {
    p.Notice? && p.msg != ""
  }

  /** The three cells, as one value. */
  datatype Cells = Cells(idproducto: string, btnValueEliminar: string, resjson: Payload)

  /** The cells as the provider creates them. */
  function InitialCells(): Cells
  {
    Cells("", "", EmptyObject)
  }

  /** Initially the identifier is empty, the delete signal is empty and no notice has a message. */
  lemma InitialCellsAreQuiet()
    ensures InitialCells().idproducto == "" && InitialCells().btnValueEliminar == ""
    ensures !HasMessage(InitialCells().resjson)
  {
  }

  class Store {
    var idproducto: string
    var btnValueEliminar: string
    var resjson: Payload

    /** The current value of the three cells. */
    function Snapshot(): Cells
      reads this
    {
      Cells(idproducto, btnValueEliminar, resjson)
    }

    constructor ()
      ensures Snapshot() == InitialCells()
    {
      idproducto := "";
      btnValueEliminar := "";
      resjson := EmptyObject;
    }

    /** Stores `v` as the identifier, unchecked; the other cells are untouched. */
    method SetIdProducto(v: string)
      modifies this
      ensures Snapshot() == old(Snapshot()).(idproducto := v)
    {
      idproducto := v;
    }

    /** Stores `v` as the delete signal, unchecked; the other cells are untouched. */
    method SetBtnValueEliminar(v: string)
      modifies this
      ensures Snapshot() == old(Snapshot()).(btnValueEliminar := v)
    {
      btnValueEliminar := v;
    }

    /** Stores `p` as the last response, unchecked; the other cells are untouched. */
    method SetResjson(p: Payload)
      modifies this
      ensures Snapshot() == old(Snapshot()).(resjson := p)
    {
      resjson := p;
    }
  }
}
