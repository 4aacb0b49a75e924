/** `SnackbarContext`: the one process-wide notification slot. */
module SnackbarContext {

  datatype SnackbarType = Success | Error | Info | Warning

  /** The three pieces of provider state, read together. */
  datatype Slot = Slot(visible: bool, message: string, kind: SnackbarType)

  /** `showSnackbar(message, kind)`: the new slot depends on the call alone. */
  function Shown(s: Slot, message: string, kind: SnackbarType): (t: Slot)
    ensures t.visible && t.message == message && t.kind == kind
  {
    Slot(true, message, kind)
  }

  /** `hideSnackbar()`: only the visibility changes. */
  function Hidden(s: Slot): (t: Slot)
    ensures !t.visible && t.message == s.message && t.kind == s.kind
  {
    s.(visible := false)
  }

  /** Last write wins: a second `show` erases every trace of the first. */
  lemma ShowOverwrites(s: Slot, a: string, ka: SnackbarType, b: string, kb: SnackbarType)
    ensures Shown(Shown(s, a, ka), b, kb) == Shown(s, b, kb)
  {
  }

  /** Hiding twice is hiding once. */
  lemma HideIdempotent(s: Slot)
    ensures Hidden(Hidden(s)) == Hidden(s)
  {
  }

  class SnackbarProvider {
    var visible: bool
    var message: string
    var kind: SnackbarType

    function State(): Slot
      reads this
    {
      Slot(visible, message, kind)
    }

    constructor ()
      ensures State() == Slot(false, "", Success)
    {
      visible, message, kind := false, "", Success;
    }

    /** `showSnackbar(message, type = "error")` */
    method Show(msg: string, k: SnackbarType := Error)
      modifies this
      ensures State() == Shown(old(State()), msg, k)
    {
      message := msg;
      kind := k;
      visible := true;
    }

    /** `hideSnackbar()` */
    method Hide()
      modifies this
      ensures State() == Hidden(old(State()))
    {
      visible := false;
    }
  }
}
