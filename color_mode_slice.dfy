/** The colour-mode slice: one field, flipped between light and dark. */
module ColorModeSlice {

  /** `'light' | 'dark'`: the type admits no third mode. */
  datatype Mode = Light | Dark

  /** `state.mode === 'light' ? 'dark' : 'light'`. */
  function Toggled(m: Mode): (r: Mode)
    ensures r != m
  {
    if m == Light then Dark else Light
  }

  /** Toggling twice restores the mode. */
  lemma ToggleTwice(m: Mode)
    ensures Toggled(Toggled(m)) == m
  {
  }

  class ColorModeState {
    var mode: Mode

    /** `initialState: { mode: 'dark' }`. */
    constructor ()
      ensures mode == Dark
    {
      mode := Dark;
    }

    /** `setMode`. */
    method SetMode()
      modifies this
      ensures mode == Toggled(old(mode))
    {
      mode := if mode == Light then Dark else Light;
    }
  }
}
