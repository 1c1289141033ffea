/** The program exists twice: as the split sources (tui.go, cmus.go, db.go) and as the
    single main.go. The two copies agree except in a few places, and the model takes
    the copy as a parameter wherever they differ. */
module Variants {

  /** `Modular` is tui.go with cmus.go and db.go; `Monolithic` is main.go. */
  datatype Variant = Modular | Monolithic
}
