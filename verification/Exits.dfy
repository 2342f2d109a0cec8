/** How a method of one of the programs ends. */
module Exits {
  import opened Relay

  // Normally, or because the run is over or an exception is on its way up.
  datatype Exit = Finished | Quit(why: Stop) {
    predicate IsFailure() { Quit? }

    function PropagateFailure(): Exit
      requires Quit?
    {
      this
    }
  }
}
