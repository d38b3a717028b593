/**
 * Values and collaborators shared by the commands and actions of the model:
 * the optional value, the outcome record of a pump action, the single-shot
 * result sink and the build configuration flags.
 */
module Interfaces {

  datatype Option<+T> = None | Some(value: T)

  /** The text of a result: either a literal string or a string resource key. */
  datatype Comment = Text(text: string) | Resource(key: string)

  /** Outcome of a pump action (or of an automation action). */
  datatype PumpEnactResult = PumpEnactResult(success: bool, enacted: bool, comment: Comment)

  /** A fresh result object: not successful, nothing enacted, empty comment. */
  const Fresh: PumpEnactResult := PumpEnactResult(false, false, Text(""))

  /** A failed result carrying the given comment, built from a fresh result. */
  function Failed(comment: Comment): (r: PumpEnactResult)
    ensures !r.success && !r.enacted && r.comment == comment
  {
    Fresh.(comment := comment)
  }

  /**
   * The callback a command or action reports to: `result(r).run()` records
   * `r`; every delivery is kept, in order, in `results`.
   */
  class Callback {
    var results: seq<PumpEnactResult>

    constructor ()
      ensures results == []
    {
      results := [];
    }

    method Deliver(r: PumpEnactResult)
      modifies this
      ensures results == old(results) + [r]
    {
      results := results + [r];
    }
  }

  /** The build-time flags of the application (`Config`). */
  datatype Config = Config(APS: bool, NSCLIENT: bool, PUMPDRIVERS: bool)
}
