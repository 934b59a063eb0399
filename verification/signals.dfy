/** The callbacks a snippet player makes to the game page. */
module Signals {

  /** `setReady(true)`, `onPlaybackStart()` and `onPlaybackEnd()`. */
  datatype Signal = Ready | Started | Ended
}
