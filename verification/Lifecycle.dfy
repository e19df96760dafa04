/**
 The worker's view of the OpenCode process.  Every setter of the original runs
 under the object's own mutex, so each is one update of the record.  A URL is
 always a loopback URL, so it is represented by its port; 0 is the dead one.
*/
module Lifecycle {
  import opened Wrappers

  datatype State = Starting | Ready | Failed | Stopped

  datatype Life = Life(state: State, url: int, generation: nat, exitCode: Option<int>,
                       downSince: Option<int>, attempts: nat, capped: bool)
  {
    /** Ends the down spell and clears the restart progress. */
    function SetReady(): Life {
      this.(state := Ready, exitCode := None, downSince := None, attempts := 0, capped := false)
    }

    function SetFailed(code: Option<int>): Life {
      this.(state := Failed, exitCode := code)
    }

    /** A new incarnation. */
    function SetStarting(): Life {
      this.(state := Starting, generation := generation + 1, exitCode := None)
    }

    function SetStopped(): Life {
      this.(state := Stopped, exitCode := None)
    }

    function SetOpenCodeURL(port: int): Life {
      this.(url := port)
    }

    /** Keeps the first time of a down spell. */
    function MarkDown(now: int): Life {
      if downSince.None? then this.(downSince := Some(now)) else this
    }

    function SetRestartProgress(n: nat, isCapped: bool): Life {
      this.(attempts := n, capped := isCapped)
    }
  }

  const NEW_LIFE := Life(Starting, 0, 1, None, None, 0, false)
}
