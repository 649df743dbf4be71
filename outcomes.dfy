/** Option and Result, and the reasons eac3bot aborts a run. */
module Outcomes {

  datatype Option<T> = None | Some(value: T)

  /** Every `logger.error(...); return 1` site of `demux`, one constructor each. */
  datatype Error =
    | NotABluRay                                  // the playlist scan could not be run
    | UnparseableScan                             // no line of the scan lists a playlist
    | NoSuchPlaylist(requested: int, count: nat)  // user playlist number above the count
    | NoObviousTitle                              // two playlists share the longest duration
    | UnreadablePlaylist(playlist: int)           // the track scan of the chosen playlist failed
    | NoChapters
    | ManyChapters
    | NoVideo
    | ManyVideos
    | NoLossless
    | ManyLossless
    | StrangeSetup(track: string)                 // soundtrack description mentions "strange setup"
    | SixOneChannels(track: string)               // soundtrack description mentions "6.1 channels"
    | UnknownCommentary(description: string)      // commentary is neither AC3 nor DTS

  datatype Result<T> = Ok(value: T) | Err(error: Error)
}
