/**
 * The command-line options the output-dispatch engine consults, and the
 * reasons it can end the whole program early.
 */
module Options {

  /**
   * The options read by the engine. A string option that was not given is
   * the empty string (Python treats `None` and `""` alike as false), and
   * `retryOpen` is the number of probe attempts.
   */
  datatype Args = Args(
    output: string,                // --output FILENAME, "-" for stdout
    stdout: bool,                  // --stdout
    force: bool,                   // --force
    player: string,                // --player
    playerFifo: bool,              // --player-fifo
    playerHttp: bool,              // --player-http
    playerContinuousHttp: bool,    // --player-continuous-http
    playerPassthrough: set<string>,// --player-passthrough TYPES
    retryOpen: nat,                // --retry-open
    stream: seq<string>,           // the STREAM names, in the order given
    bestStreamDefault: bool,       // --best-stream-default
    retryStreams: nat,             // --retry-streams DELAY, 0 when not given
    json: bool)                    // --json

  /** `args.output or args.stdout`: the user asked for a file or for stdout. */
  predicate FileOutput(args: Args)
  {
    args.output != "" || args.stdout
  }

  /** Why the program exits from inside the engine (`sys.exit` / `console.exit`). */
  datatype ExitReason =
    | OverwriteDeclined       // the user did not answer "y" to the overwrite prompt
    | NoPlayer                // no player executable is configured
    | PipeFailed              // the named pipe could not be created
    | ServerFailed            // the HTTP server could not be bound
    | PlayerStartFailed       // "Failed to start player"
    | OutputOpenFailed        // "Failed to open output"
    | NoSuchStream            // "The specified stream(s) ... could not be found"
    | NoStreams               // "No streams found on this URL"
    | UnboundName             // a KeyError escapes: a name or synonym that is not bound is looked up
    | PluginFailed            // the plugin raised a PluginError while fetching the streams
}
