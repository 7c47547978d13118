/**
 * What the optimizers observe of the machine they run on. The filesystem
 * queries and the external process are oracles: the model fixes what the
 * code does with their answers, not how the answers come about.
 */
module Environment {

  /**
   * One run of an external binary, as Symfony Process reports it: whether it
   * exited successfully, its standard output, the message of the
   * ProcessFailedException built from it, and the size that `filesize`
   * reports afterwards for the destination file.
   */
  datatype ProcessOutcome = ProcessOutcome(successful: bool, output: string, failureMessage: string, producedSize: nat)

  datatype Host = Host(
    fileExists: string -> bool,                  // file_exists
    isExecutable: string -> bool,                // is_executable
    fileSize: string -> nat,                     // filesize, before any run
    mimeType: string -> string,                  // mime_content_type
    tempName: string,                            // tempnam(sys_get_temp_dir(), 'opt_')
    run: seq<string> -> ProcessOutcome)          // new Process($command) and run()
}
