/** Option, Result and the error values the Go code returns as `error`. */
module Outcomes {

  datatype Option<+T> = None | Some(value: T)

  /** Why an operation failed. The Go code formats these through the
      localised message table; the model keeps only what identifies the cause. */
  datatype Error =
    | WalkFailed(path: string)                 // WalkDir reported an error for this path
    | ReadFailed(path: string)                 // os.ReadFile failed
    | StatFailed(path: string)                 // os.Stat failed with something other than "not exist"
    | MkdirFailed(dir: string)                 // os.MkdirAll failed
    | WriteFailed(path: string)                // os.WriteFile failed
    | WriteToolFailed(path: string, tool: string)
    | CollectFailed(cause: Error)              // Run: "failed_to_collect_files"
    | NoPromptFiles(inputDir: string)          // Run: "no_prompt_files_found"
    | DecodeFailed(path: string)               // TOML / JSON decoding failed
    | ScanFailed(tool: string, cause: Error)   // "error scanning <tool> files"

  datatype Result<+T> = Ok(value: T) | Err(error: Error)
}
