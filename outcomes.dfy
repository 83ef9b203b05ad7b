/** Option and Result values, and the exceptions of the modelled Python code. */
module Outcomes {

  datatype Option<+T> = None | Some(value: T)

  /** The Python exceptions that the modelled code lets escape. */
  datatype Error =
    | FileNotFound(path: string)   // FileNotFoundError from open/copyfile/save
    | FileExists(path: string)     // FileExistsError from os.makedirs without exist_ok
    | TypeError                    // a malformed EXIF value handed to the dms conversion
    | StopIteration                // next() on an exhausted generator

  datatype Result<+T> = Ok(value: T) | Err(error: Error)
}
