/** Result types shared by the modules of this project. */
module Outcomes {

  datatype Option<+T> = None | Some(value: T)

  /** Stands for a TypeScript call that may throw; `Err` carries the thrown error's name. */
  datatype Result<+T> = Ok(value: T) | Err(error: string)
}
