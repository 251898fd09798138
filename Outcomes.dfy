/** Optional values, the errors the API layer reports, and results that carry either. */
module Outcomes {

  datatype Option<T> = None | Some(value: T)

  /** The error conditions the API layer itself reports. */
  datatype Error =
    | CARootNotFound      // no default CA root location could be discovered
    | CreateCARootFailed  // the CA root directory could not be created
    | MissingCAKey        // issuance was asked for while the CA key file is absent

  datatype Result<T> = Ok(value: T) | Err(error: Error)
}
