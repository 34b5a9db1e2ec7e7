/** The errors the engine returns, one constructor per error the source creates. The ones built
    with Go's `%w` keep their cause reachable for `isAWSErr`; the ones built with `%s` flatten it
    into text, so their cause is recorded here but is not unwrapped. */
module Errors {
  import opened Wrappers
  import opened SsmStore

  datatype Error =
    | Aws(code: StoreError)                     // an error returned by the store, as is
    | NotValidated(id: string)                  // the retryable "could not be validated" error
    | Timeout(lastError: Option<Error>)         // the retry window expired
    | Base64Invalid                             // the declared ciphertext is not valid base64
    | KmsDecrypt(message: string)               // "Error decrypting with KMS: %s"
    | Reading(id: string, cause: Error)         // "error reading SSM Parameter (%s): %w"
    | Describing(cause: Error)                  // "error describing SSM parameter: %s"
    | ListingTags(name: string, cause: Error)   // "error listing tags for SSM Parameter (%s): %s"
    | Deleting(id: string, cause: Error)        // "error deleting SSM Parameter (%s): %s"
    | Creating(cause: Error)                    // "error creating SSM parameter: %s"
    | Untagging(id: string, cause: Error)       // "error untagging resource (%s): %w"
    | Tagging(id: string, cause: Error)         // "error tagging resource (%s): %w"
    | UpdatingTags(name: string, cause: Error)  // "error updating SSM Parameter (%s) tags: %s"

  /** The error, or an error it wraps with `%w`, carries the given store error code. */
  predicate IsAwsErr(err: Error, code: StoreError) {
    match err
    case Aws(c) => c == code
    case Reading(_, cause) => IsAwsErr(cause, code)
    case Untagging(_, cause) => IsAwsErr(cause, code)
    case Tagging(_, cause) => IsAwsErr(cause, code)
    case _ => false
  }
}
