/** What one call to the STACKIT API can do (cloud/errors.go, cloud/client.go). */
module Api {

  datatype ErrorClass = NotFound | Unauthorized | InvalidInput | Conflict | Transient

  datatype Option<+T> = None | Some(value: T)

  datatype Result<+T> = Ok(value: T) | Err(error: ErrorClass)

  /** Works: the call does what it should, including reporting NotFound or Conflict
      by itself. Rejected: it reports the error and changes nothing. Interrupted: it
      reports the error although it took effect (a timeout after the write). */
  datatype Outcome = Works | Rejected(error: ErrorClass) | Interrupted(error: ErrorClass)

  /** A failing call never claims absence: the API answers 404 only by itself. */
  predicate Truthful(o: Outcome) { o.Works? || o.error != NotFound }

  /** A deletion answered "not found" that did not happen. */
  predicate Pretends(o: Outcome) { o == Rejected(NotFound) }

  /** BuildCloudClient: a missing credentials Secret is told apart from every other failure. */
  datatype ClientBuild = Built | SecretGone | BuildFailed

  /** IDs are numbers; 0 is the empty string. The API never hands out an ID twice. */
  type Id = nat
}
