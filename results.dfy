/** Failure-compatible wrappers and the error taxonomy of the resolution engine.
    Every Python exception the core can raise becomes an `Error` value. */
module Results {

  datatype Option<+T> = None | Some(value: T)

  /** The exceptions raised by the core, by kind. */
  datatype Error =
    | NotImplemented                                      // NotImplementedError from a dispatcher
    | KeyNotFound(key: string)                            // KeyError from a dict lookup
    | TypeMismatch                                        // TypeError/AttributeError: a value of the wrong shape
    | MalformedProperty(line: string)                     // ValueError: a properties line without '='
    | ApiNotFound(kind: string, name: string, namespace: string)  // Kubernetes API: object not found
    | SecretNotFound(name: string)                        // secret manager: no such secret version
    | FileNotFound(path: string)                          // open() of a missing file
    | DecodeFailure                                       // malformed base64 or UTF-8
    | BadVersion(version: string)                         // ValueError: a version without exactly three parts
    | Unsupported(version: string)                        // AssertionError from the schema-version gate

  datatype Result<+T> = Ok(value: T) | Err(error: Error) {

    predicate IsFailure() {
      Err?
    }

    function PropagateFailure<U>(): Result<U>
      requires Err?
    {
      Err(error)
    }

    function Extract(): T
      requires Ok?
    {
      value
    }
  }
}
