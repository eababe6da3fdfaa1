/**
 * Values shared by every part of the model: Python's dynamically typed
 * arguments, the exceptions the layer raises, and a Result for returning
 * either a value or one of those exceptions.
 */
module Common {

  datatype Option<+T> = None | Some(value: T)

  /** A value, or the exception that the Python code raises instead. */
  datatype Result<+T> = Ok(value: T) | Err(error: Error)

  /**
   * The exceptions of the layer.  Messages that Python builds by formatting an
   * arbitrary object keep only their fixed text.
   */
  datatype Error =
    | TypeError(msg: string)
    | ValueError(msg: string)
    | KeyError(msg: string)
    | FileNotFoundError(msg: string)
    /** a local variable read before any assignment */
    | UnboundLocalError(name: string)
    /** an attribute or the first element of a field missing from a reply */
    | MalformedReply(field: string)
    /** an exception raised by the gateway and passed on unchanged */
    | GatewayError(msg: string)

  /**
   * The Python values that the layer's arguments can take.  A dict is
   * represented by the text json.dumps gives for it; every other kind of
   * object (floats, sets, ...) is PyObject.
   */
  datatype PyValue =
    | PyNone
    | PyBool(b: bool)
    | PyInt(i: int)
    | PyStr(s: string)
    | PyList(items: seq<PyValue>)
    | PyTuple(items: seq<PyValue>)
    | PyDict(json: string)
    | PyObject

  /** isinstance(v, (list, tuple)) */
  predicate IsSequence(v: PyValue) {
    v.PyList? || v.PyTuple?
  }
}
