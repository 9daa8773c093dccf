/** Values as the handlers see them after `json.loads`, and the exceptions
    that looking them up can raise.

    A dictionary key read from a decoded JSON object is in one of three
    states: missing, present with the JSON value `null` (Python `None`), or
    present with a value. The handlers treat the three differently
    (`d["k"]` raises on a missing key, `d.get("k", default)` does not, and a
    `None` fails later, when it is used as a dictionary or a string). */
module PyJson {

  /** One key of a decoded JSON object. */
  datatype Field<+T> = Absent | Null | Present(value: T)

  /** A decoded JSON scalar, as far as Python's `==` can tell them apart.
      `Num(n)` is any number or boolean equal to the integer `n`
      (`true == 1` in Python); `OtherValue` is everything else (fractions,
      lists, objects), which compares unequal to every integer and string. */
  datatype Scalar = Str(s: string) | Num(n: int) | OtherValue

  /** A Python value that may be `None`. */
  datatype Option<+T> = None | Some(value: T)

  /** The Python exception classes the handlers can raise. */
  datatype PyError =
    | KeyError        // subscripting a dictionary with a missing key
    | TypeError       // subscripting `None` or a non-object, `in` on `None`
    | AttributeError  // calling a method on `None`, or a misspelt method
    | ValueError      // undecodable JSON, bad hex, keys or signatures of the wrong length

  /** Either a value or the exception that interrupted the computation. */
  datatype Result<+T> = Ok(value: T) | Raise(error: PyError) {

    predicate IsFailure() {
      Raise?
    }

    function PropagateFailure<U>(): Result<U>
      requires Raise?
    {
      Raise(error)
    }

    function Extract(): T
      requires Ok?
    {
      value
    }
  }
}
