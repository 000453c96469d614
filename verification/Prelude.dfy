/** Small vocabulary shared by every component of the model. */
module Prelude {

  /** A nullable value: a Python `None`, a SQL NULL, a missing field. */
  datatype Option<+T> = None | Some(value: T) {
    /** SQL's COALESCE(this, fallback). */
    function Or(fallback: Option<T>): Option<T> {
      if Some? then this else fallback
    }
  }

  /** A returned value, or the exception the source raises instead. */
  datatype Result<+T> = Ok(value: T) | Err(error: string)

  datatype Side = Buy | Sell {
    function Opposite(): Side {
      if Buy? then Sell else Buy
    }
  }

  function Abs(x: real): real {
    if x < 0.0 then -x else x
  }

  function Max(x: real, y: real): real {
    if x < y then y else x
  }

  function Min(x: real, y: real): real {
    if y < x then y else x
  }

  /** A member of a set that is not empty. */
  lemma Pick<T>(s: set<T>) returns (x: T)
    requires s != {}
    ensures x in s
  {
    x :| x in s;
  }
}
