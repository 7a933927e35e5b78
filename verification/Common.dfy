/** What several modules share. */
module Common {

  datatype Option<+T> = None | Some(value: T)

  function Min(x: real, y: real): real { if x <= y then x else y }

  function Max(x: real, y: real): real { if x >= y then x else y }
}
