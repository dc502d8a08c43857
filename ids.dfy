/** The id counters of the in-memory managers, and the error their
    dictionaries raise for an id they do not hold. */
module Ids {

  /** Python's `KeyError` for an id missing from a manager's dictionary. */
  datatype KeyError = KeyError(key: int)

  /** A class-level `last_id = 0` attribute. Python keeps it on the manager
      class, so every instance of that class reads and bumps the same
      counter; here every manager of one class holds a reference to the same
      `IdCounter`. Nothing ever decreases it. */
  class IdCounter {
    var lastId: nat

    constructor ()
      ensures lastId == 0
    {
      lastId := 0;
    }
  }
}
