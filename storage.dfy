/**
 * The browser's `localStorage`: a mutable map from string keys to string
 * values. Reading (`getItem`) is a lookup in `items` and never fails.
 * Whether a write throws (quota exceeded, storage disabled) is decided by
 * the environment and enters every write as the input `throws`.
 */
module BrowserStorage {
  import opened Wrappers

  /** The exception a failing storage write raises. */
  datatype StorageError = StorageError

  class LocalStorage {
    var items: map<string, string>

    constructor (initial: map<string, string>)
      ensures items == initial
    {
      items := initial;
    }

    /** `localStorage.setItem(key, value)`. */
    method SetItem(key: string, value: string, throws: bool) returns (outcome: Outcome<StorageError>)
      modifies this
      ensures outcome == if throws then Fail(StorageError) else Pass
      ensures items == if throws then old(items) else old(items)[key := value]
    {
      if throws {
        return Fail(StorageError);
      }
      items := items[key := value];
      outcome := Pass;
    }

    /** `localStorage.removeItem(key)`; removing an absent key is not an error. */
    method RemoveItem(key: string, throws: bool) returns (outcome: Outcome<StorageError>)
      modifies this
      ensures outcome == if throws then Fail(StorageError) else Pass
      ensures items == if throws then old(items) else old(items) - {key}
    {
      if throws {
        return Fail(StorageError);
      }
      items := items - {key};
      outcome := Pass;
    }
  }
}
