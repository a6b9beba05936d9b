/**
 * The page-wide resources the two UI modules share without sharing memory:
 * the persisted key/value storage and the window event bus, the latter kept
 * as the log of events dispatched so far.
 */
module Browser {
  import opened Wrappers

  const BoardIdKey := "boardId"
  const AuthTokenKey := "authToken"

  /** `gol:boardIdChanged` carries the new identity as its detail; `gol:boardInteracted` carries nothing. */
  datatype WindowEvent = BoardIdChanged(detail: Option<string>) | BoardInteracted

  class Window {
    var storage: map<string, string>
    var dispatched: seq<WindowEvent>

    constructor (storage: map<string, string>)
      ensures this.storage == storage && dispatched == []
    {
      this.storage := storage;
      dispatched := [];
    }

    function GetItem(key: string): (v: Option<string>)
      reads this
      ensures v.Some? <==> key in storage
      ensures v.Some? ==> v.value == storage[key]
    {
      if key in storage then Some(storage[key]) else None
    }

    method SetItem(key: string, value: string)
      modifies this
      ensures storage == old(storage)[key := value]
      ensures dispatched == old(dispatched)
    {
      storage := storage[key := value];
    }

    method DispatchEvent(e: WindowEvent)
      modifies this
      ensures dispatched == old(dispatched) + [e]
      ensures storage == old(storage)
    {
      dispatched := dispatched + [e];
    }
  }
}
