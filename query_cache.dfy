/**
 * The shared query cache both UI modules read board snapshots from: a map from
 * query key to the cached snapshot, plus the set of keys marked stale.
 */
module QueryCache {
  import opened Wrappers
  import opened Types

  /** `["board", id]` is the current state, `["board", id, "next"]` the one-step preview. */
  datatype CacheKey = Current(id: BoardId) | Next(id: BoardId)

  class QueryClient {
    var data: map<CacheKey, BoardStateResponse>
    var stale: set<CacheKey>

    constructor ()
      ensures data == map[] && stale == {}
    {
      data := map[];
      stale := {};
    }

    /** The cached value of `key`, without any fetch. */
    function GetQueryData(key: CacheKey): (v: Option<BoardStateResponse>)
      reads this
      ensures v.Some? <==> key in data
      ensures v.Some? ==> v.value == data[key]
    {
      if key in data then Some(data[key]) else None
    }

    /** Overwrites the cached value of `key`; a value just written is fresh. */
    method SetQueryData(key: CacheKey, value: BoardStateResponse)
      modifies this
      ensures data == old(data)[key := value]
      ensures stale == old(stale) - {key}
    {
      data := data[key := value];
      stale := stale - {key};
    }

    /** Marks `key` stale so that its next read refetches; the cached value stays. */
    method InvalidateQueries(key: CacheKey)
      modifies this
      ensures data == old(data)
      ensures stale == old(stale) + {key}
    {
      stale := stale + {key};
    }
  }
}
