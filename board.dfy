/**
 * The board editor (apps/board-mfe): grid defaults, the alive count, the
 * single-cell toggle with its optimistic cache write and rollback, and the
 * effect that creates a board when none is known yet.
 */
module Board {
  import opened Wrappers
  import opened Types
  import Grids
  import opened QueryCache
  import ApiClient
  import Browser

  const DefaultSize := 20

  /** `empty(n = 20)`: an n-by-n dead grid. */
  function Empty(n: int := DefaultSize): (g: Grid)
    ensures |g| == Grids.Length(n)
    ensures forall i :: 0 <= i < |g| ==> |g[i]| == Grids.Length(n)
    ensures Grids.NoneAlive(g)
  {
    Grids.AllFalse(n, n)
  }

  /**
   * `ensureGrid`: a present grid is returned as it is (an empty array included);
   * a missing one becomes a dead grid of the given size, 20 standing in for a
   * missing dimension.
   */
  function EnsureGrid(grid: Option<Grid>, h: Option<int>, w: Option<int>): (g: Grid)
    ensures grid.Some? ==> g == grid.value
    ensures grid.None? ==> |g| == Grids.Length(h.GetOr(DefaultSize))
    ensures grid.None? ==> forall i :: 0 <= i < |g| ==> |g[i]| == Grids.Length(w.GetOr(DefaultSize))
    ensures grid.None? ==> Grids.NoneAlive(g)
  {
    if grid.Some? then grid.value
    else Grids.AllFalse(h.GetOr(DefaultSize), w.GetOr(DefaultSize))
  }

  /** The grid the editor shows and edits for a snapshot: its own, or a dead one of its size. */
  function BaseGrid(data: BoardStateResponse): (g: Grid)
    ensures data.grid.Some? ==> g == data.grid.value
    ensures data.grid.None? ==> |g| == Grids.Length(data.height) && Grids.NoneAlive(g)
    ensures data.grid.None? ==> forall i :: 0 <= i < |g| ==> |g[i]| == Grids.Length(data.width)
  {
    EnsureGrid(data.grid, Some(data.height), Some(data.width))
  }

  /** `countAlive`: the running total over every row and every cell of each row. */
  method CountAlive(grid: Grid) returns (total: nat)
    ensures total == Grids.Alive(grid)
  {
    total := 0;
    var r := 0;
    while r < |grid|
      invariant 0 <= r <= |grid|
      invariant total == Grids.Alive(grid[..r])
    {
      var row := grid[r];
      var c := 0;
      while c < |row|
        invariant 0 <= c <= |row|
        invariant total == Grids.Alive(grid[..r]) + Grids.RowAlive(row[..c])
      {
        if row[c] {
          total := total + 1;
        }
        assert row[..c + 1][..c] == row[..c];
        c := c + 1;
      }
      assert row[..|row|] == row;
      assert grid[..r + 1][..r] == grid[..r];
      r := r + 1;
    }
    assert grid[..|grid|] == grid;
  }

  /** The snapshot written optimistically: the previous one with only its grid and alive count replaced. */
  function Optimistic(previous: BoardStateResponse, clone: Grid): (s: BoardStateResponse)
    ensures s.id == previous.id && s.generation == previous.generation
    ensures s.width == previous.width && s.height == previous.height
    ensures s.grid == Some(clone) && s.aliveCount == Grids.Alive(clone)
  {
    previous.(grid := Some(clone), aliveCount := Grids.Alive(clone))
  }

  /** A snapshot whose alive count agrees with its grid. */
  predicate Consistent(s: BoardStateResponse) {
    s.grid.Some? && s.aliveCount == Grids.Alive(s.grid.value)
  }

  /**
   * Toggling a cell of a consistent snapshot gives an optimistic snapshot that is
   * consistent again and whose count is one less if the cell was alive, one more
   * otherwise; toggling back restores the grid.
   */
  lemma OptimisticCount(previous: BoardStateResponse, r: int, c: int)
    requires Consistent(previous) && Grids.InRange(previous.grid.value, r, c)
    ensures var s := Optimistic(previous, Grids.Flip(previous.grid.value, r, c));
      Consistent(s) &&
      s.aliveCount == if previous.grid.value[r][c] then previous.aliveCount - 1 else previous.aliveCount + 1
  {
    Grids.AliveFlip(previous.grid.value, r, c);
  }

  /** What an optimistic toggle remembers until its update request settles. */
  datatype PendingToggle = PendingToggle(id: BoardId, previous: Option<BoardStateResponse>, sent: Grid)

  class BoardComponent {
    var boardId: Option<BoardId>
    var uploadPending: bool
    /** The identity the creation effect last ran with; none before its first run. */
    var creationDeps: Option<Option<BoardId>>
    const qc: QueryClient
    const window: Browser.Window

    /** The identity starts as the persisted pointer. */
    constructor (window: Browser.Window, qc: QueryClient)
      ensures this.window == window && this.qc == qc
      ensures boardId == window.GetItem(Browser.BoardIdKey) && !uploadPending
      ensures creationDeps.None?
    {
      this.window := window;
      this.qc := qc;
      boardId := window.GetItem(Browser.BoardIdKey);
      uploadPending := false;
      creationDeps := None;
    }

    /**
     * The creation effect, after a render. It runs only on the first render
     * and when the identity changed since its last run; then, with no identity
     * and no upload in flight, it sends an empty 20-by-20 grid.
     */
    method RunCreationEffect() returns (request: Option<UploadBoardRequest>)
      modifies this
      ensures boardId == old(boardId) && creationDeps == Some(boardId)
      ensures request.Some? <==>
        old(creationDeps) != Some(old(boardId)) && !Truthy(old(boardId)) && !old(uploadPending)
      ensures request.Some? ==> request.value == UploadBoardRequest(Some(Empty())) && uploadPending
      ensures request.None? ==> uploadPending == old(uploadPending)
    {
      request := None;
      if creationDeps != Some(boardId) {
        creationDeps := Some(boardId);
        if !Truthy(boardId) && !uploadPending {
          request := Some(UploadBoardRequest(Some(Empty())));
          uploadPending := true;
        }
      }
    }

    /**
     * The upload settles. On success the returned identity is persisted,
     * broadcast and adopted, in that order; on failure nothing changes.
     */
    method UploadSettled(outcome: Result<BoardId, ApiClient.Thrown>)
      requires uploadPending
      modifies this, window
      ensures !uploadPending && creationDeps == old(creationDeps)
      ensures outcome.Success? ==>
        && window.storage == old(window.storage)[Browser.BoardIdKey := outcome.value]
        && window.dispatched == old(window.dispatched) + [Browser.BoardIdChanged(Some(outcome.value))]
        && boardId == Some(outcome.value)
      ensures outcome.Failure? ==>
        && window.storage == old(window.storage)
        && window.dispatched == old(window.dispatched)
        && boardId == old(boardId)
    {
      uploadPending := false;
      if outcome.Success? {
        var id := outcome.value;
        window.SetItem(Browser.BoardIdKey, id);
        window.DispatchEvent(Browser.BoardIdChanged(Some(id)));
        boardId := Some(id);
      }
    }

    /**
     * `onToggle` up to the update request. It always announces the interaction.
     * With a snapshot and an identity it flips cell (r, c) of a copy of the
     * snapshot's grid and, when the cache holds a previous value for the board,
     * writes the optimistic snapshot over it. The result carries what the
     * request sends and what a rollback restores.
     */
    method OnToggle(data: Option<BoardStateResponse>, r: int, c: int) returns (pending: Option<PendingToggle>)
      requires data.Some? ==> Grids.InRange(BaseGrid(data.value), r, c)
      modifies qc, window
      ensures window.dispatched == old(window.dispatched) + [Browser.BoardInteracted]
      ensures window.storage == old(window.storage)
      ensures data.None? || !Truthy(boardId) ==>
        pending.None? && qc.data == old(qc.data) && qc.stale == old(qc.stale)
      ensures data.Some? && Truthy(boardId) ==>
        var key := Current(boardId.value);
        var clone := Grids.Flip(BaseGrid(data.value), r, c);
        && pending == Some(PendingToggle(boardId.value, old(qc.GetQueryData(key)), clone))
        && (key in old(qc.data) ==>
              qc.data == old(qc.data)[key := Optimistic(old(qc.data[key]), clone)] &&
              qc.stale == old(qc.stale) - {key})
        && (key !in old(qc.data) ==> qc.data == old(qc.data) && qc.stale == old(qc.stale))
    {
      window.DispatchEvent(Browser.BoardInteracted);
      if data.None? || !Truthy(boardId) {
        return None;
      }
      var base := BaseGrid(data.value);
      var clone := base[r := base[r][c := !base[r][c]]];
      var key := Current(boardId.value);
      var previous := qc.GetQueryData(key);
      if previous.Some? {
        var alive := CountAlive(clone);
        qc.SetQueryData(key, previous.value.(grid := Some(clone), aliveCount := alive));
      }
      pending := Some(PendingToggle(boardId.value, previous, clone));
    }

    /**
     * The update request for a toggle settles. Success runs the mutation's
     * invalidation and writes nothing; failure writes the captured previous
     * value back, if there was one.
     */
    method SettleToggle(p: PendingToggle, succeeded: bool)
      modifies qc
      ensures succeeded ==>
        qc.data == old(qc.data) && qc.stale == old(qc.stale) + ApiClient.InvalidatedKeys(p.id, true)
      ensures !succeeded && p.previous.Some? ==>
        qc.data == old(qc.data)[Current(p.id) := p.previous.value] &&
        qc.stale == old(qc.stale) - {Current(p.id)}
      ensures !succeeded && p.previous.None? ==>
        qc.data == old(qc.data) && qc.stale == old(qc.stale)
    {
      ApiClient.MutationSettled(qc, p.id, succeeded);
      if !succeeded && p.previous.Some? {
        qc.SetQueryData(Current(p.id), p.previous.value);
      }
    }

    /**
     * A whole toggle with no other event in between: a failed update leaves the
     * cached values exactly as they were, a successful one leaves the optimistic
     * snapshot (when there was a cached value to patch) and marks both board
     * keys stale. Without a snapshot or an identity only the interaction is
     * announced.
     */
    method Toggle(data: Option<BoardStateResponse>, r: int, c: int, succeeded: bool)
      requires data.Some? ==> Grids.InRange(BaseGrid(data.value), r, c)
      modifies qc, window
      ensures window.dispatched == old(window.dispatched) + [Browser.BoardInteracted]
      ensures window.storage == old(window.storage)
      ensures data.None? || !Truthy(boardId) ==> qc.data == old(qc.data) && qc.stale == old(qc.stale)
      ensures data.Some? && Truthy(boardId) && !succeeded ==>
        var key := Current(boardId.value);
        qc.data == old(qc.data) &&
        qc.stale == if key in old(qc.data) then old(qc.stale) - {key} else old(qc.stale)
      ensures data.Some? && Truthy(boardId) && succeeded ==>
        var key := Current(boardId.value);
        && qc.data == (if key in old(qc.data)
                       then old(qc.data)[key := Optimistic(old(qc.data[key]), Grids.Flip(BaseGrid(data.value), r, c))]
                       else old(qc.data))
        && qc.stale == old(qc.stale) + ApiClient.InvalidatedKeys(boardId.value, true)
    {
      var pending := OnToggle(data, r, c);
      if pending.Some? {
        SettleToggle(pending.value, succeeded);
      }
    }
  }
}
