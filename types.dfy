/** The shared wire types of the board API (packages/types). */
module Types {
  import opened Wrappers

  type BoardId = string

  /** A board grid: rows of cells, true meaning alive. Rows may be ragged. */
  type Grid = seq<seq<bool>>

  datatype UploadBoardRequest = UploadBoardRequest(grid: Option<Grid>)

  /** One board snapshot as the server returns it; `grid` may be null on the wire. */
  datatype BoardStateResponse = BoardStateResponse(
    id: BoardId,
    generation: int,
    width: int,
    height: int,
    aliveCount: int,
    grid: Option<Grid>)

  /** JavaScript truthiness of a `string | null | undefined` value: present and not empty. */
  predicate Truthy(s: Option<string>) {
    s.Some? && s.value != ""
  }
}
