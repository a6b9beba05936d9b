/**
 * The page that mounts both UI modules under one query cache and one window
 * (apps/shell), and scenarios that involve both of them.
 */
module Shell {
  import opened Wrappers
  import opened Types
  import Grids
  import opened QueryCache
  import Browser
  import Board
  import Controls
  import ApiClient

  /**
   * With no identity persisted, the board creates one; the control panel, told
   * by the broadcast it dispatched, ends on the same identity as the board and
   * waits for that board's query.
   */
  method IdentityConvergence(id: BoardId, storage: map<string, string>)
    returns (sent: Option<UploadBoardRequest>, boardSide: Option<BoardId>, controlsSide: Option<BoardId>,
             persisted: Option<string>, controlsView: Controls.ViewState)
    requires Browser.BoardIdKey !in storage
    ensures sent == Some(UploadBoardRequest(Some(Board.Empty())))
    ensures boardSide == Some(id) && controlsSide == Some(id) && persisted == Some(id)
    ensures id != "" ==> controlsView == Controls.LoadingPanel
  {
    var window := new Browser.Window(storage);
    var qc := new QueryClient();
    var board := new Board.BoardComponent(window, qc);
    var panel := new Controls.ControlsPanel(window.GetItem(Browser.BoardIdKey));
    sent := board.RunCreationEffect();
    board.UploadSettled(Success(id));
    var event := window.dispatched[|window.dispatched| - 1];
    panel.BoardIdChanged(event.detail, window.GetItem(Browser.BoardIdKey));
    boardSide, controlsSide, persisted := board.boardId, panel.boardId, window.GetItem(Browser.BoardIdKey);
    controlsView := panel.View();
  }

  /**
   * An empty 10-by-10 board at generation 0 is cached; toggling (0, 0) shows one
   * alive cell at once, still at generation 0, and a failed update brings the
   * cached snapshot back to zero alive cells.
   */
  method ToggleOnEmptyBoard(id: BoardId, succeeded: bool)
    returns (optimistic: BoardStateResponse, settled: BoardStateResponse)
    requires id != ""
    ensures optimistic.aliveCount == 1 && optimistic.generation == 0 && optimistic.id == id
    ensures succeeded ==> settled == optimistic
    ensures !succeeded ==> settled.aliveCount == 0 && settled.grid == Some(Grids.AllFalse(10, 10))
  {
    var window := new Browser.Window(map[Browser.BoardIdKey := id]);
    var qc := new QueryClient();
    var empty := Grids.AllFalse(10, 10);
    Grids.AliveBounds(empty);
    var snapshot := BoardStateResponse(id, 0, 10, 10, 0, Some(empty));
    qc.SetQueryData(Current(id), snapshot);
    var board := new Board.BoardComponent(window, qc);
    var pending := board.OnToggle(Some(snapshot), 0, 0);
    Grids.AliveFlip(empty, 0, 0);
    optimistic := qc.data[Current(id)];
    board.SettleToggle(pending.value, succeeded);
    settled := qc.data[Current(id)];
  }

  /**
   * With no identity persisted the board sends one upload. When it fails the
   * identity stays as it was, so the creation effect, which depends on the
   * identity alone, does not run again and sends nothing more.
   */
  method FailedUploadNotRetried(storage: map<string, string>, failure: ApiClient.Thrown)
    returns (first: Option<UploadBoardRequest>, second: Option<UploadBoardRequest>, boardSide: Option<BoardId>)
    requires Browser.BoardIdKey !in storage
    ensures first == Some(UploadBoardRequest(Some(Board.Empty())))
    ensures second.None? && boardSide.None?
  {
    var window := new Browser.Window(storage);
    var qc := new QueryClient();
    var board := new Board.BoardComponent(window, qc);
    first := board.RunCreationEffect();
    board.UploadSettled(Failure(failure));
    second := board.RunCreationEffect();
    boardSide := board.boardId;
  }

  /**
   * Once the board for a persisted identity has loaded, Next asks for one
   * generation and then stays locked, through a reset sent and settled in between,
   * until the manual advance itself settles.
   */
  method ManualAdvanceLock(id: BoardId)
    returns (first: Option<Controls.MutationCall>, reset: Option<Controls.MutationCall>, second: Option<Controls.MutationCall>, third: Option<Controls.MutationCall>)
    requires id != ""
    ensures first == Some(Controls.AdvanceBy(id, 1))
    ensures reset == Some(Controls.ReplaceGrid(id, Grids.AllFalse(20, 20)))
    ensures second.None?
    ensures third == Some(Controls.AdvanceBy(id, 1))
  {
    var panel := new Controls.ControlsPanel(Some(id));
    panel.BoardQueryChanged(Some(BoardStateResponse(id, 0, 20, 20, 0, None)), false, None);
    first := panel.ClickNext();
    reset := panel.ClickReset();
    panel.ResetSettled();
    second := panel.ClickNext();
    panel.ManualAdvanceSettled();
    third := panel.ClickNext();
  }
}
