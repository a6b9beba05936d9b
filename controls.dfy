/**
 * The simulation control panel (apps/controls-mfe): identity adoption, the
 * view it shows, the manual advance buttons and their lock-out, the step
 * count input, reset to an empty grid, and the autoplay interval.
 */
module Controls {
  import opened Wrappers
  import opened Types
  import Grids

  const DefaultDimension := 20
  const TickSteps := 1

  /** A mutation the panel asks for. */
  datatype MutationCall = AdvanceBy(id: BoardId, steps: int) | ReplaceGrid(id: BoardId, grid: Grid)

  /** Interval bookkeeping: every interval created or cleared, by handle. */
  datatype TimerOp = SetInterval(handle: nat) | ClearInterval(handle: nat)

  datatype ViewState = CreatePrompt | LoadingPanel | LoadFailed(message: string) | ControlPanel

  /**
   * The identity the change handler adopts: the event's detail when it has
   * one (an empty string included), otherwise the persisted pointer.
   */
  function AdoptedId(detail: Option<BoardId>, stored: Option<BoardId>): (id: Option<BoardId>)
    ensures detail.Some? ==> id == detail
    ensures detail.None? ==> id == stored
  {
    if detail.Some? then detail else stored
  }

  /** The identity on mount: the persisted pointer, an empty one read as none. */
  function MountedId(stored: Option<BoardId>): (id: Option<BoardId>)
    ensures Truthy(id) <==> Truthy(stored)
    ensures id.Some? ==> id == stored
    ensures !Truthy(stored) ==> id.None?
  {
    if Truthy(stored) then stored else None
  }

  /** Which view the panel shows, in the fixed order of its early returns. */
  function SelectView(boardId: Option<BoardId>, interacted: bool, loading: bool, error: Option<string>): (v: ViewState)
    ensures v == CreatePrompt <==> !Truthy(boardId) && !interacted
    ensures v == LoadingPanel <==> (!Truthy(boardId) && interacted) || (Truthy(boardId) && loading)
    ensures v.LoadFailed? <==> Truthy(boardId) && !loading && error.Some?
    ensures v.LoadFailed? ==> v.message == error.value
    ensures v == ControlPanel <==> Truthy(boardId) && !loading && error.None?
  {
    if !Truthy(boardId) && !interacted then CreatePrompt
    else if !Truthy(boardId) && interacted then LoadingPanel
    else if loading then LoadingPanel
    else if error.Some? then LoadFailed(error.value)
    else ControlPanel
  }

  /** At least 1: the bound applied to every value the step input takes and to every "Advance N" request. */
  function ClampSteps(n: int): (s: int)
    ensures s >= 1
    ensures n >= 1 ==> s == n
    ensures n < 1 ==> s == 1
  {
    if n < 1 then 1 else n
  }

  /** Clamping twice is clamping once. */
  lemma ClampStepsIdempotent(n: int)
    ensures ClampSteps(ClampSteps(n)) == ClampSteps(n)
  {
  }

  /** The Next and Advance N buttons are disabled while playing or while a manual advance is pending. */
  function AdvanceDisabled(playing: bool, manualAdvancing: bool): (d: bool)
    ensures playing ==> d
    ensures manualAdvancing ==> d
    ensures !playing && !manualAdvancing ==> !d
  {
    playing || manualAdvancing
  }

  /** An interval exists exactly while playing with a truthy identity. */
  function AutoplayWanted(playing: bool, boardId: Option<BoardId>): (w: bool)
    ensures w ==> playing && Truthy(boardId)
    ensures !playing || !Truthy(boardId) ==> !w
    ensures playing && Truthy(boardId) ==> w
  {
    playing && Truthy(boardId)
  }

  /** The dimension a reference keeps: a truthy (non-zero) new value replaces it. */
  function KeptDimension(current: int, incoming: Option<int>): (d: int)
    ensures incoming.Some? && incoming.value != 0 ==> d == incoming.value
    ensures incoming.None? || incoming.value == 0 ==> d == current
  {
    if incoming.Some? && incoming.value != 0 then incoming.value else current
  }

  /** The identity the advance and update mutations are bound to: the current one, or empty when there is none. */
  function MutationId(boardId: Option<BoardId>): (id: BoardId)
    ensures id == "" <==> !Truthy(boardId)
    ensures Truthy(boardId) ==> id == boardId.value
  {
    boardId.GetOr("")
  }

  /** The panel's observed state: everything a render reads, the interval aside. */
  datatype PanelState = PanelState(
    interacted: bool,
    boardId: Option<BoardId>,
    boardLoading: bool,
    boardError: Option<string>,
    playing: bool,
    manualAdvancing: bool,
    height: int,
    width: int,
    steps: int,
    resetPending: bool)

  function ViewOf(s: PanelState): ViewState {
    SelectView(s.boardId, s.interacted, s.boardLoading, s.boardError)
  }

  /**
   * The state a render leaves: the step input lives inside the buttons, so it
   * starts over at 1 whenever they are not on screen; nothing else changes.
   */
  function Rendered(s: PanelState): (t: PanelState)
    ensures ViewOf(t) == ViewOf(s)
    ensures ViewOf(s) == ControlPanel ==> t == s
    ensures ViewOf(s) != ControlPanel ==> t == s.(steps := 1)
  {
    if ViewOf(s) == ControlPanel then s else s.(steps := 1)
  }

  /** Handles of the intervals created and not yet cleared. */
  ghost function Running(log: seq<TimerOp>): set<nat> {
    if log == [] then {}
    else
      var prev := Running(log[..|log| - 1]);
      var op := log[|log| - 1];
      if op.SetInterval? then prev + {op.handle} else prev - {op.handle}
  }

  ghost function Live(timer: Option<nat>): set<nat> {
    if timer.Some? then {timer.value} else {}
  }

  /** Each log entry extends the running set by its own effect. */
  lemma RunningAppend(log: seq<TimerOp>, op: TimerOp)
    ensures op.SetInterval? ==> Running(log + [op]) == Running(log) + {op.handle}
    ensures op.ClearInterval? ==> Running(log + [op]) == Running(log) - {op.handle}
  {
    assert (log + [op])[..|log|] == log;
  }

  function Teardown(timer: Option<nat>): seq<TimerOp> {
    if timer.Some? then [ClearInterval(timer.value)] else []
  }

  class ControlsPanel {
    var interacted: bool
    var boardId: Option<BoardId>
    var boardLoading: bool
    var boardError: Option<string>
    var playing: bool
    var manualAdvancing: bool
    var height: int
    var width: int
    var steps: int
    var resetPending: bool
    var effectDeps: (bool, Option<BoardId>)
    var timer: Option<nat>
    var nextHandle: nat
    ghost var timerLog: seq<TimerOp>

    function State(): PanelState
      reads this
    {
      PanelState(interacted, boardId, boardLoading, boardError, playing,
        manualAdvancing, height, width, steps, resetPending)
    }

    function View(): ViewState
      reads this
    {
      SelectView(boardId, interacted, boardLoading, boardError)
    }

    /** The interval matches its dependencies, and at most one interval is ever alive. */
    ghost predicate TimerConsistent()
      reads this
    {
      && (timer.Some? <==> AutoplayWanted(effectDeps.0, effectDeps.1))
      && Running(timerLog) == Live(timer)
    }

    ghost predicate Valid()
      reads this
    {
      && TimerConsistent()
      && effectDeps == (playing, boardId)
      && steps >= 1
      && (View() != ControlPanel ==> steps == 1)
    }

    /**
     * First render plus the mount effects: the identity is the persisted
     * pointer, its board query is loading exactly when it is enabled, and
     * nothing is playing.
     */
    constructor (stored: Option<BoardId>)
      ensures Valid()
      ensures State() == PanelState(false, MountedId(stored), Truthy(stored), None, false, false,
        DefaultDimension, DefaultDimension, 1, false)
      ensures timer.None? && timerLog == []
    {
      interacted := false;
      boardId := MountedId(stored);
      boardLoading := Truthy(stored);
      boardError := None;
      playing := false;
      manualAdvancing := false;
      height := DefaultDimension;
      width := DefaultDimension;
      steps := 1;
      resetPending := false;
      effectDeps := (false, MountedId(stored));
      timer := None;
      nextHandle := 0;
      timerLog := [];
    }

    /**
     * What follows every state change: the step input starts over at 1 whenever
     * the buttons are not on screen, and the autoplay effect re-runs when
     * `playing` or `boardId` changed, clearing the old interval before it
     * creates a new one.
     */
    method Commit()
      requires TimerConsistent() && steps >= 1
      modifies this
      ensures Valid()
      ensures State() == Rendered(old(State()))
      ensures old(effectDeps) == (playing, boardId) ==> timer == old(timer) && timerLog == old(timerLog)
      ensures old(effectDeps) != (playing, boardId) ==>
        timerLog == old(timerLog) + Teardown(old(timer)) +
          (if AutoplayWanted(playing, boardId) then [SetInterval(old(nextHandle))] else [])
    {
      if View() != ControlPanel {
        steps := 1;
      }
      RunAutoplayEffect();
    }

    /** The autoplay effect, run only when its dependencies changed since its last run. */
    method RunAutoplayEffect()
      requires TimerConsistent()
      modifies this`effectDeps, this`timer, this`nextHandle, this`timerLog
      ensures TimerConsistent() && effectDeps == (playing, boardId)
      ensures old(effectDeps) == (playing, boardId) ==> timer == old(timer) && timerLog == old(timerLog)
      ensures old(effectDeps) != (playing, boardId) ==>
        timerLog == old(timerLog) + Teardown(old(timer)) +
          (if AutoplayWanted(playing, boardId) then [SetInterval(old(nextHandle))] else [])
    {
      if effectDeps != (playing, boardId) {
        ClearTimer();
        if AutoplayWanted(playing, boardId) {
          RunningAppend(timerLog, SetInterval(nextHandle));
          timerLog := timerLog + [SetInterval(nextHandle)];
          timer := Some(nextHandle);
          nextHandle := nextHandle + 1;
        }
        effectDeps := (playing, boardId);
      }
    }

    /** The effect's cleanup: clears the interval, if one exists. */
    method ClearTimer()
      requires Running(timerLog) == Live(timer)
      modifies this`timer, this`timerLog
      ensures timer.None? && Running(timerLog) == {}
      ensures timerLog == old(timerLog) + Teardown(old(timer))
    {
      if timer.Some? {
        RunningAppend(timerLog, ClearInterval(timer.value));
        timerLog := timerLog + [ClearInterval(timer.value)];
        timer := None;
      }
    }

    /** The board announced an interaction: the panel stops showing the create prompt. */
    method BoardInteracted()
      requires Valid()
      modifies this
      ensures Valid()
      ensures State() == Rendered(old(State()).(interacted := true))
      ensures timer == old(timer) && timerLog == old(timerLog)
    {
      interacted := true;
      Commit();
    }

    /**
     * The identity changed: adopt the event's detail, or the persisted pointer
     * when there is none. A different identity means a different board query,
     * which in that same render is loading exactly when it is enabled and has
     * no error yet.
     */
    method BoardIdChanged(detail: Option<BoardId>, stored: Option<BoardId>)
      requires Valid()
      modifies this
      ensures Valid()
      ensures boardId == old(boardId) ==> State() == old(State())
      ensures boardId != old(boardId) ==>
        State() == Rendered(old(State()).(boardId := AdoptedId(detail, stored),
          boardLoading := Truthy(AdoptedId(detail, stored)), boardError := None))
      ensures boardId == AdoptedId(detail, stored)
      ensures boardId == old(boardId) ==> timer == old(timer) && timerLog == old(timerLog)
      ensures boardId != old(boardId) ==>
        timerLog == old(timerLog) + Teardown(old(timer)) +
          (if AutoplayWanted(playing, boardId) then [SetInterval(old(nextHandle))] else [])
    {
      var id := AdoptedId(detail, stored);
      if id != boardId {
        boardId, boardLoading, boardError := id, Truthy(id), None;
        assert State() == old(State()).(boardId := id, boardLoading := Truthy(id), boardError := None);
      }
      Commit();
    }

    /** The board query reports; the remembered dimensions change only for truthy values. */
    method BoardQueryChanged(data: Option<BoardStateResponse>, loading: bool, error: Option<string>)
      requires Valid()
      modifies this
      ensures Valid()
      ensures State() == Rendered(old(State()).(
        boardLoading := loading,
        boardError := error,
        height := KeptDimension(old(height), if data.Some? then Some(data.value.height) else None),
        width := KeptDimension(old(width), if data.Some? then Some(data.value.width) else None)))
      ensures timer == old(timer) && timerLog == old(timerLog)
    {
      var h := KeptDimension(height, if data.Some? then Some(data.value.height) else None);
      var w := KeptDimension(width, if data.Some? then Some(data.value.width) else None);
      boardLoading, boardError, height, width := loading, error, h, w;
      assert State() == old(State()).(boardLoading := loading, boardError := error, height := h, width := w);
      Commit();
    }

    /** Flips `playing`, which stops or starts the interval; the view and the rest of the state stay. */
    method TogglePlay()
      requires Valid()
      modifies this
      ensures Valid()
      ensures State() == old(State()).(playing := !old(playing))
      ensures timer.Some? <==> AutoplayWanted(playing, boardId)
      ensures timerLog == old(timerLog) + Teardown(old(timer)) +
        (if AutoplayWanted(playing, boardId) then [SetInterval(old(nextHandle))] else [])
    {
      playing := !playing;
      Commit();
    }

    /** Two presses of Play/Stop give back the whole observed state and whether an interval runs. */
    method TogglePlayTwice()
      requires Valid()
      modifies this
      ensures Valid()
      ensures State() == old(State())
      ensures timer.Some? == old(timer.Some?)
    {
      TogglePlay();
      TogglePlay();
    }

    /** Locks the manual buttons and asks for one generation. */
    method OnNext() returns (call: MutationCall)
      requires Valid()
      modifies this
      ensures Valid()
      ensures State() == Rendered(old(State()).(manualAdvancing := true))
      ensures call == AdvanceBy(MutationId(boardId), 1)
      ensures timer == old(timer) && timerLog == old(timerLog)
    {
      manualAdvancing := true;
      call := AdvanceBy(MutationId(boardId), 1);
      Commit();
    }

    /** Locks the manual buttons and asks for `n` generations. */
    method OnAdvanceN(n: int) returns (call: MutationCall)
      requires Valid()
      modifies this
      ensures Valid()
      ensures State() == Rendered(old(State()).(manualAdvancing := true))
      ensures call == AdvanceBy(MutationId(boardId), n)
      ensures timer == old(timer) && timerLog == old(timerLog)
    {
      manualAdvancing := true;
      call := AdvanceBy(MutationId(boardId), n);
      Commit();
    }

    /** The manual advance settled, on success or failure: the buttons unlock. */
    method ManualAdvanceSettled()
      requires Valid()
      modifies this
      ensures Valid()
      ensures State() == Rendered(old(State()).(manualAdvancing := false))
      ensures timer == old(timer) && timerLog == old(timerLog)
    {
      manualAdvancing := false;
      Commit();
    }

    /** With an identity, replaces the board by a dead grid of the remembered size; without one, does nothing. */
    method OnReset() returns (call: Option<MutationCall>)
      requires Valid()
      modifies this
      ensures Valid()
      ensures !Truthy(boardId) ==> call.None? && State() == old(State())
      ensures Truthy(boardId) ==>
        && call == Some(ReplaceGrid(boardId.value, Grids.AllFalse(height, width)))
        && State() == Rendered(old(State()).(resetPending := true))
      ensures timer == old(timer) && timerLog == old(timerLog)
    {
      if !Truthy(boardId) {
        return None;
      }
      call := Some(ReplaceGrid(boardId.value, Grids.AllFalse(height, width)));
      resetPending := true;
      Commit();
    }

    /** The reset request settled. */
    method ResetSettled()
      requires Valid()
      modifies this
      ensures Valid()
      ensures State() == Rendered(old(State()).(resetPending := false))
      ensures timer == old(timer) && timerLog == old(timerLog)
    {
      resetPending := false;
      Commit();
    }

    /** A click on Next: ignored unless the buttons are shown and enabled. */
    method ClickNext() returns (call: Option<MutationCall>)
      requires Valid()
      modifies this
      ensures Valid()
      ensures call.Some? <==> old(View()) == ControlPanel && !AdvanceDisabled(old(playing), old(manualAdvancing))
      ensures call.Some? ==>
        && Truthy(boardId) && call.value == AdvanceBy(boardId.value, 1)
        && State() == old(State()).(manualAdvancing := true)
      ensures call.None? ==> State() == old(State())
      ensures timer == old(timer) && timerLog == old(timerLog)
    {
      if View() != ControlPanel || AdvanceDisabled(playing, manualAdvancing) {
        return None;
      }
      var c := OnNext();
      call := Some(c);
    }

    /** Typing into the step input, which exists only on the control panel. */
    method InputSteps(value: int)
      requires Valid()
      modifies this
      ensures Valid()
      ensures old(View()) == ControlPanel ==> State() == old(State()).(steps := ClampSteps(value))
      ensures old(View()) != ControlPanel ==> State() == old(State())
      ensures timer == old(timer) && timerLog == old(timerLog)
    {
      if View() == ControlPanel {
        steps := ClampSteps(value);
      }
      Commit();
    }

    /** A click on Advance N: ignored unless shown and enabled; asks for at least one step. */
    method ClickAdvanceN() returns (call: Option<MutationCall>)
      requires Valid()
      modifies this
      ensures Valid()
      ensures call.Some? <==> old(View()) == ControlPanel && !AdvanceDisabled(old(playing), old(manualAdvancing))
      ensures call.Some? ==>
        && Truthy(boardId) && call.value == AdvanceBy(boardId.value, ClampSteps(old(steps)))
        && call.value.steps >= 1
        && State() == old(State()).(manualAdvancing := true)
      ensures call.None? ==> State() == old(State())
      ensures timer == old(timer) && timerLog == old(timerLog)
    {
      if View() != ControlPanel || AdvanceDisabled(playing, manualAdvancing) {
        return None;
      }
      var c := OnAdvanceN(ClampSteps(steps));
      call := Some(c);
    }

    /** A click on Play/Stop: never disabled, so it toggles whenever the panel is shown. */
    method ClickPlay()
      requires Valid()
      modifies this
      ensures Valid()
      ensures old(View()) == ControlPanel ==>
        && State() == old(State()).(playing := !old(playing))
        && (timer.Some? <==> AutoplayWanted(playing, boardId))
        && timerLog == old(timerLog) + Teardown(old(timer)) +
             (if AutoplayWanted(playing, boardId) then [SetInterval(old(nextHandle))] else [])
      ensures old(View()) != ControlPanel ==>
        State() == old(State()) && timer == old(timer) && timerLog == old(timerLog)
    {
      if View() == ControlPanel {
        TogglePlay();
      }
    }

    /** A click on Reset: ignored unless shown and no reset is pending. */
    method ClickReset() returns (call: Option<MutationCall>)
      requires Valid()
      modifies this
      ensures Valid()
      ensures call.Some? <==> old(View()) == ControlPanel && !old(resetPending)
      ensures call.Some? ==>
        && Truthy(boardId) && call.value == ReplaceGrid(boardId.value, Grids.AllFalse(height, width))
        && State() == old(State()).(resetPending := true)
      ensures call.None? ==> State() == old(State())
      ensures timer == old(timer) && timerLog == old(timerLog)
    {
      if View() != ControlPanel || resetPending {
        return None;
      }
      call := OnReset();
    }

    /** An interval tick: advances the current identity by one generation. */
    method Tick() returns (call: MutationCall)
      requires Valid() && timer.Some?
      ensures Truthy(boardId) && playing
      ensures call == AdvanceBy(boardId.value, TickSteps)
    {
      call := AdvanceBy(MutationId(boardId), TickSteps);
    }
  }
}
