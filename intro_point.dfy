/** The "points" chapter of the walkthrough as the closure keeps it: the
    intro listeners registered with the editor, the `timeouts` array, the
    window's table of pending timers, the tooltip last revealed and the
    count of 'done' dispatches. Every method rewrites these fields in place
    and is proved to take `State()` where the matching function of
    `IntroPointSpec` says it goes; the properties of the chapter are proved
    there, about those functions. */
module IntroPoint {
  import opened Wrappers
  import Spec = IntroPointSpec

  class Chapter {
    var listeners: map<Spec.Slot, Spec.Handler>
    var timeouts: seq<nat>                  // the chapter's `timeouts` array
    var pending: map<nat, Spec.Timer>       // the window's timers not yet run or cleared
    var nextId: nat                         // the id `window.setTimeout` hands out next
    var tip: Option<Spec.Tip>
    var done: nat
    var resets: nat

    function State(): Spec.Walkthrough
      reads this
    {
      Spec.Walkthrough(listeners, Spec.Timers(timeouts, pending, nextId), tip, done, resets)
    }

    constructor ()
      ensures State() == Spec.Initial()
    {
      listeners := map[];
      timeouts := [];
      pending := map[];
      nextId := 1;
      tip := None;
      done := 0;
      resets := 0;
    }

    /** `timeout(f, t)`: the window schedules the task and the id is pushed onto `timeouts`. */
    method Timeout(task: Spec.Task, delay: nat)
      modifies this
      ensures State() == Spec.Schedule(old(State()), task, delay)
    {
      pending := pending[nextId := Spec.Timer(task, delay)];
      timeouts := timeouts + [nextId];
      nextId := nextId + 1;
    }

    method AddPoint()
      modifies this
      ensures State() == Spec.AddPoint(old(State()))
    {
      tip := Some(Spec.AddTip);
      listeners := listeners[Spec.ModeEnter := Spec.CallPlacePoint];
    }

    method PlacePoint(modeId: string)
      modifies this
      ensures State() == Spec.PlacePoint(old(State()), modeId)
    {
      if modeId != "add-point" {
        return;
      }
      listeners := listeners[Spec.ModeEnter := Spec.CallEnterSelect];
      tip := Some(Spec.PlaceTip);
      listeners := listeners[Spec.MapMove := Spec.RevealPlace][Spec.MapDrawn := Spec.RevealPlace];
    }

    method EnterSelect(modeId: string)
      modifies this
      ensures State() == Spec.EnterSelect(old(State()), modeId)
    {
      if modeId != "select" {
        return;
      }
      listeners := listeners - Spec.MapSlots;
      listeners := listeners - {Spec.ModeEnter};
      Timeout(Spec.ShowSearch, 500);
    }

    /** The task `enterSelect` defers. */
    method ShowSearchTip()
      modifies this
      ensures State() == Spec.ShowSearchTip(old(State()))
    {
      tip := Some(Spec.SearchTip);
      listeners := listeners[Spec.SearchKeyUp := Spec.CallKeySearch];
    }

    method KeySearch(firstIsCafe: bool)
      modifies this
      ensures State() == Spec.KeySearch(old(State()), firstIsCafe)
    {
      if firstIsCafe {
        tip := Some(Spec.ChooseTip);
        listeners := listeners[Spec.HistoryChangeOnce := Spec.CallSelectedPreset];
        listeners := listeners[Spec.SearchKeyDown := Spec.CallEventCancel];
        listeners := listeners - {Spec.SearchKeyUp};
      }
    }

    method SelectedPreset()
      modifies this
      ensures State() == Spec.SelectedPreset(old(State()))
    {
      Timeout(Spec.ShowDescribe, 400);
    }

    /** The task `selectedPreset` defers. */
    method ShowDescribeTip()
      modifies this
      ensures State() == Spec.ShowDescribeTip(old(State()))
    {
      tip := Some(Spec.DescribeTip);
      listeners := listeners[Spec.HistoryChange := Spec.CallCloseEditor];
      listeners := listeners[Spec.ModeExit := Spec.CallSelectPoint];
    }

    method CloseEditor()
      modifies this
      ensures State() == Spec.CloseEditor(old(State()))
    {
      listeners := listeners - {Spec.SearchKeyDown};
      listeners := listeners - {Spec.HistoryChange};
      tip := Some(Spec.CloseTip);
    }

    method SelectPoint()
      modifies this
      ensures State() == Spec.SelectPoint(old(State()))
    {
      listeners := listeners - {Spec.ModeExit};
      listeners := listeners - {Spec.HistoryChange};
      listeners := listeners[Spec.ModeEnter := Spec.CallEnterReselect];
      tip := Some(Spec.ReselectTip);
      listeners := listeners[Spec.MapMove := Spec.RevealReselect][Spec.MapDrawn := Spec.RevealReselect];
    }

    method EnterReselect(modeId: string)
      modifies this
      ensures State() == Spec.EnterReselect(old(State()), modeId)
    {
      if modeId != "select" {
        return;
      }
      listeners := listeners - Spec.MapSlots;
      listeners := listeners - {Spec.ModeEnter};
      Timeout(Spec.ShowFixName, 500);
    }

    /** The task `enterReselect` defers. */
    method ShowFixNameTip()
      modifies this
      ensures State() == Spec.ShowFixNameTip(old(State()))
    {
      tip := Some(Spec.FixNameTip);
      listeners := listeners[Spec.ModeExit := Spec.CallDeletePoint];
    }

    method DeletePoint()
      modifies this
      ensures State() == Spec.DeletePoint(old(State()))
    {
      listeners := listeners - {Spec.ModeExit};
      listeners := listeners[Spec.ModeEnter := Spec.CallEnterDelete];
      tip := Some(Spec.RightClickTip);
      listeners := listeners[Spec.MapMove := Spec.RevealRightClick][Spec.MapDrawn := Spec.RevealRightClick];
    }

    method EnterDelete(modeId: string)
      modifies this
      ensures State() == Spec.EnterDelete(old(State()), modeId)
    {
      if modeId != "select" {
        return;
      }
      listeners := listeners - Spec.MapSlots;
      listeners := listeners - {Spec.ModeEnter};
      listeners := listeners[Spec.ModeExit := Spec.CallDeletePoint];
      listeners := listeners[Spec.MapMove := Spec.CallDeletePoint][Spec.MapDrawn := Spec.CallDeletePoint];
      listeners := listeners[Spec.HistoryChange := Spec.CallDeleted];
      Timeout(Spec.ShowDelete, 300);
    }

    /** The task `enterDelete` defers; without a delete item in the menu it starts deletePoint over. */
    method ShowDeleteTip(menuHasDelete: bool)
      modifies this
      ensures State() == Spec.ShowDeleteTip(old(State()), menuHasDelete)
    {
      if !menuHasDelete {
        DeletePoint();
      } else {
        tip := Some(Spec.DeleteTip);
      }
    }

    method Deleted(deletedCount: nat)
      modifies this
      ensures State() == Spec.Deleted(old(State()), deletedCount)
    {
      if deletedCount > 0 {
        done := done + 1;
      }
    }

    /** `chapter.enter`: the history goes back to 'initial', then addPoint. */
    method Enter()
      modifies this
      ensures State() == Spec.Enter(old(State()))
    {
      resets := resets + 1;
      AddPoint();
    }

    /** `chapter.exit`: every id in `timeouts` is cleared, one at a time, then every intro slot is unbound. */
    method Exit()
      modifies this
      ensures State() == Spec.Exit(old(State()))
    {
      var i := 0;
      while i < |timeouts|
        invariant 0 <= i <= |timeouts|
        invariant timeouts == old(timeouts) && nextId == old(nextId) && listeners == old(listeners)
        invariant tip == old(tip) && done == old(done) && resets == old(resets)
        invariant pending == map k | k in old(pending) && k !in timeouts[..i] :: old(pending)[k]
      {
        assert timeouts[..i + 1] == timeouts[..i] + [timeouts[i]];
        pending := pending - {timeouts[i]};
        i := i + 1;
      }
      assert timeouts[..i] == timeouts;
      listeners := listeners - Spec.IntroSlots;
    }

    method Restart()
      modifies this
      ensures State() == Spec.Restart(old(State()))
    {
      Exit();
      Enter();
    }

    // -------------------------------------------------------------------------
    // The editor delivering events to whatever is bound

    /** The context's 'enter' event, with the id of the mode entered. */
    method ModeEntered(modeId: string)
      modifies this
      ensures State() == Spec.ModeEntered(old(State()), modeId)
    {
      if Spec.ModeEnter !in listeners {
        return;
      }
      match listeners[Spec.ModeEnter]
      case CallPlacePoint => PlacePoint(modeId);
      case CallEnterSelect => EnterSelect(modeId);
      case CallEnterReselect => EnterReselect(modeId);
      case CallEnterDelete => EnterDelete(modeId);
      case _ =>
    }

    /** The context's 'exit' event. */
    method ModeExited()
      modifies this
      ensures State() == Spec.ModeExited(old(State()))
    {
      if Spec.ModeExit !in listeners {
        return;
      }
      match listeners[Spec.ModeExit]
      case CallSelectPoint => SelectPoint();
      case CallDeletePoint => DeletePoint();
      case _ =>
    }

    /** The map's 'move' or 'drawn' event. */
    method MapEvent(slot: Spec.Slot)
      modifies this
      ensures State() == Spec.MapEvent(old(State()), slot)
    {
      if slot !in listeners {
        return;
      }
      match listeners[slot]
      case RevealPlace => tip := Some(Spec.PlaceTip);
      case RevealReselect => tip := Some(Spec.ReselectTip);
      case RevealRightClick => tip := Some(Spec.RightClickTip);
      case CallDeletePoint => DeletePoint();
      case _ =>
    }

    /** The history's 'change' event: the one-shot listener unbinds itself and
        runs, then the 'change.intro' listener that was bound when the change
        was dispatched. */
    method HistoryChanged(deletedCount: nat)
      modifies this
      ensures State() == Spec.HistoryChangedTo(old(State()), deletedCount)
    {
      var bound := listeners;
      if Spec.HistoryChangeOnce in bound {
        listeners := listeners - {Spec.HistoryChangeOnce};
        SelectedPreset();
      }
      if Spec.HistoryChange !in bound {
        return;
      }
      match bound[Spec.HistoryChange]
      case CallCloseEditor => CloseEditor();
      case CallDeleted => Deleted(deletedCount);
      case _ =>
    }

    /** A key released in the preset search input. */
    method SearchKeyUp(firstIsCafe: bool)
      modifies this
      ensures State() == Spec.SearchKeyUpped(old(State()), firstIsCafe)
    {
      if Spec.SearchKeyUp in listeners {
        KeySearch(firstIsCafe);
      }
    }

    /** The window running timer `id`: a timer still pending is spent and its task runs. */
    method TimerFired(id: nat, menuHasDelete: bool)
      modifies this
      ensures State() == Spec.TimerFired(old(State()), id, menuHasDelete)
    {
      if id !in pending {
        return;
      }
      var task := pending[id].task;
      pending := pending - {id};
      match task
      case ShowSearch => ShowSearchTip();
      case ShowDescribe => ShowDescribeTip();
      case ShowFixName => ShowFixNameTip();
      case ShowDelete => ShowDeleteTip(menuHasDelete);
    }

    method Step(e: Spec.Event)
      modifies this
      ensures State() == Spec.Step(old(State()), e)
    {
      match e
      case EnterMode(m) => ModeEntered(m);
      case ExitMode => ModeExited();
      case MapMoved => MapEvent(Spec.MapMove);
      case MapRedrawn => MapEvent(Spec.MapDrawn);
      case HistoryChanged(n) => HistoryChanged(n);
      case KeyUp(c) => SearchKeyUp(c);
      case KeyDown =>
      case TimerFires(id, d) => TimerFired(id, d);
    }
  }
}
