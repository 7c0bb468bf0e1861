# Test_Microphone_Audio: volume bar and update loop

This project is a Dafny model of two small stateful parts of the WPF test
application Test_Microphone_Audio:

- **The update loop** (`UpdateLoop`) is a lazily created, process-wide
  object. Its timer fires the multicast event `OnUpdate` on every tick.
  `Subscribe` and `Unsubscribe` edit the event's invocation list with `+=`
  and `-=`. The model is the class `Scheduler.UpdateLoop`. Its field
  `onUpdate: seq<Action>` is the invocation list, with multiplicity and in
  order. The static field `_instance` is the class
  `Scheduler.UpdateLoopStatics`, which has an `Option`-valued field that is
  set once. The source has a private constructor and a static field, so it has at most one loop in the whole program; the model instead gives each `UpdateLoopStatics` object its own field, and its `UpdateLoop` constructor is public, so "set once" holds per `UpdateLoopStatics` object, not for the whole program. The program itself corresponds to a single `UpdateLoopStatics` object. `Delegates.Remove` is the `Delegate.Remove` rule: it drops the
  last entry equal to the argument, or leaves the list alone when there is
  none.
- **The volume bar** in `MainWindow` has a height and a direction flag
  `_grow`. Each tick, `SetInnerRectangleSize` moves the height one unit
  toward 300 or toward 0, or flips the direction at the bound. The model is
  the class `Window.MainWindow`, with fields `height: int` and `grow: bool`.
  The pure function `Window.Next` gives the step on a `BarState` value, and
  `Window.Iterate` gives `n` steps. The lemmas about them state the bounds,
  the first turn and the period of the oscillation. The window registers
  its step with the loop when it is constructed and removes it in
  `OnClosed`.

The height is a WPF `double`, but only whole numbers are ever stored in it
(MainWindow.xaml.cs lines 61, 81 and 86), so the model uses `int`. The
comment at MainWindow.xaml.cs:73 says the bar grows to "max 100", but the
code uses `max = 300` (line 75). The model follows the code.

A subscriber is an `Action` delegate. Two delegates to the same method are
equal exactly when their targets are equal. The model therefore identifies
a subscriber by its target object, `type Action = object`. The window's
`SetInnerRectangleSize` is identified by the window itself.

## Model

| member | source | states |
|---|---|---|
| Delegates.LastIndexOf | Test_Microphone_Audio/UpdateLoop.cs:30-33 | The result is None exactly when the action is not registered. Otherwise it is an index holding the action, and no later entry holds it. |
| Delegates.Remove | Test_Microphone_Audio/UpdateLoop.cs:30-33 | Unsubscribing an action that is not registered leaves the list unchanged. Unsubscribing a registered action shortens the list by exactly one entry. |
| Delegates.RemoveCounts | Test_Microphone_Audio/UpdateLoop.cs:30-33 | Unsubscribing removes one registration of the action. Every other subscriber keeps its registration count. |
| Delegates.RemoveSplicesLastOccurrence | Test_Microphone_Audio/UpdateLoop.cs:30-33 | The entry removed is the last occurrence of the action. All other entries keep their relative order. |
| Delegates.CombineThenRemove | Test_Microphone_Audio/UpdateLoop.cs:25-33 | Subscribe followed by Unsubscribe of the same action restores the previous list exactly. |
| Delegates.RemoveKeepsLaterEntries | Test_Microphone_Audio/UpdateLoop.cs:30-33 | Entries registered after the last occurrence of the action stay unchanged, in order, at the end of the list. |
| Scheduler.UpdateLoop.constructor | Test_Microphone_Audio/UpdateLoop.cs:13-21 | A new loop has an empty invocation list. |
| Scheduler.UpdateLoop.Subscribe | Test_Microphone_Audio/UpdateLoop.cs:25-28 | The action is appended at the end. Nothing else changes. The action's registration count grows by one. |
| Scheduler.UpdateLoop.Unsubscribe | Test_Microphone_Audio/UpdateLoop.cs:30-33 | The new list is the old list with the last occurrence removed. It is unchanged when the action is absent. Counts drop by one for that action only. |
| Scheduler.UpdateLoop.Tick | Test_Microphone_Audio/UpdateLoop.cs:19 | A tick invokes exactly the invocation list, in registration order and once per registration. An empty list invokes nothing. |
| Scheduler.UpdateLoopStatics.constructor | Test_Microphone_Audio/UpdateLoop.cs:9 | Before the first access no loop exists. |
| Scheduler.UpdateLoopStatics.Instance | Test_Microphone_Audio/UpdateLoop.cs:23 | The first access creates a fresh loop with no subscribers. Every later access returns that same object. No access changes any registration. |
| Window.Initial | Test_Microphone_Audio/MainWindow.xaml.cs:58-63 | The initial bar state is within 0..300: height 100 (line 61) and `_grow` true (line 25). |
| Window.Next | Test_Microphone_Audio/MainWindow.xaml.cs:71-92 | A step keeps the height within 0..300. Exactly one of height and direction changes. The height moves by one unit in the current direction. The direction flips only at the bound it was heading for: 300 when growing, 0 when shrinking. |
| Window.Iterate | Test_Microphone_Audio/MainWindow.xaml.cs:74-91 | Any number of steps keeps the height within 0..300. |
| Window.IterateAdd | Test_Microphone_Audio/MainWindow.xaml.cs:71-92 | Running m steps and then n steps equals running m+n steps. |
| Window.Climb | Test_Microphone_Audio/MainWindow.xaml.cs:78-82 | While growing below 300, each step adds exactly one to the height and keeps the direction. |
| Window.Descend | Test_Microphone_Audio/MainWindow.xaml.cs:83-87 | While shrinking above 0, each step subtracts exactly one from the height and keeps the direction. |
| Window.RiseAndTurn | Test_Microphone_Audio/MainWindow.xaml.cs:78-91 | A growing bar reaches 300 and then turns to shrinking. |
| Window.FallAndTurn | Test_Microphone_Audio/MainWindow.xaml.cs:83-91 | A shrinking bar reaches 0 and then turns to growing. |
| Window.FirstTurn | Test_Microphone_Audio/MainWindow.xaml.cs:78-91 | From height 100, growing, step k (k at most 200) gives height 100+k, still growing. Step 201 flips the direction at height 300. |
| Window.Period | Test_Microphone_Audio/MainWindow.xaml.cs:74-91 | Every in-range state returns to itself after 602 steps: 300 up, one turn, 300 down, one turn. |
| Window.MainWindow.constructor | Test_Microphone_Audio/MainWindow.xaml.cs:25-69 | The window starts at height 100, growing. Its step is appended to the singleton loop's list, and the loop is created if it does not exist yet. |
| Window.MainWindow.SetInnerRectangleSize | Test_Microphone_Audio/MainWindow.xaml.cs:71-92 | The new state is Next of the old one. Growing below 300 adds one. Otherwise, shrinking above 0 subtracts one. Otherwise the direction flips and the height stays. The range invariant is kept. |
| Window.MainWindow.OnClosed | Test_Microphone_Audio/MainWindow.xaml.cs:94-98 | The last registration of the window's step is removed from the singleton loop. A window that was registered once is no longer registered. |
| Window.DeliverTick | Test_Microphone_Audio/UpdateLoop.cs:19 | One tick advances the window's bar by as many steps as its step is registered. |
| Window.DuplicateSubscription | Test_Microphone_Audio/UpdateLoop.cs:25-33 | For a fresh window (height 100, growing) subscribed a second time, one tick gives height 102. After one Unsubscribe, the next tick gives 103. The general rule, one step per registration on every tick, is the contract of Window.DeliverTick. |

## Left out

- The audio capture and signal analysis (PCM decoding, loudness, zero-crossing frequency) and their (loudness, frequency) subscribers. This code is not part of this model.
- The WPF layout in MainWindow.xaml.cs:30-66 (canvas, title, circle, outer rectangle, brushes, positions). It is presentation only.
- The `DispatcherTimer` and its 1000/60 ms interval (UpdateLoop.cs:15-20). The model treats a timer tick as a call of `Tick`, and `DeliverTick` for the window.
- Window.DeliverTick: only the window's own registrations have an effect in the model. Calls to other subscribers are opaque and do nothing.
- Exceptions during `Invoke`: the source stops a multicast invocation at the first exception, and the model has no failing subscribers.
- Thread safety of `_instance ??= new UpdateLoop()`. The code is unsynchronised, and the model is single-threaded.
- Null delegates passed to `Subscribe` or `Unsubscribe`, and the removal of a multi-entry delegate value. Only single non-null actions are subscribed in this application.
- Delegate equality: subscribers are identified by their target object only, which merges different methods of one object and cannot express a static-method delegate (null target); each window subscribes only SetInnerRectangleSize, so no behaviour of this program depends on it.
