/**
 * The main window's volume bar. Each update-loop tick calls
 * SetInnerRectangleSize, which moves the inner rectangle's height one unit
 * towards 300 while growing, one unit towards 0 while shrinking, and turns
 * round when it has reached the bound it was heading for.
 */
module Window {
  import Delegates
  import Scheduler

  const MaxHeight: int := 300
  const MinHeight: int := 0
  const InitialHeight: int := 100

  /** The two pieces of state a step reads and writes. */
  datatype BarState = BarState(height: int, grow: bool)

  predicate InRange(s: BarState) {
    MinHeight <= s.height <= MaxHeight
  }

  /** A freshly constructed window: height 100, growing. */
  function Initial(): (s: BarState)
    ensures InRange(s)
  {
    BarState(InitialHeight, true)
  }

  /**
   * One call of SetInnerRectangleSize. Exactly one of the two fields
   * changes: the height moves one unit in the current direction, or the
   * direction flips, and it flips only at the bound being approached.
   */
  function Next(s: BarState): (r: BarState)
    ensures InRange(s) ==> InRange(r)
    ensures (r.height != s.height) != (r.grow != s.grow)
    ensures r.grow == s.grow ==> r.height == s.height + (if s.grow then 1 else -1)
    ensures InRange(s) && r.grow != s.grow ==> s.height == (if s.grow then MaxHeight else MinHeight)
  {
    if s.height < MaxHeight && s.grow then BarState(s.height + 1, s.grow)
    else if s.height > MinHeight && !s.grow then BarState(s.height - 1, s.grow)
    else BarState(s.height, !s.grow)
  }

  /** The state after `n` ticks. */
  function Iterate(s: BarState, n: nat): (r: BarState)
    ensures InRange(s) ==> InRange(r)
    decreases n
  {
    if n == 0 then s else Iterate(Next(s), n - 1)
  }

  lemma {:induction false} IterateAdd(s: BarState, m: nat, n: nat)
    ensures Iterate(s, m + n) == Iterate(Iterate(s, m), n)
    decreases m
  {
    if m > 0 {
      IterateAdd(Next(s), m - 1, n);
    }
  }

  lemma IterateOneMore(s: BarState, n: nat)
    ensures Iterate(s, n + 1) == Next(Iterate(s, n))
  {
    IterateAdd(s, n, 1);
  }

  /** While growing and below the top, each tick adds one to the height. */
  lemma {:induction false} Climb(s: BarState, k: nat)
    requires s.grow && s.height + k <= MaxHeight
    ensures Iterate(s, k) == BarState(s.height + k, true)
    decreases k
  {
    if k > 0 {
      Climb(Next(s), k - 1);
    }
  }

  /** While shrinking and above the bottom, each tick takes one from the height. */
  lemma {:induction false} Descend(s: BarState, k: nat)
    requires !s.grow && s.height - k >= MinHeight
    ensures Iterate(s, k) == BarState(s.height - k, false)
    decreases k
  {
    if k > 0 {
      Descend(Next(s), k - 1);
    }
  }

  /**
   * From the initial state the bar grows for 200 ticks, reaching 300, and
   * the 201st tick turns it round without changing the height.
   */
  lemma FirstTurn()
    ensures forall k :: 0 <= k <= 200 ==> Iterate(Initial(), k) == BarState(InitialHeight + k, true)
    ensures Iterate(Initial(), 201) == BarState(MaxHeight, false)
  {
    forall k | 0 <= k <= 200
      ensures Iterate(Initial(), k) == BarState(InitialHeight + k, true)
    {
      Climb(Initial(), k);
    }
    IterateOneMore(Initial(), 200);
  }

  /** A growing bar reaches the top and turns round. */
  lemma RiseAndTurn(s: BarState)
    requires InRange(s) && s.grow
    ensures Iterate(s, MaxHeight - s.height + 1) == BarState(MaxHeight, false)
  {
    Climb(s, MaxHeight - s.height);
    IterateOneMore(s, MaxHeight - s.height);
  }

  /** A shrinking bar reaches the bottom and turns round. */
  lemma FallAndTurn(s: BarState)
    requires InRange(s) && !s.grow
    ensures Iterate(s, s.height - MinHeight + 1) == BarState(MinHeight, true)
  {
    Descend(s, s.height - MinHeight);
    IterateOneMore(s, s.height - MinHeight);
  }

  /**
   * The bar oscillates forever: every in-range state comes back after one
   * full cycle of 300 ticks up, one turn, 300 ticks down and one turn.
   */
  lemma Period(s: BarState)
    requires InRange(s)
    ensures Iterate(s, 602) == s
  {
    var h := s.height;
    if s.grow {
      var top := Iterate(s, MaxHeight - h + 1);
      RiseAndTurn(s);
      var bottom := Iterate(top, MaxHeight + 1);
      FallAndTurn(top);
      Climb(bottom, h);
      IterateAdd(s, MaxHeight - h + 1, MaxHeight + 1);
      IterateAdd(s, MaxHeight - h + 1 + MaxHeight + 1, h);
    } else {
      var bottom := Iterate(s, h + 1);
      FallAndTurn(s);
      var top := Iterate(bottom, MaxHeight + 1);
      RiseAndTurn(bottom);
      Descend(top, MaxHeight - h);
      IterateAdd(s, h + 1, MaxHeight + 1);
      IterateAdd(s, h + 1 + MaxHeight + 1, MaxHeight - h);
    }
  }

  class MainWindow {
    /** `_innerRectangle.Height`; only whole numbers are ever stored in it. */
    var height: int
    /** `_grow` */
    var grow: bool

    function State(): BarState
      reads this
    {
      BarState(height, grow)
    }

    ghost predicate Valid()
      reads this
    {
      InRange(State())
    }

    /**
     * The window starts with a bar of height 100 that is growing, and
     * registers its SetInnerRectangleSize (identified by the window itself)
     * at the end of the singleton update loop's invocation list, creating
     * the loop on first use.
     */
    constructor (statics: Scheduler.UpdateLoopStatics)
      modifies statics, statics.Loops()
      ensures Valid() && State() == Initial()
      ensures statics.instance.Some?
      ensures old(statics.instance).Some? ==> statics.instance == old(statics.instance)
      ensures old(statics.instance).None? ==> fresh(statics.instance.value)
      ensures statics.Registered() == old(statics.Registered()) + [this]
    {
      height := InitialHeight;
      grow := true;
      new;
      var loop := statics.Instance();
      loop.Subscribe(this);
    }

    /** One tick of the volume bar: the state becomes Next of the old state. */
    method SetInnerRectangleSize()
      requires Valid()
      modifies this
      ensures Valid()
      ensures State() == Next(old(State()))
      ensures old(height) < MaxHeight && old(grow) ==> height == old(height) + 1 && grow
      ensures !(old(height) < MaxHeight && old(grow)) && old(height) > MinHeight && !old(grow) ==>
                height == old(height) - 1 && !grow
      ensures !(old(height) < MaxHeight && old(grow)) && !(old(height) > MinHeight && !old(grow)) ==>
                height == old(height) && grow == !old(grow)
    {
      var tick := height;
      var max := MaxHeight;
      var min := MinHeight;
      if tick < max && grow {
        tick := tick + 1;
        height := tick;
      } else if tick > min && !grow {
        tick := tick - 1;
        height := tick;
      } else {
        grow := !grow;
      }
    }

    /**
     * Closing the window removes the last registration of its
     * SetInnerRectangleSize from the singleton loop; a window registered
     * once is then no longer called.
     */
    method OnClosed(statics: Scheduler.UpdateLoopStatics)
      modifies statics, statics.Loops()
      ensures statics.instance.Some?
      ensures old(statics.instance).Some? ==> statics.instance == old(statics.instance)
      ensures statics.Registered() == Delegates.Remove(old(statics.Registered()), this)
      ensures multiset(old(statics.Registered()))[this] <= 1 ==> this !in statics.Registered()
    {
      var loop := statics.Instance();
      loop.Unsubscribe(this);
      Delegates.RemoveCounts(old(statics.Registered()), this);
    }
  }

  /**
   * A timer tick of the update loop as the window sees it: the window's
   * bar advances once for each time its step is registered. The calls to
   * other subscribers are not modelled.
   */
  method DeliverTick(loop: Scheduler.UpdateLoop, window: MainWindow)
    requires window.Valid()
    modifies window
    ensures window.Valid()
    ensures window.State() == Iterate(old(window.State()), multiset(loop.onUpdate)[window])
  {
    var invoked := loop.Tick();
    var i := 0;
    while i < |invoked|
      invariant 0 <= i <= |invoked|
      invariant window.Valid()
      invariant window.State() == Iterate(old(window.State()), multiset(invoked[..i])[window as object])
    {
      assert invoked[..i + 1] == invoked[..i] + [invoked[i]];
      if invoked[i] == window {
        IterateOneMore(old(window.State()), multiset(invoked[..i])[window as object]);
        window.SetInnerRectangleSize();
      }
      i := i + 1;
    }
    assert invoked[..i] == invoked;
  }

  /**
   * A window subscribed a second time moves its bar two units on the next
   * tick; after one unsubscribe it moves one unit per tick again.
   */
  method DuplicateSubscription() returns (afterFirstTick: int, afterSecondTick: int)
    ensures afterFirstTick == InitialHeight + 2
    ensures afterSecondTick == InitialHeight + 3
  {
    var statics := new Scheduler.UpdateLoopStatics();
    var window := new MainWindow(statics);
    var loop := statics.Instance();
    loop.Subscribe(window);
    assert loop.onUpdate == [window, window];
    DeliverTick(loop, window);
    assert multiset(loop.onUpdate)[window as object] == 2;
    assert Iterate(Initial(), 2) == BarState(InitialHeight + 2, true);
    afterFirstTick := window.height;
    loop.Unsubscribe(window);
    assert loop.onUpdate == [window];
    DeliverTick(loop, window);
    afterSecondTick := window.height;
  }
}
