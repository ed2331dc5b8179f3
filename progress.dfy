/**
  Progress reporting of the sample application (samples/progress_dialog.py).

  The Qt progress widget is an `Engine` object with the four properties the
  code reads and writes. `ThrottlingProgressProxy` accumulates ticks and
  writes them through to the engine at most once per throttle window.
  `ProgressDialog` and `ProgressBar` guard the proxy with a nesting level:
  only the outermost `async with progress(...)` opens a context, nested ones
  reuse it, and `tick` outside a context is an error. Time is an integer
  clock in milliseconds, passed in by the caller.
*/
module Progress {
  import opened Optional

  /** The proxy writes through only when more than this time has passed (0.1 s). */
  const ThrottleMs: int := 100

  /** The values of a Qt progress widget that the code reads or writes. */
  datatype EngineView = EngineView(minimum: int, value: int, maximum: int, labelText: Option<string>)

  /** The proxy's fields together with the engine it writes into. */
  datatype ProxyView = ProxyView(lastTick: int, value: int, maximum: int, sticky: Option<string>, engine: EngineView)

  /** One call `tick(advance, label)` made at time `now`. */
  datatype TickCall = TickCall(advance: int, caption: Option<string>, now: int)

  /** A context entry: `ValueError` for non-positive ticks, a new outermost context, or a nested one. */
  datatype Entry = Rejected | Outermost | Nested

  /** Result of `tick`: done, or `RuntimeError` because no context is open. */
  datatype TickResult = Ticked | MissingContext

  /**
    How a context's body failed: with an `Exception` or `trio.Cancelled`,
    which `ProgressDialog` catches, or with any other `BaseException`
    (`KeyboardInterrupt`, `SystemExit`, ...), which nothing here catches.
  */
  datatype BodyFailure = Caught(message: string) | Uncaught(message: string)

  /** What escapes a context exit: the body's failure, or the `AttributeError` of `ProgressBar`. */
  datatype Escape = BodyError(failure: BodyFailure) | MissingAttribute(name: string)

  /** The body's failure, if any, propagated unchanged. */
  function Propagate(error: Option<BodyFailure>): (e: Option<Escape>)
    ensures e.Some? <==> error.Some?
    ensures error.Some? ==> e == Some(BodyError(error.value))
  {
    if error.Some? then Some(BodyError(error.value)) else None
  }

  /** A tick at `now` writes through to the engine. */
  predicate Due(lastTick: int, now: int)
  {
    now > lastTick + ThrottleMs
  }

  /**
    `_ThrottlingProgressProxy.tick`: value and maximum both advance by twice
    `advance`, a given label becomes the sticky label, and the engine is
    written only when the throttle window has elapsed. On such a flush the
    engine's label is written only when a sticky label exists, and it is
    written with this call's `label` argument, which may be `None`.
  */
  function TickStep(p: ProxyView, advance: int, caption: Option<string>, now: int): (q: ProxyView)
    ensures q.maximum - q.value == p.maximum - p.value
    ensures q.value == p.value + 2 * advance
    ensures q.sticky == if caption.Some? then caption else p.sticky
    ensures q.lastTick >= p.lastTick
    ensures !Due(p.lastTick, now) ==> q.lastTick == p.lastTick && q.engine == p.engine
    ensures Due(p.lastTick, now) ==>
      && q.lastTick == now
      && q.engine.value == q.value
      && q.engine.maximum == q.maximum
      && q.engine.minimum == p.engine.minimum
      && q.engine.labelText == if q.sticky.Some? then caption else p.engine.labelText
  {
    var value := p.value + 2 * advance;
    var maximum := p.maximum + 2 * advance;
    var sticky := if caption.Some? then caption else p.sticky;
    if Due(p.lastTick, now) then
      var shown := if sticky.Some? then caption else p.engine.labelText;
      ProxyView(now, value, maximum, sticky, p.engine.(value := value, maximum := maximum, labelText := shown))
    else
      ProxyView(p.lastTick, value, maximum, sticky, p.engine)
  }

  /** A sequence of ticks, applied oldest first. */
  function TickAll(p: ProxyView, calls: seq<TickCall>): (q: ProxyView)
    decreases |calls|
  {
    if calls == [] then p
    else TickAll(TickStep(p, calls[0].advance, calls[0].caption, calls[0].now), calls[1..])
  }

  function TotalAdvance(calls: seq<TickCall>): (n: int)
  {
    if calls == [] then 0 else calls[0].advance + TotalAdvance(calls[1..])
  }

  /** The label a run of ticks leaves sticky: the last one given, else `prior`. */
  function LastLabel(prior: Option<string>, calls: seq<TickCall>): (l: Option<string>)
    decreases |calls|
  {
    if calls == [] then prior
    else LastLabel(if calls[0].caption.Some? then calls[0].caption else prior, calls[1..])
  }

  /**
    Across any run of ticks the proxy's value has grown by twice the total
    advance, and the gap between maximum and value never changes.
  */
  lemma {:induction false} TicksAccumulate(p: ProxyView, calls: seq<TickCall>)
    ensures TickAll(p, calls).value == p.value + 2 * TotalAdvance(calls)
    ensures TickAll(p, calls).maximum - TickAll(p, calls).value == p.maximum - p.value
    decreases |calls|
  {
    if calls != [] {
      var c := calls[0];
      TicksAccumulate(TickStep(p, c.advance, c.caption, c.now), calls[1..]);
    }
  }

  /**
    The engine's gap between maximum and value is the proxy's gap whenever
    they start out equal (as they do at construction): the displayed
    remaining span is the same after every flush.
  */
  lemma {:induction false} EngineKeepsGap(p: ProxyView, calls: seq<TickCall>)
    requires p.engine.maximum - p.engine.value == p.maximum - p.value
    ensures TickAll(p, calls).engine.maximum - TickAll(p, calls).engine.value == p.maximum - p.value
    decreases |calls|
  {
    if calls != [] {
      var c := calls[0];
      EngineKeepsGap(TickStep(p, c.advance, c.caption, c.now), calls[1..]);
    }
  }

  /** The sticky label after a run of ticks is the last non-`None` label passed. */
  lemma {:induction false} LabelIsSticky(p: ProxyView, calls: seq<TickCall>)
    ensures TickAll(p, calls).sticky == LastLabel(p.sticky, calls)
    decreases |calls|
  {
    if calls != [] {
      var c := calls[0];
      LabelIsSticky(TickStep(p, c.advance, c.caption, c.now), calls[1..]);
    }
  }

  /**
    Ticks that all fall inside the throttle window of the last flush leave the
    engine and the window's start untouched.
  */
  lemma {:induction false} QuietWindow(p: ProxyView, calls: seq<TickCall>)
    requires forall i :: 0 <= i < |calls| ==> !Due(p.lastTick, calls[i].now)
    ensures TickAll(p, calls).engine == p.engine
    ensures TickAll(p, calls).lastTick == p.lastTick
    decreases |calls|
  {
    if calls != [] {
      var c := calls[0];
      var q := TickStep(p, c.advance, c.caption, c.now);
      assert q.lastTick == p.lastTick;
      assert forall i :: 0 <= i < |calls[1..]| ==> calls[1..][i] == calls[i + 1];
      QuietWindow(q, calls[1..]);
    }
  }

  /** The start of the throttle window never moves backwards. */
  lemma {:induction false} LastTickGrows(p: ProxyView, calls: seq<TickCall>)
    ensures TickAll(p, calls).lastTick >= p.lastTick
    decreases |calls|
  {
    if calls != [] {
      var c := calls[0];
      LastTickGrows(TickStep(p, c.advance, c.caption, c.now), calls[1..]);
    }
  }

  /**
    The shared entry decision of `ProgressDialog` and `ProgressBar`:
    non-positive ticks are rejected before the level is looked at, and only an
    entry at level 0 opens a new context.
  */
  function Admit(level: int, ticks: int): (e: Entry)
    ensures e == Rejected <==> ticks <= 0
    ensures e == Outermost <==> ticks > 0 && level <= 0
    ensures e == Nested <==> ticks > 0 && level > 0
  {
    if ticks <= 0 then Rejected
    else if level > 0 then Nested
    else Outermost
  }

  /** `NullProgress.tick`: does nothing and never fails, with or without a context. */
  function NullTick(advance: int, caption: Option<string>): (r: TickResult)
    ensures r == Ticked
  {
    Ticked
  }

  /** A Qt progress widget (`QProgressDialog` or `QProgressBar`) as a plain record. */
  class Engine {
    var minimum: int
    var value: int
    var maximum: int
    var labelText: Option<string>

    function View(): (v: EngineView)
      reads this
    {
      EngineView(minimum, value, maximum, labelText)
    }

    constructor (minimum: int, value: int, maximum: int, labelText: Option<string>)
      ensures View() == EngineView(minimum, value, maximum, labelText)
    {
      this.minimum := minimum;
      this.maximum := maximum;
      this.value := value;
      this.labelText := labelText;
    }
  }

  /** `_ThrottlingProgressProxy` */
  class ThrottlingProgressProxy {
    const engine: Engine
    var lastTick: int
    var value: int
    var maximum: int
    var sticky: Option<string>

    function View(): (v: ProxyView)
      reads this, engine
    {
      ProxyView(lastTick, value, maximum, sticky, engine.View())
    }

    /** Copies value and maximum from the engine; no label; the window starts now. */
    constructor (engine: Engine, now: int)
      ensures this.engine == engine
      ensures View() == ProxyView(now, engine.value, engine.maximum, None, engine.View())
    {
      this.engine := engine;
      lastTick := now;
      value := engine.value;
      maximum := engine.maximum;
      sticky := None;
    }

    method Tick(advance: int, caption: Option<string>, now: int)
      modifies this, engine
      ensures View() == TickStep(old(View()), advance, caption, now)
    {
      value := value + 2 * advance;
      maximum := maximum + 2 * advance;
      if caption.Some? {
        sticky := caption;
      }
      if Due(lastTick, now) {
        lastTick := now;
        engine.value := value;
        engine.maximum := maximum;
        if sticky.Some? {
          engine.labelText := caption;
        }
      }
    }
  }

  /** `ProgressDialog`: a modal dialog created for the outermost context only. */
  class ProgressDialog {
    var level: int
    var ui: Engine?
    var throttler: ThrottlingProgressProxy?

    /** The level is 0 with no dialog, or 1 with a dialog and a proxy writing into it. */
    ghost predicate Valid()
      reads this, throttler
    {
      || (level == 0 && ui == null)
      || (level == 1 && ui != null && throttler != null && throttler.engine == ui)
    }

    constructor ()
      ensures Valid() && level == 0 && ui == null && throttler == null
    {
      level := 0;
      ui := null;
      throttler := null;
    }

    /**
      Entering `async with dialog(title, ticks)` at time `now`. Only an
      outermost entry creates the dialog (label text `title`, range 0 to
      `ticks`, reporting the value `freshValue` that Qt gives a new dialog)
      and a fresh proxy over it, and raises the level to 1; a rejected or
      nested entry changes nothing.
    */
    method Enter(title: string, ticks: int, now: int, freshValue: int) returns (e: Entry)
      requires Valid()
      modifies this
      ensures Valid()
      ensures e == Admit(old(level), ticks)
      ensures e != Outermost ==> level == old(level) && ui == old(ui) && throttler == old(throttler)
      ensures e == Outermost ==>
        && level == 1 && ui != null && throttler != null && fresh(ui) && fresh(throttler)
        && ui.View() == EngineView(0, freshValue, ticks, Some(title))
        && throttler.View() == ProxyView(now, freshValue, ticks, None, ui.View())
    {
      e := Admit(level, ticks);
      if e == Outermost {
        var dialog := new Engine(0, freshValue, ticks, Some(title));
        ui := dialog;
        throttler := new ThrottlingProgressProxy(dialog, now);
        level := level + 1;
      }
    }

    /** `tick`: an error outside a context, otherwise the proxy's tick with the label. */
    method Tick(advance: int, caption: Option<string>, now: int) returns (r: TickResult)
      requires Valid()
      modifies throttler, ui
      ensures Valid() && level == old(level) && ui == old(ui) && throttler == old(throttler)
      ensures r == MissingContext <==> level == 0
      ensures r == MissingContext ==> ui == null && (throttler != null ==> unchanged(throttler, throttler.engine))
      ensures r == Ticked ==> throttler != null && throttler.View() == TickStep(old(throttler.View()), advance, caption, now)
    {
      if level == 0 {
        return MissingContext;
      }
      throttler.Tick(advance, caption, now);
      r := Ticked;
    }

    /**
      Leaving the context entered as `entry`, whose body ended with `error`.
      A nested exit changes nothing and lets the error through. The
      outermost exit swallows an `Exception` or `trio.Cancelled` (it is
      reported in a message box) but lets any other failure through; either
      way it drops the level to 0, fills the dialog to its maximum and lets
      it go.
    */
    method Exit(entry: Entry, error: Option<BodyFailure>) returns (escaped: Option<Escape>)
      requires Valid() && entry != Rejected
      requires entry == Outermost ==> level == 1
      modifies this, ui
      ensures Valid()
      ensures entry == Nested ==>
        && escaped == (Propagate(error))
        && level == old(level) && ui == old(ui) && throttler == old(throttler)
        && (ui != null ==> unchanged(ui))
      ensures entry == Outermost ==>
        && escaped == (if error.Some? && error.value.Uncaught? then Propagate(error) else None)
        && level == 0 && ui == null && throttler == old(throttler)
        && old(ui) != null
        && old(ui).View() == old(ui.View()).(value := old(ui.maximum))
    {
      if entry == Nested {
        escaped := Propagate(error);
        return;
      }
      escaped := if error.Some? && error.value.Uncaught? then Propagate(error) else None;
      level := level - 1;
      ui.value := ui.maximum;
      ui := null;
    }
  }

  /** `ProgressBar`: an embedded bar given at construction; it never sets a label. */
  class ProgressBar {
    const bar: Engine
    var level: int
    var throttler: ThrottlingProgressProxy?

    /** The level is 0 or 1; with a context open the proxy writes into the bar and holds no label. */
    ghost predicate Valid()
      reads this, throttler
    {
      && 0 <= level <= 1
      && (level == 1 ==> throttler != null && throttler.engine == bar && throttler.sticky == None)
    }

    constructor (bar: Engine)
      ensures Valid() && this.bar == bar && level == 0 && throttler == null
    {
      this.bar := bar;
      level := 0;
      throttler := null;
    }

    /**
      Entering `async with bar(title, ticks)`. An outermost entry resets the
      bar to range 0 to `ticks` with value 0 and puts a fresh proxy over it;
      a rejected or nested entry changes nothing.
    */
    method Enter(ticks: int, now: int) returns (e: Entry)
      requires Valid()
      modifies this, bar
      ensures Valid()
      ensures e == Admit(old(level), ticks)
      ensures e != Outermost ==> level == old(level) && throttler == old(throttler) && unchanged(bar)
      ensures e == Outermost ==>
        && level == 1 && throttler != null && fresh(throttler)
        && bar.View() == old(bar.View()).(minimum := 0, value := 0, maximum := ticks)
        && throttler.View() == ProxyView(now, 0, ticks, None, bar.View())
    {
      e := Admit(level, ticks);
      if e == Outermost {
        bar.value := 0;
        bar.minimum := 0;
        bar.maximum := ticks;
        throttler := new ThrottlingProgressProxy(bar, now);
        level := level + 1;
      }
    }

    /**
      `tick`: an error outside a context; otherwise the proxy's tick without a
      label, whatever `label` is, so the bar's label text never changes.
    */
    method Tick(advance: int, caption: Option<string>, now: int) returns (r: TickResult)
      requires Valid()
      modifies throttler, bar
      ensures Valid() && level == old(level) && throttler == old(throttler)
      ensures r == MissingContext <==> level == 0
      ensures r == MissingContext ==> unchanged(bar) && (throttler != null ==> unchanged(throttler))
      ensures r == Ticked ==> throttler != null && throttler.View() == TickStep(old(throttler.View()), advance, None, now)
      ensures bar.labelText == old(bar.labelText)
    {
      if level == 0 {
        return MissingContext;
      }
      throttler.Tick(advance, None, now);
      r := Ticked;
    }

    /**
      The outermost exit as written: the level drops to 0, then reading the
      missing attribute `_maximum` raises `AttributeError`, which replaces any
      error of the body; the bar and the proxy stay as they were.
    */
    method ExitAsWritten(entry: Entry, error: Option<BodyFailure>) returns (escaped: Option<Escape>)
      requires Valid() && entry != Rejected
      requires entry == Outermost ==> level == 1
      modifies this
      ensures Valid() && throttler == old(throttler)
      ensures entry == Nested ==>
        escaped == (Propagate(error)) && level == old(level)
      ensures entry == Outermost ==> escaped == Some(MissingAttribute("_maximum")) && level == 0
    {
      if entry == Nested {
        escaped := Propagate(error);
        return;
      }
      level := level - 1;
      escaped := Some(MissingAttribute("_maximum"));
    }

    /**
      The outermost exit as evidently intended: the level drops to 0, the bar
      is filled to the maximum the proxy accumulated, the proxy is dropped and
      the body's error passes through unchanged.
    */
    method Exit(entry: Entry, error: Option<BodyFailure>) returns (escaped: Option<Escape>)
      requires Valid() && entry != Rejected
      requires entry == Outermost ==> level == 1
      modifies this, bar
      ensures Valid()
      ensures escaped == Propagate(error)
      ensures entry == Nested ==> level == old(level) && throttler == old(throttler) && unchanged(bar)
      ensures entry == Outermost ==>
        && level == 0 && throttler == null
        && bar.value == bar.maximum == old(throttler.maximum)
        && bar.minimum == old(bar.minimum) && bar.labelText == old(bar.labelText)
    {
      escaped := Propagate(error);
      if entry == Nested {
        return;
      }
      level := level - 1;
      var m := throttler.maximum;
      bar.maximum := m;
      bar.value := m;
      throttler := null;
    }
  }

  /**
    Nested use as in the sample worker: an outer context of 100 ticks, an
    inner one reusing it, a tick inside both, and the two exits. The inner
    entry opens nothing, the tick advances the outer context's proxy (from
    the dialog's fresh value -1 by twice the advance), and afterwards no
    context is open, so a further tick fails.
  */
  method NestedDialogUse(now: int) returns (inner: Entry, ticked: int, late: TickResult, level: int)
    ensures inner == Nested && ticked == 1 && late == MissingContext && level == 0
  {
    var progress := new ProgressDialog();
    var outer := progress.Enter("Hello", 100, now, -1);
    var proxy := progress.throttler;
    inner := progress.Enter("Something", 100, now, -1);
    var _ := progress.Tick(1, Some("0/0"), now + 1);
    ticked := proxy.value;
    var _ := progress.Exit(inner, None);
    var _ := progress.Exit(outer, None);
    late := progress.Tick(1, None, now + 2);
    level := progress.level;
  }

  /**
    The outermost dialog exit on the two kinds of failure: an `Exception`
    raised by the body is swallowed, a `KeyboardInterrupt` passes through;
    both times the context is closed.
  */
  method DialogExitFailures(now: int) returns (caught: Option<Escape>, uncaught: Option<Escape>, level: int)
    ensures caught == None
    ensures uncaught == Some(BodyError(Uncaught("KeyboardInterrupt")))
    ensures level == 0
  {
    var progress := new ProgressDialog();
    var first := progress.Enter("Please wait", 100, now, -1);
    caught := progress.Exit(first, Some(Caught("ValueError")));
    var second := progress.Enter("Please wait", 100, now, -1);
    uncaught := progress.Exit(second, Some(Uncaught("KeyboardInterrupt")));
    level := progress.level;
  }

  /**
    The defect of `ProgressBar`'s exit: every well-formed use of a bar
    context, even one whose body succeeds, ends in `AttributeError`.
  */
  method BarExitFails(now: int, ticks: int) returns (escaped: Option<Escape>)
    requires ticks > 0
    ensures escaped == Some(MissingAttribute("_maximum"))
  {
    var widget := new Engine(0, 0, 100, None);
    var progress := new ProgressBar(widget);
    var entry := progress.Enter(ticks, now);
    var _ := progress.Tick(1, Some("ignored"), now + ThrottleMs + 1);
    escaped := progress.ExitAsWritten(entry, None);
  }

  /**
    The corrected exit on the same use: the body's success passes through and
    the bar ends full, at the maximum the ticks accumulated.
  */
  method BarExitFills(now: int, ticks: int) returns (escaped: Option<Escape>, value: int, maximum: int)
    requires ticks > 0
    ensures escaped == None && value == maximum == ticks + 2
  {
    var widget := new Engine(0, 0, 100, None);
    var progress := new ProgressBar(widget);
    var entry := progress.Enter(ticks, now);
    var _ := progress.Tick(1, Some("ignored"), now + ThrottleMs + 1);
    escaped := progress.Exit(entry, None);
    value, maximum := widget.value, widget.maximum;
  }
}
