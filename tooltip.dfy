/**
 * The delayed tooltip of ToolTip.py.
 *
 * Entering the master creates a withdrawn toplevel and arms a `wait` ms
 * timer; when it fires the toplevel is shown, placed by one of five
 * direction rules and a `duration` ms timer is armed; leaving the master,
 * pressing a button on it or the second timer cancels both timers and
 * destroys the toplevel. The master's timer table and the live toplevels
 * are modelled explicitly, with ids drawn from counters.
 */
module Tooltips {
  import opened Values

  // ---------------------------------------------------------------------
  // Placement (the direction branch of `_showtip`)
  // ---------------------------------------------------------------------

  /** h is the exact value of twice / 2 rounded toward zero, as Python's `int(...)` rounds a float. */
  predicate RoundsTowardZero(h: int, twice: int) {
    if twice >= 0 then 0 <= twice - 2 * h <= 1 else -1 <= twice - 2 * h <= 0
  }

  /** `int(n / 2)`: half of n rounded toward zero (Dafny's `/` rounds odd negatives down instead). */
  function TruncHalf(n: int): (h: int)
    ensures RoundsTowardZero(h, n)
    ensures n < 0 && n % 2 == 1 ==> h == n / 2 + 1
  {
    if n >= 0 then n / 2 else -((-n) / 2)
  }

  /** The rounding of `int(...)` determines one value: no two results satisfy it. */
  lemma RoundsTowardZeroUnique(a: int, b: int, twice: int)
    requires RoundsTowardZero(a, twice) && RoundsTowardZero(b, twice)
    ensures a == b
  {
  }

  /**
   * `int(origin + extent / 2 - size / 2)`: where a box of the given size starts
   * when it is centred on a span of the given extent.
   */
  predicate CentredOn(p: int, origin: int, extent: int, size: int) {
    RoundsTowardZero(p, 2 * origin + extent - size)
  }

  /**
   * The numbers `_showtip` reads from the toolkit: the master's root position,
   * width, height and requested height, the label's requested size, and the
   * pointer position.
   */
  datatype Geometry = Geometry(
    rootX: int, rootY: int, width: int, height: int, reqHeight: int,
    labelWidth: int, labelHeight: int, pointerX: int, pointerY: int)

  /** The gap between the master and a tooltip placed beside it. */
  const Gap := 5

  predicate IsDirection(d: Value) {
    d == Str("above") || d == Str("below") || d == Str("right") || d == Str("left") || d == Str("cursor")
  }

  /**
   * The top-left corner the tooltip is moved to for a direction, or None for
   * a direction outside the five (the ValueError of `_showtip`).
   */
  function Place(direction: Value, g: Geometry): (r: Option<(int, int)>)
    ensures r.Some? <==> IsDirection(direction)
    ensures direction == Str("above") ==> (r.Some?
      && CentredOn(r.value.0, g.rootX, g.width, g.labelWidth)
      && r.value.1 + g.labelHeight + Gap == g.rootY)
    ensures direction == Str("below") ==> (r.Some?
      && CentredOn(r.value.0, g.rootX, g.width, g.labelWidth)
      && r.value.1 == g.rootY + g.reqHeight + Gap)
    ensures direction == Str("right") ==> (r.Some?
      && r.value.0 == g.rootX + g.width + Gap
      && CentredOn(r.value.1, g.rootY, g.height, g.labelHeight))
    ensures direction == Str("left") ==> (r.Some?
      && r.value.0 + g.labelWidth + Gap == g.rootX
      && CentredOn(r.value.1, g.rootY, g.height, g.labelHeight))
    ensures direction == Str("cursor") ==> r == Some((g.pointerX + 10, g.pointerY + 20))
  {
    if direction == Str("above") then
      Some((TruncHalf(2 * g.rootX + g.width - g.labelWidth), g.rootY - g.labelHeight - Gap))
    else if direction == Str("below") then
      Some((TruncHalf(2 * g.rootX + g.width - g.labelWidth), g.rootY + g.reqHeight + Gap))
    else if direction == Str("right") then
      Some((g.rootX + g.width + Gap, TruncHalf(2 * g.rootY + g.height - g.labelHeight)))
    else if direction == Str("left") then
      Some((g.rootX - g.labelWidth - Gap, TruncHalf(2 * g.rootY + g.height - g.labelHeight)))
    else if direction == Str("cursor") then
      Some((g.pointerX + 10, g.pointerY + 20))
    else
      None
  }

  /** A tooltip centred over a master that starts left of the screen edge rounds toward zero, not down. */
  lemma PlaceAboveNegative()
    ensures Place(Str("above"), Geometry(-10, 40, 7, 20, 20, 10, 12, 0, 0)) == Some((-11, 23))
  {
  }

  /** Master at (100, 100) of size 50x20, label 80x24: the tooltip goes to (85, 71). */
  lemma PlaceAboveExample()
    ensures Place(Str("above"), Geometry(100, 100, 50, 20, 20, 80, 24, 0, 0)) == Some((85, 71))
  {
  }

  // ---------------------------------------------------------------------
  // Options (`__init__`, `configure`, `cget`)
  // ---------------------------------------------------------------------

  /** The tooltip's options: the named ones and the label options passed through. */
  datatype TipConfig = TipConfig(
    text: Value, wait: int, duration: int, direction: Value,
    relief: Value, borderwidth: Value, ipadx: Value, ipady: Value,
    kwargs: Options)

  /** The option names the tooltip pops for itself; every other key goes to its label. */
  const Named: set<string> := {"text", "wait", "duration", "direction", "relief", "borderwidth", "ipadx", "ipady"}

  /** The values `__init__` falls back on; it then pops the passed options exactly as `configure` does. */
  function Defaults(): TipConfig {
    TipConfig(NoneV, 1000, 8000, Str("cursor"), Str("solid"), Str("1"), Str("2"), Str("1"), map[])
  }

  /** `cget(key)`: a named option, or the passed-through label option (None when absent). */
  function Get(c: TipConfig, key: string): (v: Value)
    ensures key == "wait" ==> v == Int(c.wait)
    ensures key == "duration" ==> v == Int(c.duration)
    ensures key !in Named ==> v == GetOrNone(c.kwargs, key)
  {
    if key == "text" then c.text
    else if key == "wait" then Int(c.wait)
    else if key == "duration" then Int(c.duration)
    else if key == "direction" then c.direction
    else if key == "ipadx" then c.ipadx
    else if key == "ipady" then c.ipady
    else if key == "relief" then c.relief
    else if key == "borderwidth" then c.borderwidth
    else GetOrNone(c.kwargs, key)
  }

  datatype TipError =
    | NotAnInteger(option: string)    // `int(...)` of wait or duration raised
    | BadDirection                    // the ValueError raised by `_showtip`
    | MissingAttribute(name: string)  // AttributeError: `id0`, `id1` or `_toplevel` never assigned
    | DeadWindow                      // the toplevel to deiconify was already destroyed

  /**
   * `configure(**opts)` on the options c: every passed key replaces the
   * stored value (wait and duration through `int`), the rest of the keys
   * replace the label options wholesale. A failing `int` stops the update
   * where it happens, with the text already replaced.
   */
  function Configured(c: TipConfig, opts: Options): (r: (TipConfig, Option<TipError>))
    ensures ToInt(PopOr(opts, "wait", Int(c.wait))).None? ==>
      r == (c.(text := PopOr(opts, "text", c.text)), Some(NotAnInteger("wait")))
    ensures ToInt(PopOr(opts, "wait", Int(c.wait))).Some? && ToInt(PopOr(opts, "duration", Int(c.duration))).None? ==>
      r.1 == Some(NotAnInteger("duration"))
      && r.0 == c.(text := PopOr(opts, "text", c.text), wait := ToInt(PopOr(opts, "wait", Int(c.wait))).value)
    ensures r.1.None? <==>
      ToInt(PopOr(opts, "wait", Int(c.wait))).Some? && ToInt(PopOr(opts, "duration", Int(c.duration))).Some?
    ensures r.1.None? ==>
      (forall k :: k in Named && k !in opts ==> Get(r.0, k) == Get(c, k))
      && (forall k :: k in opts && k in Named - {"wait", "duration"} ==> Get(r.0, k) == opts[k])
      && ("wait" in opts ==> ToInt(opts["wait"]) == Some(r.0.wait))
      && ("duration" in opts ==> ToInt(opts["duration"]) == Some(r.0.duration))
      && (forall k :: k !in Named ==> Get(r.0, k) == GetOrNone(opts, k))
  {
    var text := PopOr(opts, "text", c.text);
    var wait := ToInt(PopOr(opts, "wait", Int(c.wait)));
    if wait.None? then
      (c.(text := text), Some(NotAnInteger("wait")))
    else
      var duration := ToInt(PopOr(opts, "duration", Int(c.duration)));
      if duration.None? then
        (c.(text := text, wait := wait.value), Some(NotAnInteger("duration")))
      else
        (TipConfig(text, wait.value, duration.value,
                   PopOr(opts, "direction", c.direction),
                   PopOr(opts, "relief", c.relief),
                   PopOr(opts, "borderwidth", c.borderwidth),
                   PopOr(opts, "ipadx", c.ipadx),
                   PopOr(opts, "ipady", c.ipady),
                   opts - Named), None)
  }

  /** Construction with no options gives the documented defaults and an unbound tooltip. */
  lemma DefaultOptions()
    ensures Configured(Defaults(), map[]).1.None?
    ensures Get(Configured(Defaults(), map[]).0, "wait") == Int(1000)
    ensures Get(Configured(Defaults(), map[]).0, "duration") == Int(8000)
    ensures Get(Configured(Defaults(), map[]).0, "direction") == Str("cursor")
    ensures Get(Configured(Defaults(), map[]).0, "text") == NoneV
  {
  }

  /** A wait given as the decimal text of a number is read as that number. */
  lemma WaitFromDecimalText(c: TipConfig, n: int)
    ensures Configured(c, map["wait" := Str(Decimal(n))]).1.None?
    ensures Configured(c, map["wait" := Str(Decimal(n))]).0.wait == n
  {
    ParseDecimal(n);
  }

  // ---------------------------------------------------------------------
  // The widget: options, bindings, the master's timers and toplevels
  // ---------------------------------------------------------------------

  /** What a pending `after` callback runs. */
  datatype Callback = Show | Hide

  /** A pending `after` callback and the delay, in milliseconds, it was armed with. */
  datatype Timer = Timer(callback: Callback, delay: int)

  /**
   * A live tooltip toplevel: whether it has been deiconified, the text of the
   * label packed into it when shown, and where it was moved.
   */
  datatype Popup = Popup(shown: bool, content: Option<Value>, at: Option<(int, int)>)

  class ToolTip {
    var config: TipConfig
    /** whether `<Enter>`, `<Leave>` and `<ButtonPress>` are bound on the master */
    var bound: bool

    /** the master's pending `after` callbacks by id, and the next id it hands out */
    var timers: map<nat, Timer>
    var nextTimer: nat
    /** the live tooltip toplevels by window id, and the next id */
    var windows: map<nat, Popup>
    var nextWindow: nat

    /** the attributes `_toplevel`, `id0`, `id1` and `x, y`: None until first assigned */
    var toplevel: Option<nat>
    var id0: Option<nat>
    var id1: Option<nat>
    var position: Option<(int, int)>

    ghost predicate Valid()
      reads this
    {
      && (forall k :: k in timers ==> k < nextTimer)
      && (forall w :: w in windows ==> w < nextWindow)
      && (id0.Some? ==> toplevel.Some?)
    }

    /** The window ids that are live and deiconified. */
    function Shown(): set<nat>
      reads this
    {
      set w | w in windows && windows[w].shown
    }

    constructor (config: TipConfig)
      ensures Valid()
      ensures this.config == config && bound == (config.text != NoneV)
      ensures timers == map[] && windows == map[] && nextTimer == 0 && nextWindow == 0
      ensures toplevel.None? && id0.None? && id1.None? && position.None?
    {
      this.config := config;
      bound := config.text != NoneV;
      timers, nextTimer := map[], 0;
      windows, nextWindow := map[], 0;
      toplevel, id0, id1, position := None, None, None, None;
    }

    /**
     * `ToolTip(master, **opts)`: the options are configured over the
     * defaults; the handlers are bound when a text is given. A wait or
     * duration that `int` rejects makes construction fail.
     */
    static method New(opts: Options) returns (r: Result<ToolTip, TipError>)
      ensures r.Err? <==> Configured(Defaults(), opts).1.Some?
      ensures r.Err? ==> r.error == Configured(Defaults(), opts).1.value
      ensures r.Ok? ==> (fresh(r.value) && r.value.Valid()
        && r.value.config == Configured(Defaults(), opts).0
        && r.value.bound == (PopOr(opts, "text", NoneV) != NoneV)
        && r.value.timers == map[] && r.value.windows == map[]
        && r.value.nextTimer == 0 && r.value.nextWindow == 0
        && r.value.toplevel.None? && r.value.id0.None? && r.value.id1.None? && r.value.position.None?)
    {
      var (c, err) := Configured(Defaults(), opts);
      if err.Some? {
        return Err(err.value);
      }
      var t := new ToolTip(c);
      return Ok(t);
    }

    /** `cget(key)`. */
    function Cget(key: string): (v: Value)
      reads this
      ensures key !in Named ==> v == GetOrNone(config.kwargs, key)
      ensures key == "wait" ==> v == Int(config.wait) && ToInt(v) == Some(config.wait)
      ensures key == "duration" ==> v == Int(config.duration)
    {
      Get(config, key)
    }

    /**
     * `configure(**opts)`: the options are updated as `Configured` says and,
     * when it succeeds with a text, the handlers are (re)bound. Nothing shown
     * or pending changes: a new option takes effect at the next enter or show.
     */
    method Configure(opts: Options) returns (err: Option<TipError>)
      requires Valid()
      modifies this
      ensures Valid()
      ensures (config, err) == Configured(old(config), opts)
      ensures bound == (old(bound) || (err.None? && config.text != NoneV))
      ensures timers == old(timers) && windows == old(windows) && nextTimer == old(nextTimer) && nextWindow == old(nextWindow)
      ensures toplevel == old(toplevel) && id0 == old(id0) && id1 == old(id1) && position == old(position)
    {
      var r := Configured(config, opts);
      config, err := r.0, r.1;
      if err.None? && config.text != NoneV {
        bound := true;
      }
    }

    /**
     * `_enter`: a new toplevel is created withdrawn and the show timer is
     * armed for `wait` ms. Nothing becomes visible. The previous toplevel and
     * show timer, if any, are not touched.
     */
    method EnterTip()
      requires Valid()
      modifies this
      ensures Valid()
      ensures toplevel == Some(old(nextWindow)) && nextWindow == old(nextWindow) + 1
      ensures old(nextWindow) !in old(windows)
      ensures windows == old(windows)[old(nextWindow) := Popup(false, None, None)]
      ensures id0 == Some(old(nextTimer)) && nextTimer == old(nextTimer) + 1
      ensures old(nextTimer) !in old(timers)
      ensures timers == old(timers)[old(nextTimer) := Timer(Show, config.wait)]
      ensures Shown() == old(Shown())
      ensures config == old(config) && bound == old(bound) && id1 == old(id1) && position == old(position)
    {
      var w := nextWindow;
      windows := windows[w := Popup(false, None, None)];
      nextWindow := nextWindow + 1;
      toplevel := Some(w);
      var t := nextTimer;
      timers := timers[t := Timer(Show, config.wait)];
      nextTimer := nextTimer + 1;
      id0 := Some(t);
    }

    /**
     * `_hidetip`: cancel the show timer, cancel the hide timer, destroy the
     * toplevel. It raises at the first attribute not yet assigned: before any
     * show has set `id1`, the show timer is cancelled but the withdrawn
     * toplevel is left alive.
     */
    method HideTip() returns (err: Option<TipError>)
      requires Valid()
      modifies this
      ensures Valid()
      ensures old(id0).None? ==> err == Some(MissingAttribute("id0")) && timers == old(timers) && windows == old(windows)
      ensures old(id0).Some? && old(id1).None? ==>
        err == Some(MissingAttribute("id1")) && timers == old(timers) - {old(id0).value} && windows == old(windows)
      ensures old(id0).Some? && old(id1).Some? ==>
        err.None? && timers == old(timers) - {old(id0).value, old(id1).value}
        && windows == old(windows) - {old(toplevel).value}
      ensures err.None? <==> old(id0).Some? && old(id1).Some?
      ensures Shown() <= old(Shown())
      ensures config == old(config) && bound == old(bound) && nextTimer == old(nextTimer) && nextWindow == old(nextWindow)
      ensures toplevel == old(toplevel) && id0 == old(id0) && id1 == old(id1) && position == old(position)
    {
      if id0.None? {
        return Some(MissingAttribute("id0"));
      }
      timers := timers - {id0.value};
      if id1.None? {
        return Some(MissingAttribute("id1"));
      }
      timers := timers - {id1.value};
      windows := windows - {toplevel.value};
      err := None;
    }

    /**
     * `_showtip`: deiconify the current toplevel with its label, compute the
     * position for the direction, move the toplevel there and only then arm
     * the hide timer for `duration` ms. An unknown direction raises after the
     * toplevel is shown, so it stays where the toolkit put it and no hide
     * timer is armed.
     */
    method ShowTip(g: Geometry) returns (err: Option<TipError>)
      requires Valid()
      modifies this
      ensures Valid()
      ensures config == old(config) && bound == old(bound) && id0 == old(id0) && toplevel == old(toplevel) && nextWindow == old(nextWindow)
      ensures old(toplevel).None? ==>
        && err == Some(MissingAttribute("_toplevel")) && windows == old(windows) && timers == old(timers)
        && id1 == old(id1) && position == old(position)
      ensures old(toplevel).Some? && old(toplevel).value !in old(windows) ==>
        && err == Some(DeadWindow) && windows == old(windows) && timers == old(timers)
        && id1 == old(id1) && position == old(position)
      ensures nextTimer == if err.None? then old(nextTimer) + 1 else old(nextTimer)
      ensures old(toplevel).Some? && old(toplevel).value in old(windows) ==>
        var w := old(toplevel).value;
        match Place(config.direction, g)
        case None =>
          && err == Some(BadDirection)
          && windows == old(windows)[w := Popup(true, Some(config.text), old(windows)[w].at)]
          && timers == old(timers) && id1 == old(id1) && position == old(position)
        case Some(p) =>
          && err.None?
          && windows == old(windows)[w := Popup(true, Some(config.text), Some(p))]
          && position == Some(p)
          && id1 == Some(old(nextTimer)) && old(nextTimer) !in old(timers)
          && timers == old(timers)[old(nextTimer) := Timer(Hide, config.duration)]
      ensures Shown() <= old(Shown()) + (if toplevel.Some? then {toplevel.value} else {})
    {
      if toplevel.None? {
        return Some(MissingAttribute("_toplevel"));
      }
      var w := toplevel.value;
      if w !in windows {
        return Some(DeadWindow);
      }
      windows := windows[w := Popup(true, Some(config.text), windows[w].at)];
      var p := Place(config.direction, g);
      if p.None? {
        return Some(BadDirection);
      }
      position := p;
      windows := windows[w := windows[w].(at := p)];
      var t := nextTimer;
      timers := timers[t := Timer(Hide, config.duration)];
      nextTimer := nextTimer + 1;
      id1 := Some(t);
      err := None;
    }

    /** The pointer enters the master: `_enter` runs when the handlers are bound. */
    method OnEnter()
      requires Valid()
      modifies this
      ensures Valid()
      ensures !old(bound) ==> unchanged(this)
      ensures old(bound) ==> (toplevel == Some(old(nextWindow)) && id0 == Some(old(nextTimer))
        && nextWindow == old(nextWindow) + 1 && nextTimer == old(nextTimer) + 1
        && windows == old(windows)[old(nextWindow) := Popup(false, None, None)]
        && timers == old(timers)[old(nextTimer) := Timer(Show, config.wait)])
      ensures Shown() == old(Shown())
      ensures config == old(config) && bound == old(bound) && id1 == old(id1) && position == old(position)
    {
      if bound {
        EnterTip();
      }
    }

    /** The pointer leaves the master, or a button is pressed on it: `_hidetip` runs when bound. */
    method OnLeaveOrPress() returns (err: Option<TipError>)
      requires Valid()
      modifies this
      ensures Valid()
      ensures !old(bound) ==> unchanged(this) && err.None?
      ensures old(bound) ==> (err.None? <==> old(id0).Some? && old(id1).Some?)
      ensures old(bound) && old(id0).None? ==>
        err == Some(MissingAttribute("id0")) && timers == old(timers) && windows == old(windows)
      ensures old(bound) && old(id0).Some? && old(id1).None? ==>
        err == Some(MissingAttribute("id1")) && timers == old(timers) - {old(id0).value} && windows == old(windows)
      ensures old(bound) && old(id0).Some? && old(id1).Some? ==>
        timers == old(timers) - {old(id0).value, old(id1).value} && windows == old(windows) - {old(toplevel).value}
      ensures Shown() <= old(Shown())
      ensures config == old(config) && bound == old(bound) && nextTimer == old(nextTimer) && nextWindow == old(nextWindow)
      ensures toplevel == old(toplevel) && id0 == old(id0) && id1 == old(id1) && position == old(position)
    {
      err := None;
      if bound {
        err := HideTip();
      }
    }

    /**
     * The master's event loop runs the pending callback `id`: it is removed
     * from the table and its function runs. An id that is not pending (never
     * armed, already run or cancelled) does nothing.
     */
    method Fire(id: nat, g: Geometry) returns (err: Option<TipError>)
      requires Valid()
      modifies this
      ensures Valid()
      ensures id !in old(timers) ==> unchanged(this) && err.None?
      ensures id in old(timers) && old(timers)[id].callback == Show ==>
        && (err.None? <==> old(toplevel).Some? && old(toplevel).value in old(windows) && IsDirection(config.direction))
        && (err.None? ==>
              && id1 == Some(old(nextTimer)) && position == Place(config.direction, g)
              && windows == old(windows)[old(toplevel).value := Popup(true, Some(config.text), position)]
              && timers == (old(timers) - {id})[old(nextTimer) := Timer(Hide, config.duration)]
              && nextTimer == old(nextTimer) + 1)
        && (err.Some? ==>
              && id1 == old(id1) && position == old(position)
              && timers == old(timers) - {id} && nextTimer == old(nextTimer))
        && (old(toplevel).None? ==> err == Some(MissingAttribute("_toplevel")) && windows == old(windows))
        && (old(toplevel).Some? && old(toplevel).value !in old(windows) ==>
              err == Some(DeadWindow) && windows == old(windows))
        && (old(toplevel).Some? && old(toplevel).value in old(windows) && !IsDirection(config.direction) ==>
              && err == Some(BadDirection)
              && windows == old(windows)[old(toplevel).value :=
                   Popup(true, Some(config.text), old(windows)[old(toplevel).value].at)])
      ensures id in old(timers) && old(timers)[id].callback == Hide ==>
        && id1 == old(id1) && position == old(position) && nextTimer == old(nextTimer)
        && (err.None? <==> old(id0).Some? && old(id1).Some?)
        && (err.None? ==>
              && timers == old(timers) - {id, old(id0).value, old(id1).value}
              && windows == old(windows) - {old(toplevel).value})
        && (old(id0).None? ==>
              err == Some(MissingAttribute("id0")) && timers == old(timers) - {id} && windows == old(windows))
        && (old(id0).Some? && old(id1).None? ==>
              && err == Some(MissingAttribute("id1"))
              && timers == old(timers) - {id, old(id0).value} && windows == old(windows))
      ensures id !in timers
      ensures config == old(config) && bound == old(bound) && toplevel == old(toplevel) && id0 == old(id0)
      ensures nextWindow == old(nextWindow)
    {
      if id !in timers {
        return None;
      }
      var cb := timers[id].callback;
      timers := timers - {id};
      match cb
      case Show =>
        err := ShowTip(g);
      case Hide =>
        err := HideTip();
    }
  }

  /**
   * Leaving before the show timer fires, on a fresh tooltip: the show timer
   * is cancelled, so nothing is ever shown, but `_hidetip` raises on the
   * unassigned `id1` and the withdrawn toplevel survives.
   */
  method FirstQuickLeave(g: Geometry) returns (err: Option<TipError>, shown: bool, live: nat, pending: nat)
    ensures err == Some(MissingAttribute("id1"))
    ensures !shown && live == 1 && pending == 0
  {
    var r := ToolTip.New(map["text" := Str("help")]);
    assert Configured(Defaults(), map["text" := Str("help")]).1.None?;
    var t := r.value;
    t.OnEnter();
    var showId := t.id0.value;
    err := t.OnLeaveOrPress();
    var _ := t.Fire(showId, g);
    shown := t.Shown() != {};
    live := |t.windows|;
    pending := |t.timers|;
  }

  /**
   * One full cycle: enter, the show timer fires and the tooltip appears at
   * the pointer offset of the default direction, the hide timer fires and
   * it is destroyed, leaving no window and no pending timer.
   */
  method FullCycle(g: Geometry) returns (t: ToolTip, at: Option<(int, int)>)
    ensures fresh(t) && t.Valid() && t.bound
    ensures at == Some((g.pointerX + 10, g.pointerY + 20))
    ensures t.windows == map[] && t.timers == map[] && t.id0.Some? && t.id1.Some?
  {
    var opts := map["text" := Str("help")];
    assert Configured(Defaults(), opts) == (Defaults().(text := Str("help")), None);
    var r := ToolTip.New(opts);
    t := r.value;
    assert t.config.direction == Str("cursor") && t.bound;
    t.OnEnter();
    assert t.id0 == Some(0) && t.toplevel == Some(0);
    assert t.timers == map[0 := Timer(Show, 1000)];
    var e1 := t.Fire(0, g);
    assert e1.None?;
    assert t.id1 == Some(1) && t.timers == map[1 := Timer(Hide, 8000)];
    at := t.windows[0].at;
    var e2 := t.Fire(1, g);
  }

  /**
   * After one full cycle `id1` is assigned, so entering and leaving again
   * before the show timer fires cancels the show and destroys the withdrawn
   * toplevel: no window, no pending timer, no error.
   */
  method SecondQuickVisit(g: Geometry) returns (err: Option<TipError>, live: nat, pending: nat)
    ensures err.None? && live == 0 && pending == 0
  {
    var t, _ := FullCycle(g);
    t.OnEnter();
    err := t.OnLeaveOrPress();
    assert t.windows == map[] && t.timers == map[];
    live := |t.windows|;
    pending := |t.timers|;
  }
}
