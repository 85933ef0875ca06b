/**
 * The popup menu of PopupMenu.py: a menu bound to its master's context-menu
 * button, posted at the pointer shifted by two stored offsets.
 */
module PopupMenus {
  import opened Values

  /** What the menu asks of the toolkit when it pops up, in order. */
  datatype MenuAction =
    | Post(x: int, y: int)     // `tk_popup(x, y)`
    | PopupEvent               // `event_generate("<<PopupMenuPopup>>")`
    | GrabReleased             // `grab_release()`

  datatype MenuError =
    | TearoffAsMaster          // AttributeError: `.tk` of the tearoff value, taken as the base menu's master
    | NoMaster                 // `master.bind` on None
    | NotANumber               // TypeError from `x_root + offset`
    | PostFailed               // `tk_popup` raised

  /** `coordinate + offset` for the offsets the model carries: an int, or a bool counting as 0 or 1. */
  function Shifted(coordinate: int, offset: Value): (r: Option<int>)
    ensures r.Some? <==> offset.Int? || offset.Bool?
    ensures offset.Int? ==> r == Some(coordinate + offset.i)
    ensures offset.Bool? ==> r == Some(coordinate + if offset.b then 1 else 0)
  {
    match offset
    case Int(i) => Some(coordinate + i)
    case Bool(b) => Some(coordinate + if b then 1 else 0)
    case _ => None
  }

  /** Where the menu is posted for a click at (xRoot, yRoot): the click shifted by both offsets. */
  function Position(xRoot: int, yRoot: int, offsetX: Value, offsetY: Value): (r: Option<(int, int)>)
    ensures r.Some? <==> Shifted(xRoot, offsetX).Some? && Shifted(yRoot, offsetY).Some?
    ensures offsetX.Int? && offsetY.Int? ==> r == Some((xRoot + offsetX.i, yRoot + offsetY.i))
  {
    var x := Shifted(xRoot, offsetX);
    var y := Shifted(yRoot, offsetY);
    if x.Some? && y.Some? then Some((x.value, y.value)) else None
  }

  /** With the default offsets the menu opens two pixels up and left of the pointer. */
  lemma DefaultOffsets(xRoot: int, yRoot: int)
    ensures Position(xRoot, yRoot, Int(-2), Int(-2)) == Some((xRoot - 2, yRoot - 2))
  {
  }

  /**
   * The toolkit requests of one `_popup`: the post when the position can be
   * computed, the virtual event only when the post went through, and the
   * grab release on every path, last.
   */
  function PopupTrace(at: Option<(int, int)>, postOk: bool): (t: seq<MenuAction>)
    ensures |t| >= 1 && t[|t| - 1] == GrabReleased
    ensures (PopupEvent in t) <==> at.Some? && postOk
    ensures at.Some? ==> t[0] == Post(at.value.0, at.value.1)
    ensures at.None? ==> t == [GrabReleased]
    ensures PopupEvent in t ==> t == [t[0], PopupEvent, GrabReleased]
  {
    if at.None? then [GrabReleased]
    else [Post(at.value.0, at.value.1)] + (if postOk then [PopupEvent] else []) + [GrabReleased]
  }

  /**
   * Whether the toolkit accepts `t` as a widget's master when `t` is not a
   * widget: it substitutes the default root for a missing master and
   * otherwise reads `t.tk`, which only widgets have. tkinter before Python
   * 3.10 substitutes for every false value; from 3.10 on (`noneOnly`) only
   * for None.
   */
  predicate MasterAccepted(t: Value, noneOnly: bool) {
    if noneOnly then t == NoneV else !Truthy(t)
  }

  /**
   * Passing tearoff as the master breaks construction: a true tearoff is
   * refused by every tkinter, and the default False is refused from Python
   * 3.10 on; only the older tkinter accepts the default.
   */
  lemma TearoffAsMasterRefused(t: Value, noneOnly: bool)
    ensures Truthy(t) ==> !MasterAccepted(t, noneOnly)
    ensures !MasterAccepted(Bool(false), true) && MasterAccepted(Bool(false), false)
  {
  }

  /** The sequences the menu binds on its master: Button-2 and Control-1 on aqua, Button-3 elsewhere. */
  function Triggers(aqua: bool): (ts: seq<string>)
    ensures ("<Button-3>" in ts) <==> !aqua
    ensures ("<Button-2>" in ts) <==> aqua
    ensures ("<Control-1>" in ts) <==> aqua
    ensures |ts| == if aqua then 2 else 1
  {
    if aqua then ["<Button-2>", "<Control-1>"] else ["<Button-3>"]
  }

  class PopupMenu {
    var offsetX: Value
    var offsetY: Value
    /** the `tearoff` option popped from the options (default False) */
    var tearoff: Value
    /** the event sequences bound on the master to `_popup` */
    var bindings: seq<string>
    /** the toolkit requests made by `_popup`, in order */
    var actions: seq<MenuAction>

    constructor (opts: Options, aqua: bool)
      ensures offsetX == PopOr(opts, "offsetx", Int(-2)) && offsetY == PopOr(opts, "offsety", Int(-2))
      ensures tearoff == PopOr(opts, "tearoff", Bool(false))
      ensures bindings == Triggers(aqua) && actions == []
    {
      offsetX := PopOr(opts, "offsetx", Int(-2));
      offsetY := PopOr(opts, "offsety", Int(-2));
      tearoff := PopOr(opts, "tearoff", Bool(false));
      bindings := Triggers(aqua);
      actions := [];
    }

    /**
     * `PopupMenu(master, **opts)` as written: the offsets and tearoff with
     * their defaults; the tearoff value is handed to the base menu as its
     * master, which fails unless the toolkit substitutes the default root
     * for it; then the bindings on the master, which fail without a master.
     */
    static method New(opts: Options, hasMaster: bool, aqua: bool, noneOnly: bool) returns (r: Result<PopupMenu, MenuError>)
      ensures r.Err? <==> !MasterAccepted(PopOr(opts, "tearoff", Bool(false)), noneOnly) || !hasMaster
      ensures !MasterAccepted(PopOr(opts, "tearoff", Bool(false)), noneOnly) ==> r == Err(TearoffAsMaster)
      ensures MasterAccepted(PopOr(opts, "tearoff", Bool(false)), noneOnly) && !hasMaster ==> r == Err(NoMaster)
      ensures r.Ok? ==> (fresh(r.value)
        && r.value.offsetX == PopOr(opts, "offsetx", Int(-2)) && r.value.offsetY == PopOr(opts, "offsety", Int(-2))
        && r.value.tearoff == PopOr(opts, "tearoff", Bool(false)) && !Truthy(r.value.tearoff)
        && r.value.bindings == Triggers(aqua) && r.value.actions == [])
    {
      if !MasterAccepted(PopOr(opts, "tearoff", Bool(false)), noneOnly) {
        return Err(TearoffAsMaster);
      }
      if !hasMaster {
        return Err(NoMaster);
      }
      var m := new PopupMenu(opts, aqua);
      return Ok(m);
    }

    /**
     * `PopupMenu(master, **opts)` as evidently intended, with tearoff given
     * to the base menu as its `tearoff` option: only a missing master makes
     * construction fail, whatever the tearoff.
     */
    static method NewIntended(opts: Options, hasMaster: bool, aqua: bool) returns (r: Result<PopupMenu, MenuError>)
      ensures r.Err? <==> !hasMaster
      ensures r.Err? ==> r.error == NoMaster
      ensures r.Ok? ==> (fresh(r.value)
        && r.value.offsetX == PopOr(opts, "offsetx", Int(-2)) && r.value.offsetY == PopOr(opts, "offsety", Int(-2))
        && r.value.tearoff == PopOr(opts, "tearoff", Bool(false))
        && r.value.bindings == Triggers(aqua) && r.value.actions == [])
    {
      if !hasMaster {
        return Err(NoMaster);
      }
      var m := new PopupMenu(opts, aqua);
      return Ok(m);
    }

    /**
     * `_popup(event)` for a click at (xRoot, yRoot); `postOk` says whether
     * the toolkit's `tk_popup` returns normally.
     */
    method Popup(xRoot: int, yRoot: int, postOk: bool) returns (err: Option<MenuError>)
      modifies this`actions
      ensures actions == old(actions) + PopupTrace(Position(xRoot, yRoot, offsetX, offsetY), postOk)
      ensures err.None? <==> Position(xRoot, yRoot, offsetX, offsetY).Some? && postOk
      ensures Position(xRoot, yRoot, offsetX, offsetY).None? ==> err == Some(NotANumber)
      ensures Position(xRoot, yRoot, offsetX, offsetY).Some? && !postOk ==> err == Some(PostFailed)
    {
      var at := Position(xRoot, yRoot, offsetX, offsetY);
      err := None;
      if at.None? {
        err := Some(NotANumber);
      } else {
        actions := actions + [Post(at.value.0, at.value.1)];
        if postOk {
          actions := actions + [PopupEvent];
        } else {
          err := Some(PostFailed);
        }
      }
      actions := actions + [GrabReleased];
    }

    /** `configure(**opts)`: an offset is replaced only when it is passed. */
    method Configure(opts: Options)
      modifies this`offsetX, this`offsetY
      ensures offsetX == PopOr(opts, "offsetx", old(offsetX))
      ensures offsetY == PopOr(opts, "offsety", old(offsetY))
    {
      offsetX := PopOr(opts, "offsetx", offsetX);
      offsetY := PopOr(opts, "offsety", offsetY);
    }

    /** `cget(key)`: the two offsets, anything else from the base menu. */
    function Cget(key: string): (r: Lookup)
      reads this
      ensures r.Found? <==> key == "offsetx" || key == "offsety"
      ensures key == "offsetx" ==> r == Found(offsetX)
      ensures key == "offsety" ==> r == Found(offsetY)
    {
      if key == "offsetx" then Found(offsetX)
      else if key == "offsety" then Found(offsetY)
      else Delegated
    }
  }

  /**
   * A default menu opened at (100, 50) is posted at (98, 48); after moving
   * the offsets to a string the next click posts nothing but still releases
   * the grab.
   */
  method ClickThenBadOffset() returns (first: seq<MenuAction>, second: seq<MenuAction>, err: Option<MenuError>)
    ensures first == [Post(98, 48), PopupEvent, GrabReleased]
    ensures second == [GrabReleased] && err == Some(NotANumber)
  {
    var r := PopupMenu.NewIntended(map[], true, false);
    var m := r.value;
    var ok := m.Popup(100, 50, true);
    first := m.actions;
    m.Configure(map["offsetx" := Str("3")]);
    err := m.Popup(100, 50, true);
    second := m.actions[|first|..];
  }

  /**
   * `PopupMenu(root, tearoff=True)`: as written, construction fails on every
   * tkinter, and with the default tearoff it fails from Python 3.10 on; as
   * intended, both menus are created.
   */
  method TearoffTrue() returns (asWritten: Result<PopupMenu, MenuError>, defaultNewer: Result<PopupMenu, MenuError>,
                                intended: Result<PopupMenu, MenuError>)
    ensures asWritten == Err(TearoffAsMaster) && defaultNewer == Err(TearoffAsMaster)
    ensures intended.Ok? && intended.value.tearoff == Bool(true)
  {
    asWritten := PopupMenu.New(map["tearoff" := Bool(true)], true, false, false);
    defaultNewer := PopupMenu.New(map[], true, false, true);
    intended := PopupMenu.NewIntended(map["tearoff" := Bool(true)], true, false);
  }
}
