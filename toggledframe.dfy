/**
 * The collapsible frame of ToggledFrame.py: a check button above an inner
 * frame that is gridded while the widget is expanded. Every toggle flips
 * the state, keeps the button's variable and the inner frame's grid status
 * in step with it, and generates two virtual events.
 */
module ToggledFrames {
  import opened Values

  datatype FrameState = Collapsed | Expanded {
    /** The string the `state` attribute holds. */
    function Name(): string {
      match this
      case Collapsed => "collapsed"
      case Expanded => "expanded"
    }
  }

  /** The state a toggle leaves behind. */
  function Flip(s: FrameState): (r: FrameState)
    ensures r != s
  {
    match s
    case Collapsed => Expanded
    case Expanded => Collapsed
  }

  /** Flipping twice gives back the state: two toggles cancel out. */
  lemma FlipTwice(s: FrameState)
    ensures Flip(Flip(s)) == s
  {
  }

  /** The virtual events the frame generates. */
  datatype FrameEvent = CollapsedEvent | ExpandedEvent | ToggledEvent {
    function Name(): string {
      match this
      case CollapsedEvent => "<<ToggledFrameCollapsed>>"
      case ExpandedEvent => "<<ToggledFrameExpanded>>"
      case ToggledEvent => "<<ToggledFrameToggled>>"
    }
  }

  /** The two events one toggle generates, in order, for the state it ends in. */
  function ToggleEvents(now: FrameState): (es: seq<FrameEvent>)
    ensures |es| == 2 && es[1] == ToggledEvent
    ensures es[0] == (if now == Expanded then ExpandedEvent else CollapsedEvent)
  {
    [if now == Expanded then ExpandedEvent else CollapsedEvent, ToggledEvent]
  }

  // ---------------------------------------------------------------------
  // The button's BooleanVar: which initial values Tcl accepts
  // ---------------------------------------------------------------------

  datatype FrameError =
    | NotABoolean   // TclError: the BooleanVar's initial value is not a Tcl boolean

  /** ASCII upper case folded to lower case, as Tcl folds a word before matching it. */
  function LowerChar(c: char): char {
    if 'A' <= c <= 'Z' then (c as int + 32) as char else c
  }

  /** s is a non-empty abbreviation of the lower-case word w, in any letter case. */
  predicate Abbreviates(s: string, w: string) {
    0 < |s| <= |w| && forall i :: 0 <= i < |s| ==> LowerChar(s[i]) == w[i]
  }

  /**
   * The words Tcl reads as booleans: abbreviations of yes, no, true and
   * false, and of on and off with at least two letters (a lone "o" is
   * ambiguous).
   */
  predicate IsBooleanWord(s: string) {
    || Abbreviates(s, "yes") || Abbreviates(s, "no") || Abbreviates(s, "true") || Abbreviates(s, "false")
    || (|s| >= 2 && (Abbreviates(s, "on") || Abbreviates(s, "off")))
  }

  /**
   * Whether `tk.BooleanVar(value=v)` accepts v: None leaves the variable at
   * its default, a bool or an int is taken by its truth, and a string goes
   * to Tcl's boolean parser, which reads only "0", "1" and the boolean words.
   */
  predicate AcceptsAsBoolean(v: Value) {
    match v
    case Str(s) => s == "0" || s == "1" || IsBooleanWord(s)
    case _ => true
  }

  /**
   * A string the variable accepts is "0", "1" or starts with the first
   * letter of a boolean word, and is at most five characters long ("false");
   * so the empty string, other numbers such as "2" or "-1", and a word such
   * as "abc" are refused.
   */
  lemma {:induction false} AcceptedStringStart(s: string)
    requires AcceptsAsBoolean(Str(s))
    ensures 0 < |s| <= 5
    ensures s == "0" || s == "1" || LowerChar(s[0]) in "yntfo"
  {
    if IsBooleanWord(s) {
      assert Abbreviates(s, "yes") || Abbreviates(s, "no") || Abbreviates(s, "true")
        || Abbreviates(s, "false") || Abbreviates(s, "on") || Abbreviates(s, "off");
      assert LowerChar(s[0]) in ['y', 'n', 't', 'f', 'o'];
    }
  }

  class ToggledFrame {
    /** the `expanded` option as configured (any value; its truthiness decides) */
    var expanded: Value
    var text: Value
    var cursor: Value
    var width: Value
    /** the `state` attribute */
    var state: FrameState
    /** the button's BooleanVar */
    var toggled: bool
    /** whether the inner frame is gridded (visible) */
    var gridded: bool
    /** the virtual events generated, in order */
    var events: seq<FrameEvent>

    /** The button's variable and the inner frame agree with the state. */
    ghost predicate Valid()
      reads this
    {
      toggled == (state == Expanded) && gridded == (state == Expanded)
    }

    /**
     * `ToggledFrame(master, **opts)`: the frame starts collapsed and, when
     * `expanded` is truthy in Python's sense, toggles exactly once.
     */
    constructor (opts: Options)
      requires AcceptsAsBoolean(PopOr(opts, "expanded", Bool(false)))
      ensures Valid()
      ensures expanded == PopOr(opts, "expanded", Bool(false))
      ensures text == PopOr(opts, "text", NoneV)
      ensures cursor == PopOr(opts, "cursor", Str("arrow"))
      ensures width == PopOr(opts, "width", Int(20))
      ensures state == (if Truthy(expanded) then Expanded else Collapsed)
      ensures events == (if Truthy(expanded) then ToggleEvents(Expanded) else [])
    {
      expanded := PopOr(opts, "expanded", Bool(false));
      text := PopOr(opts, "text", NoneV);
      cursor := PopOr(opts, "cursor", Str("arrow"));
      width := PopOr(opts, "width", Int(20));
      toggled := Truthy(PopOr(opts, "expanded", Bool(false)));
      gridded := false;
      state := Collapsed;
      events := [];
      new;
      if Truthy(expanded) {
        Toggle();
      }
    }

    /**
     * `ToggledFrame(master, **opts)` as a call that can fail: the button's
     * BooleanVar is created from `expanded` before anything else, and Tcl
     * refuses a string it cannot read as a boolean. Whether the frame then
     * expands is decided by Python's truthiness, not by Tcl's reading.
     */
    static method New(opts: Options) returns (r: Result<ToggledFrame, FrameError>)
      ensures r.Err? <==> !AcceptsAsBoolean(PopOr(opts, "expanded", Bool(false)))
      ensures r.Err? ==> r.error == NotABoolean
      ensures r.Ok? ==> (fresh(r.value) && r.value.Valid()
        && r.value.expanded == PopOr(opts, "expanded", Bool(false))
        && r.value.text == PopOr(opts, "text", NoneV)
        && r.value.cursor == PopOr(opts, "cursor", Str("arrow"))
        && r.value.width == PopOr(opts, "width", Int(20))
        && r.value.state == (if Truthy(r.value.expanded) then Expanded else Collapsed)
        && r.value.events == (if Truthy(r.value.expanded) then ToggleEvents(Expanded) else []))
    {
      if !AcceptsAsBoolean(PopOr(opts, "expanded", Bool(false))) {
        return Err(NotABoolean);
      }
      var f := new ToggledFrame(opts);
      return Ok(f);
    }

    /**
     * `toggle`: flip the state, set the variable and grid or forget the inner
     * frame to match, then generate the state's event and `<<ToggledFrameToggled>>`.
     */
    method Toggle()
      modifies this`state, this`toggled, this`gridded, this`events
      ensures Valid()
      ensures state == Flip(old(state))
      ensures events == old(events) + ToggleEvents(state)
    {
      if state == Expanded {
        toggled := false;
        gridded := false;
        state := Collapsed;
        events := events + [CollapsedEvent];
      } else {
        toggled := true;
        gridded := true;
        state := Expanded;
        events := events + [ExpandedEvent];
      }
      events := events + [ToggledEvent];
    }

    /**
     * `configure(**opts)`: the four options are replaced when passed, then
     * the opposite state is forced and one toggle brings the frame to the
     * state `expanded` asks for, whatever it was before.
     */
    method Configure(opts: Options)
      modifies this
      ensures Valid()
      ensures expanded == PopOr(opts, "expanded", old(expanded))
      ensures text == PopOr(opts, "text", old(text))
      ensures cursor == PopOr(opts, "cursor", old(cursor))
      ensures width == PopOr(opts, "width", old(width))
      ensures state == (if Truthy(expanded) then Expanded else Collapsed)
      ensures events == old(events) + ToggleEvents(state)
    {
      expanded := PopOr(opts, "expanded", expanded);
      text := PopOr(opts, "text", text);
      cursor := PopOr(opts, "cursor", cursor);
      width := PopOr(opts, "width", width);
      if Truthy(expanded) {
        state := Collapsed;
        Toggle();
      } else {
        state := Expanded;
        Toggle();
      }
    }

    /** `cget(key)`: the configured `expanded` and the live `state` are different keys. */
    function Cget(key: string): (r: Lookup)
      reads this
      ensures r.Found? <==> key in {"cursor", "expanded", "state", "text", "width"}
      ensures key == "cursor" ==> r == Found(cursor)
      ensures key == "expanded" ==> r == Found(expanded)
      ensures key == "state" ==> r == Found(Str(state.Name()))
      ensures key == "text" ==> r == Found(text)
      ensures key == "width" ==> r == Found(width)
    {
      if key == "cursor" then Found(cursor)
      else if key == "expanded" then Found(expanded)
      else if key == "state" then Found(Str(state.Name()))
      else if key == "text" then Found(text)
      else if key == "width" then Found(width)
      else Delegated
    }
  }

  /**
   * A frame built collapsed and toggled by the user reports `expanded` as
   * configured (False) while its `state` is "expanded"; toggling back
   * restores the original state.
   */
  method UserToggleDiverges() returns (configured: Lookup, live: Lookup, back: FrameState, count: nat)
    ensures configured == Found(Bool(false)) && live == Found(Str("expanded"))
    ensures back == Collapsed && count == 4
  {
    var r := ToggledFrame.New(map[]);
    var f := r.value;
    f.Toggle();
    configured := f.Cget("expanded");
    live := f.Cget("state");
    f.Toggle();
    back := f.state;
    count := |f.events|;
  }

  /** Of the numbers, only "0" and "1" are boolean: "2", "-1", "+1" or "10" is refused. */
  lemma NumberRefused(s: string)
    requires s != [] && s != "0" && s != "1" && (IsDigit(s[0]) || s[0] == '+' || s[0] == '-')
    ensures !AcceptsAsBoolean(Str(s))
  {
    if AcceptsAsBoolean(Str(s)) {
      AcceptedStringStart(s);
    }
  }

  /**
   * `expanded` "" and "abc" make construction fail; `expanded="off"` is a
   * Tcl boolean, but a non-empty string is true to Python, so the frame is
   * built expanded.
   */
  method ExpandedStrings() returns (empty: Result<ToggledFrame, FrameError>, word: Result<ToggledFrame, FrameError>,
                                    off: FrameState)
    ensures empty == Err(NotABoolean) && word == Err(NotABoolean)
    ensures off == Expanded
  {
    assert !AcceptsAsBoolean(Str("abc")) by {
      if AcceptsAsBoolean(Str("abc")) {
        AcceptedStringStart("abc");
        assert false;
      }
    }
    empty := ToggledFrame.New(map["expanded" := Str("")]);
    word := ToggledFrame.New(map["expanded" := Str("abc")]);
    assert Abbreviates("off", "off");
    var r := ToggledFrame.New(map["expanded" := Str("off")]);
    off := r.value.state;
  }

  /** `expanded` "2" and "-1" make construction fail, although `int` reads both. */
  method NumberStrings() returns (two: Result<ToggledFrame, FrameError>, minusOne: Result<ToggledFrame, FrameError>)
    ensures two == Err(NotABoolean) && minusOne == Err(NotABoolean)
  {
    NumberRefused("2");
    NumberRefused("-1");
    two := ToggledFrame.New(map["expanded" := Str("2")]);
    minusOne := ToggledFrame.New(map["expanded" := Str("-1")]);
  }


}
