/**
 * The clickable link label of LinkLabel.py: its foreground follows the
 * pointer (hover colour while inside, normal colour outside) until the link
 * is opened, after which it stays in the visited colour until `reset`.
 */
module LinkLabels {
  import opened Values

  datatype LinkError =
    | DuplicateForeground   // TypeError: `foreground` given both by the label and by the caller

  class LinkLabel {
    var url: Value
    var normalColor: Value
    var hoverColor: Value
    var visitedColor: Value
    /** the `is_visited` attribute (any value; its truthiness decides) */
    var visited: Value
    var cursor: Value
    /** the label's current foreground colour */
    var foreground: Value
    /** the urls handed to the web browser, in order */
    var browsed: seq<Value>
    /** the virtual events generated on the label, in order */
    var events: seq<string>

    /** The colour `_leave` applies: visited colour once visited, normal colour otherwise. */
    function RestingColor(): (c: Value)
      reads this
      ensures Truthy(visited) ==> c == visitedColor
      ensures !Truthy(visited) ==> c == normalColor
    {
      if Truthy(visited) then visitedColor else normalColor
    }

    /** The colour `_enter` applies: visited colour once visited, hover colour otherwise. */
    function HoverStateColor(): (c: Value)
      reads this
      ensures Truthy(visited) ==> c == visitedColor && c == RestingColor()
      ensures !Truthy(visited) ==> c == hoverColor
    {
      if Truthy(visited) then visitedColor else hoverColor
    }

    /**
     * `LinkLabel(master, **opts)`: the five options with their defaults, the
     * cursor defaulting by windowing system, and the leave colouring applied
     * once at the end. Options the label does not pop go to the base label
     * and are not modelled, apart from `foreground`, which `New` refuses.
     */
    constructor (opts: Options, aqua: bool)
      requires "foreground" !in opts
      ensures url == PopOr(opts, "url", Str("https://"))
      ensures normalColor == PopOr(opts, "normalcolor", Str("#0007ff"))
      ensures hoverColor == PopOr(opts, "hovercolor", Str("#00009f"))
      ensures visitedColor == PopOr(opts, "visitedcolor", Str("#660099"))
      ensures visited == PopOr(opts, "visited", Bool(false))
      ensures cursor == PopOr(opts, "cursor", if aqua then Str("pointinghand") else Str("hand2"))
      ensures foreground == RestingColor()
      ensures browsed == [] && events == []
    {
      url := PopOr(opts, "url", Str("https://"));
      normalColor := PopOr(opts, "normalcolor", Str("#0007ff"));
      hoverColor := PopOr(opts, "hovercolor", Str("#00009f"));
      visitedColor := PopOr(opts, "visitedcolor", Str("#660099"));
      visited := PopOr(opts, "visited", Bool(false));
      cursor := PopOr(opts, "cursor", if aqua then Str("pointinghand") else Str("hand2"));
      foreground := PopOr(opts, "normalcolor", Str("#0007ff"));
      browsed := [];
      events := [];
      new;
      Leave();
    }

    /**
     * `LinkLabel(master, **opts)` as a call that can fail: the label passes
     * its own `foreground` to the base label together with the caller's
     * remaining options, so a caller's `foreground` is a second value for
     * the same keyword and construction raises.
     */
    static method New(opts: Options, aqua: bool) returns (r: Result<LinkLabel, LinkError>)
      ensures r.Err? <==> "foreground" in opts
      ensures r.Err? ==> r.error == DuplicateForeground
      ensures r.Ok? ==> (fresh(r.value)
        && r.value.url == PopOr(opts, "url", Str("https://"))
        && r.value.normalColor == PopOr(opts, "normalcolor", Str("#0007ff"))
        && r.value.hoverColor == PopOr(opts, "hovercolor", Str("#00009f"))
        && r.value.visitedColor == PopOr(opts, "visitedcolor", Str("#660099"))
        && r.value.visited == PopOr(opts, "visited", Bool(false))
        && r.value.cursor == PopOr(opts, "cursor", if aqua then Str("pointinghand") else Str("hand2"))
        && r.value.foreground == r.value.RestingColor()
        && r.value.browsed == [] && r.value.events == [])
    {
      if "foreground" in opts {
        return Err(DuplicateForeground);
      }
      var l := new LinkLabel(opts, aqua);
      return Ok(l);
    }

    /** `_enter`: the pointer is over the link. */
    method Enter()
      modifies this`foreground
      ensures foreground == HoverStateColor()
      ensures Truthy(visited) ==> foreground == visitedColor
      ensures !Truthy(visited) ==> foreground == hoverColor
    {
      if Truthy(visited) {
        foreground := visitedColor;
      } else {
        foreground := hoverColor;
      }
    }

    /** `_leave`: the pointer has left the link. */
    method Leave()
      modifies this`foreground
      ensures foreground == RestingColor()
      ensures Truthy(visited) ==> foreground == visitedColor
      ensures !Truthy(visited) ==> foreground == normalColor
    {
      if Truthy(visited) {
        foreground := visitedColor;
      } else {
        foreground := normalColor;
      }
    }

    /**
     * `_open`: hand the url to the browser, mark the link visited, recolour
     * it and only then generate `<<LinkOpened>>`.
     */
    method Open()
      modifies this`browsed, this`visited, this`foreground, this`events
      ensures browsed == old(browsed) + [url]
      ensures visited == Bool(true) && Truthy(visited)
      ensures foreground == visitedColor
      ensures HoverStateColor() == visitedColor && RestingColor() == visitedColor
      ensures events == old(events) + ["<<LinkOpened>>"]
    {
      browsed := browsed + [url];
      visited := Bool(true);
      Leave();
      events := events + ["<<LinkOpened>>"];
    }

    /** `reset`: forget the visit and show the normal colour. */
    method Reset()
      modifies this`visited, this`foreground
      ensures visited == Bool(false) && !Truthy(visited)
      ensures foreground == normalColor
      ensures HoverStateColor() == hoverColor && RestingColor() == normalColor
    {
      visited := Bool(false);
      Leave();
    }

    /**
     * `configure(**opts)`: each passed option replaces the stored one, the
     * others are kept, and only a passed `foreground` recolours: a new
     * `visited` or colour option shows at the next enter or leave.
     */
    method Configure(opts: Options)
      modifies this`url, this`normalColor, this`hoverColor, this`visitedColor, this`visited, this`cursor, this`foreground
      ensures url == PopOr(opts, "url", old(url))
      ensures normalColor == PopOr(opts, "normalcolor", old(normalColor))
      ensures hoverColor == PopOr(opts, "hovercolor", old(hoverColor))
      ensures visitedColor == PopOr(opts, "visitedcolor", old(visitedColor))
      ensures visited == PopOr(opts, "visited", old(visited))
      ensures cursor == PopOr(opts, "cursor", old(cursor))
      ensures foreground == PopOr(opts, "foreground", old(foreground))
    {
      url := PopOr(opts, "url", url);
      normalColor := PopOr(opts, "normalcolor", normalColor);
      hoverColor := PopOr(opts, "hovercolor", hoverColor);
      visitedColor := PopOr(opts, "visitedcolor", visitedColor);
      visited := PopOr(opts, "visited", visited);
      cursor := PopOr(opts, "cursor", cursor);
      foreground := PopOr(opts, "foreground", foreground);
    }

    /** `cget(key)`: the label's own five options, anything else from the base label. */
    function Cget(key: string): (r: Lookup)
      reads this
      ensures r.Found? <==> key in {"hovercolor", "normalcolor", "url", "visitedcolor", "visited"}
      ensures key == "hovercolor" ==> r == Found(hoverColor)
      ensures key == "normalcolor" ==> r == Found(normalColor)
      ensures key == "url" ==> r == Found(url)
      ensures key == "visitedcolor" ==> r == Found(visitedColor)
      ensures key == "visited" ==> r == Found(visited)
    {
      if key == "hovercolor" then Found(hoverColor)
      else if key == "normalcolor" then Found(normalColor)
      else if key == "url" then Found(url)
      else if key == "visitedcolor" then Found(visitedColor)
      else if key == "visited" then Found(visited)
      else Delegated
    }
  }

  /**
   * A label with default options: hover and leave alternate between the
   * hover and normal colours; after a click both give the visited colour;
   * after a reset hovering gives the hover colour again.
   */
  method VisitCycle() returns (before: Value, hover: Value, afterOpen: Value, hoverAfterOpen: Value, hoverAfterReset: Value)
    ensures before == Str("#0007ff") && hover == Str("#00009f")
    ensures afterOpen == Str("#660099") && hoverAfterOpen == Str("#660099")
    ensures hoverAfterReset == Str("#00009f")
  {
    var r := LinkLabel.New(map[], false);
    var l := r.value;
    before := l.foreground;
    l.Enter();
    hover := l.foreground;
    l.Open();
    l.Leave();
    afterOpen := l.foreground;
    l.Enter();
    hoverAfterOpen := l.foreground;
    l.Reset();
    l.Enter();
    hoverAfterReset := l.foreground;
  }

  /** Configuring `visited` changes no colour until the pointer next enters or leaves. */
  method ConfigureVisitedIsLazy() returns (now: Value, afterLeave: Value)
    ensures now == Str("#0007ff") && afterLeave == Str("#660099")
  {
    var r := LinkLabel.New(map[], false);
    var l := r.value;
    l.Configure(map["visited" := Bool(true)]);
    now := l.foreground;
    l.Leave();
    afterLeave := l.foreground;
  }
}
