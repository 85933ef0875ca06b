# Tkinter widget wrappers, modelled in Dafny

This project models the widget classes of a small Tkinter add-on library:
a delayed tooltip, a clickable link label, a collapsible frame, a numeric
entry, an image label, a popup menu and a ttk theme loader. Each class is
modelled in its own module, in the form the Python code takes:

- widgets whose methods update their attributes (`ToolTip`, `LinkLabel`,
  `ToggledFrame`, `NumEntry`, `Image`, `PopupMenu`) are Dafny classes with
  those attributes as fields and `modifies` clauses on the methods;
- the pure parts (tooltip placement, `int(...)` coercion, the entry's
  regular-expression filters, the image's exactly-one check, the popup
  position, the theme-name derivation) are functions, with lemmas about them;
- the theme loader is a class with a static `New` that runs the constructor's
  ordered checks step by step.

The toolkit is not modelled as such. What the widgets ask of it is kept
explicitly: the tooltip's master carries a table of pending `after` timers
and a table of live toplevels; the other widgets record their bindings,
virtual events, posted menus or Tcl commands in sequences; the geometry
numbers the toolkit reports are parameters. Python values that options can
hold (None, bool, int, str) are the datatype `Values.Value`, keyword
arguments are `Values.Options`, and a constructor or method that can raise
returns a `Result` or an optional error.

Files: `values.dfy` (shared values, truthiness, `int(...)`), `tooltip.dfy`,
`linklabel.dfy`, `toggledframe.dfy`, `numentry.dfy`, `tkimage.dfy`,
`popupmenu.dfy`, `theme.dfy`.

The model follows the code; in particular:

- the tooltip's direction is checked when the tooltip is shown (a
  ValueError from `_showtip`), not when it is attached or configured;
- tooltip failures are raised to the caller, not absorbed: hiding before
  any show has assigned `id1` raises after cancelling the show timer and
  leaves the withdrawn toplevel alive;
- entering again creates another toplevel and another show timer without
  cancelling the previous ones, so there is no single-popup invariant;
- "below" places the tooltip at the master's requested height, not at its
  actual bottom edge.

## Model

| member | source | states |
|---|---|---|
| Values.ParseInt | ToolTip.py:32-33 | `int(text)` succeeds exactly on an optionally signed run of ASCII digits; the sign decides the sign of the result |
| Values.ToInt | ToolTip.py:32-33 | `int(value)`: ints are kept, bools are 0 or 1, None fails, strings succeed exactly when they are integer literals |
| Values.ParseDecimal | ToolTip.py:93-94 | `int(str(i)) == i` for every integer: the decimal text of a number is read back as that number |
| Tooltips.TruncHalf | ToolTip.py:70 | `int(n / 2)` rounds toward zero; for odd negative n it is one more than Dafny's floor division |
| Tooltips.RoundsTowardZeroUnique | ToolTip.py:70 | the toward-zero rounding determines a single value |
| Tooltips.Place | ToolTip.py:69-85 | above/below: centred on the master horizontally, label bottom 5 above the master's top, or top 5 below the master's requested height; right/left: 5 beside the master and centred vertically; cursor: pointer + (10, 20); any other direction fails |
| Tooltips.PlaceAboveNegative | ToolTip.py:70-71 | a master left of the screen origin rounds the centred x toward zero (-11, not -12) |
| Tooltips.PlaceAboveExample | ToolTip.py:70-71 | master at (100, 100), 50 wide, label 80x24: the tooltip goes to (85, 71) |
| Tooltips.Get | ToolTip.py:108-127 | `cget` answers wait and duration as ints and any key that is not a tooltip option from the label options, None when absent |
| Tooltips.Configured | ToolTip.py:90-100 | passed options replace stored ones and absent ones are kept; wait and duration go through `int`, and a failing `int` stops the update with the text already replaced; the label options are replaced wholesale |
| Tooltips.DefaultOptions | ToolTip.py:31-34 | with no options: wait 1000, duration 8000, direction "cursor", no text |
| Tooltips.WaitFromDecimalText | ToolTip.py:93 | a wait given as decimal text is stored as its number |
| Tooltips.ToolTip.constructor | ToolTip.py:30-43 | the handlers are bound exactly when a text is given; no timer, no window |
| Tooltips.ToolTip.New | ToolTip.py:30-43 | construction is `configure` over the defaults and fails exactly when wait or duration is not an integer; a new tooltip has no timer, no window and no position |
| Tooltips.ToolTip.Cget | ToolTip.py:108-127 | unknown keys come from the label options (None when absent); wait and duration read back as the stored ints |
| Tooltips.ToolTip.Configure | ToolTip.py:90-104 | the options change as `Configured` says, handlers are bound when a text is set, and no timer or window is touched |
| Tooltips.ToolTip.EnterTip | ToolTip.py:51-56 | a new withdrawn toplevel and a show timer of `wait` ms with fresh ids; nothing new is shown and nothing else is touched |
| Tooltips.ToolTip.HideTip | ToolTip.py:58-62 | cancels the show timer, then the hide timer, then destroys the toplevel; raises at the first of `id0`, `id1` not yet assigned, after the cancellations before it |
| Tooltips.ToolTip.ShowTip | ToolTip.py:64-88 | deiconifies the toplevel with its label, moves it to `Place` and only then arms a `duration` ms hide timer; a bad direction raises with the window shown and no hide timer; a missing or destroyed toplevel raises with nothing changed; a timer id is used up only on success |
| Tooltips.ToolTip.OnEnter | ToolTip.py:40-43 | pointer entry runs `_enter` exactly when the handlers are bound |
| Tooltips.ToolTip.OnLeaveOrPress | ToolTip.py:40-43 | leave and button press run `_hidetip` exactly when bound, and succeed exactly when both timers have been assigned; each missing attribute gives its own error and leaves exactly the cancellations made before it |
| Tooltips.ToolTip.Fire | ToolTip.py:56-87 | a pending timer is removed and runs its callback; a show timer shows the tip, a hide timer hides it, with `ShowTip`'s and `HideTip`'s outcomes on every failing path; an id that is not pending does nothing |
| Tooltips.FirstQuickLeave | ToolTip.py:58-62 | leaving a fresh tooltip before it shows raises on `id1`, never shows anything and leaves one withdrawn window alive |
| Tooltips.FullCycle | ToolTip.py:51-88 | enter, show timer, hide timer: the tip appears at the pointer offset and afterwards no window or timer remains |
| Tooltips.SecondQuickVisit | ToolTip.py:58-62 | after one full cycle, a quick enter and leave cancels the show and destroys the withdrawn window without error |
| LinkLabels.LinkLabel.RestingColor | LinkLabel.py:68-72 | the visited colour once visited, the normal colour otherwise |
| LinkLabels.LinkLabel.HoverStateColor | LinkLabel.py:62-66 | the visited colour once visited (then equal to the resting colour), the hover colour otherwise |
| LinkLabels.LinkLabel.constructor | LinkLabel.py:40-54 | defaults "https://", "#0007ff", "#00009f", "#660099", not visited; cursor "pointinghand" on aqua and "hand2" elsewhere; the leave colouring is applied once |
| LinkLabels.LinkLabel.New | LinkLabel.py:40-54 | with a master or a default root at hand, construction fails with a TypeError exactly when the caller passes `foreground`, which line 50 would pass twice; otherwise the constructor's state |
| LinkLabels.LinkLabel.Enter | LinkLabel.py:62-66 | the foreground becomes the visited colour if visited, the hover colour otherwise |
| LinkLabels.LinkLabel.Leave | LinkLabel.py:68-72 | the foreground becomes the visited colour if visited, the normal colour otherwise |
| LinkLabels.LinkLabel.Open | LinkLabel.py:74-79 | the url goes to the browser, the label is visited and shows the visited colour, then `<<LinkOpened>>` is generated; enter and leave then both give the visited colour |
| LinkLabels.LinkLabel.Reset | LinkLabel.py:81-84 | not visited, normal colour shown, hovering gives the hover colour again |
| LinkLabels.LinkLabel.Configure | LinkLabel.py:86-94 | passed options replace stored ones, the others are kept; the foreground changes only when `foreground` itself is passed, not when a colour option or `visited` is |
| LinkLabels.LinkLabel.Cget | LinkLabel.py:98-111 | each of the five own options is answered from its stored value, every other key by the base label |
| LinkLabels.VisitCycle | LinkLabel.py:62-84 | with defaults: normal, hover, visited after opening (also when hovered), hover again after reset |
| LinkLabels.ConfigureVisitedIsLazy | LinkLabel.py:86-94 | configuring `visited` changes no colour until the next leave |
| ToggledFrames.Flip | ToggledFrame.py:57-68 | a toggle always changes the state |
| ToggledFrames.FlipTwice | ToggledFrame.py:57-68 | two toggles restore the state |
| ToggledFrames.ToggleEvents | ToggledFrame.py:63-69 | one toggle generates two events: the new state's event, then `<<ToggledFrameToggled>>` |
| ToggledFrames.AcceptedStringStart | ToggledFrame.py:46 | a string the button's BooleanVar accepts is "0", "1" or begins with the first letter of yes, no, true, false, on or off, and has one to five characters; the empty string is refused |
| ToggledFrames.NumberRefused | ToggledFrame.py:46 | of the strings that start with a digit or a sign only "0" and "1" are accepted: "2", "-1", "+1" and "10" are refused |
| ToggledFrames.ToggledFrame.constructor | ToggledFrame.py:42-55 | defaults expanded False, no text, cursor "arrow", width 20; starts collapsed and toggles once exactly when `expanded` is truthy |
| ToggledFrames.ToggledFrame.New | ToggledFrame.py:42-55 | construction fails with a TclError exactly when `expanded` is a string Tcl cannot read as a boolean; otherwise the constructor's state, expanded exactly when `expanded` is truthy to Python |
| ToggledFrames.ExpandedStrings | ToggledFrame.py:46-55 | `expanded` "" and "abc" make construction fail; "off" is accepted by Tcl yet expands the frame, since Python finds it true |
| ToggledFrames.NumberStrings | ToggledFrame.py:46 | `expanded` "2" and "-1" make construction fail |
| ToggledFrames.ToggledFrame.Toggle | ToggledFrame.py:57-69 | flips the state, keeps the button variable and the inner frame's gridding equal to "expanded", appends the two events |
| ToggledFrames.ToggledFrame.Configure | ToggledFrame.py:71-83 | passed options replace stored ones; the frame ends expanded exactly when `expanded` is truthy, whatever it was before, after one toggle |
| ToggledFrames.ToggledFrame.Cget | ToggledFrame.py:87-100 | cursor, expanded, text and width are answered with their stored values and `state` with the live state, separately from `expanded`; other keys go to the base frame |
| ToggledFrames.UserToggleDiverges | ToggledFrame.py:87-98 | after a user toggle `expanded` still reads False while `state` reads "expanded" |
| NumEntries.Keep | NumEntry.py:42 | a filter never lengthens the text and keeps only admitted characters |
| NumEntries.KeepIsSubsequence | NumEntry.py:42 | filtering only deletes characters, never reorders or adds them |
| NumEntries.KeepCounts | NumEntry.py:55 | every occurrence of an admitted character survives, and no other character does |
| NumEntries.KeepAllAdmitted | NumEntry.py:55 | a text of admitted characters only is left unchanged |
| NumEntries.FilterIdempotent | NumEntry.py:57 | filtering a second time changes nothing |
| NumEntries.MinusIsDropped | NumEntry.py:42 | the expression class does not hold '-', so "5-2" reaches the evaluator as "52" |
| NumEntries.OperatorsSurvive | NumEntry.py:42 | digits, parentheses, '+', '*' and '/' pass the expression filter |
| NumEntries.IntegerTextIsTheDigits | NumEntry.py:57 | integer mode leaves exactly the digits of the text, in order |
| NumEntries.NumEntry.constructor | NumEntry.py:29-36 | expressions default True, allowfloats False; empty text and empty last value |
| NumEntries.NumEntry.Eval | NumEntry.py:38-59 | in expression mode a result replaces the text and becomes the last good value, a failure restores the last good value; otherwise the text is filtered to digits (and ", ." with floats) |
| NumEntries.NumEntry.Cget | NumEntry.py:61-68 | allowfloats and expressions are answered from the stored values, other keys by the base entry |
| NumEntries.FailureRestoresLastGood | NumEntry.py:38-52 | a failing evaluation after "2*3" gave 6 puts "6" back |
| Images.Select | tkImage.py:49-54 | a photo is chosen exactly when one of file and data is set: the data when only data is set, the file when only a file is |
| Images.Keys | tkImage.py:147-150 | the six options, each once, in sorted order |
| Images.Image.constructor | tkImage.py:43-55 | defaults cursor "arrow", anchor "center", relief "flat", borderwidth 0, with the chosen photo |
| Images.Image.New | tkImage.py:43-55 | construction fails exactly when both or neither of file and data are given |
| Images.Image.Clear | tkImage.py:63-68 | file and data become None and the photo is blanked |
| Images.Image.Configure | tkImage.py:112-126 | all six options are merged before the check; the call fails exactly when the merged file and data are not exactly one, keeping the merged options and the old photo |
| Images.Image.Cget | tkImage.py:130-145 | data, cursor, anchor, relief and borderwidth are each answered with the stored value; "file" fails on the unset `_text`; any other key is an AttributeError |
| Images.Image.SetItem | tkImage.py:60-61 | `img[key] = value` acts as `configure(key=value)`: the key's option is replaced and the other five kept, the photo is reloaded exactly when one of file and data is set, and an option other than file then reads back through `cget` as the value |
| Images.ClearThenConfigure | tkImage.py:63-126 | after `clear`, restyling fails although the cursor is already replaced; giving a file succeeds |
| PopupMenus.Shifted | PopupMenu.py:46 | a coordinate plus an int or bool offset; any other offset is a TypeError |
| PopupMenus.Position | PopupMenu.py:46 | the menu is posted at the click shifted by both offsets, and fails exactly when one offset is not a number |
| PopupMenus.DefaultOffsets | PopupMenu.py:27-28 | the default offsets post the menu two pixels up and left of the click |
| PopupMenus.PopupTrace | PopupMenu.py:44-49 | the grab is released last on every path; the popup event is generated exactly when the post succeeded, and after it |
| PopupMenus.Triggers | PopupMenu.py:32-36 | Button-2 and Control-1 on aqua, Button-3 elsewhere |
| PopupMenus.PopupMenu.constructor | PopupMenu.py:27-36 | offsets default -2 and -2, tearoff False, the trigger bindings for the windowing system |
| PopupMenus.TearoffAsMasterRefused | PopupMenu.py:29-30 | a true tearoff is never accepted as the base menu's master; the default False is accepted only by tkinter before Python 3.10 |
| PopupMenus.PopupMenu.New | PopupMenu.py:13-36 | as written: construction fails first when the tearoff value, handed to the base menu as its master, is not one the toolkit replaces by the default root, and then when there is no master to bind on |
| PopupMenus.PopupMenu.NewIntended | PopupMenu.py:13-36 | with tearoff passed as the menu's option: construction fails exactly when there is no master to bind on |
| PopupMenus.TearoffTrue | PopupMenu.py:29-30 | `tearoff=True` breaks construction as written, and so does the default tearoff on newer tkinter; as intended the menu is created with tearoff True |
| PopupMenus.PopupMenu.Popup | PopupMenu.py:44-49 | one popup appends `PopupTrace` of the position; it fails with a TypeError for a bad offset and with the post's error when posting fails |
| PopupMenus.PopupMenu.Configure | PopupMenu.py:55-58 | an offset changes only when it is passed |
| PopupMenus.PopupMenu.Cget | PopupMenu.py:63-70 | the two offsets are answered from the stored values, other keys by the base menu |
| PopupMenus.ClickThenBadOffset | PopupMenu.py:44-58 | a default click at (100, 50) posts at (98, 48); after a string offset the next click posts nothing but still releases the grab |
| Themes.Basename | Theme.py:38 | the part of the path after its last '/': a suffix of the path without '/' |
| Themes.RemoveSuffixes | Theme.py:44 | `replace(".tcl", "")` removes whole occurrences only and never adds a character |
| Themes.RemovalDeletes | Theme.py:44 | `replace(".tcl", "")` only deletes characters: the result is a subsequence of the text |
| Themes.RemovesFirstOccurrence | Theme.py:44 | the leftmost ".tcl" is removed whole, the text before it is kept as it is, and removal goes on after it (no overlap, one pass) |
| Themes.ThemeNameOf | Theme.py:44-45 | the theme name of a file has no '/' |
| Themes.NoSuffixUnchanged | Theme.py:44 | a name without ".tcl" is kept as it is |
| Themes.NoDotUnchanged | Theme.py:44 | a name without '.' is kept as it is |
| Themes.DropsTrailingSuffix | Theme.py:44 | appending ".tcl" does not change the theme name derived |
| Themes.BasenameOf | Theme.py:38 | the basename of "dir/f" is f, whatever the directory |
| Themes.ThemeFileName | Theme.py:44-45 | the file "dir/stem.tcl" gives the theme "stem" |
| Themes.RemovalCanCreateSuffix | Theme.py:44 | one pass of removal can leave a ".tcl" behind: ".t.tclcl" becomes ".tcl" |
| Themes.Theme.constructor | Theme.py:30-34 | the arguments and the theme in use are stored |
| Themes.Theme.LoadPackage | Theme.py:36-38 | with a package: append it to `auto_path`, then require the basename of the name; fails with a TypeError without a name and with the Tcl error when the package is not found; with no package it sends nothing |
| Themes.Theme.ApplyTheme | Theme.py:41-51 | sources the file and uses its derived theme name, or uses the given name (with neither, only asks for the current theme); the commands sent stop at the first failure (a file that cannot be sourced sends only `source`), and every failure is the one generic exception |
| Themes.Theme.New | Theme.py:30-51 | the package step runs first and its failures pass through unchanged (NotAPath without a name, the missing package's own error), with only the package commands sent; a file together with a name is then refused after the package commands and before any theme command; every later failure is the generic exception; the commands sent are the package commands followed by the try block's; on success the theme is the file's derived name or the given name |
| Themes.Theme.Keys | Theme.py:64-67 | the three constructor options, each once, in the order name, file, pkg |
| Themes.LoadThemeFile | Theme.py:41-45 | loading "dir/stem.tcl" sources the file and then uses the theme "stem" |

## Findings

| source | as written | input that shows it | evidently intended | confidence | as-written member | corrected member |
|---|---|---|---|---|---|---|
| PopupMenu.py:29-30 | the popped `tearoff` is the first positional argument of `tk.Menu.__init__`, which is the menu's master | `PopupMenu(root, tearoff=True)` reads `True.tk` and raises AttributeError; from Python 3.10 on, tkinter replaces only a None master, so the default `False` raises as well | the master is passed as the master and `tearoff` as the menu's `tearoff` option | high; not executed | PopupMenus.PopupMenu.New, PopupMenus.TearoffTrue | PopupMenus.PopupMenu.NewIntended |

## Left out

- Toolkit calls: widget creation, `pack`/`grid`, `geometry`, `bind`, `after`/`after_cancel`, `event_generate`, `winfo_*`, `update_idletasks` and `deiconify` are not executed; their effects are kept as fields (timers, windows, bindings, gridding, event and action logs) and the numbers they report are parameters.
- Real time: a timer is pending or has fired; which pending timer fires next is the caller's choice (`Tooltips.ToolTip.Fire`).
- Label, frame, entry and menu options that the widgets hand on to their base widget are not modelled, except the tooltip's label options, which `cget` reads back.
- Base-class delegations: the `keys()` methods built from toolkit option lists (ToolTip.py:129-135, ToggledFrame.py:102-107, PopupMenu.py:72-77, and those of the link label and numeric entry), and the `cget` fallbacks, which the model answers as `Delegated`. Several of these call the base method without the widget and would raise; that is not modelled.
- PopupMenus.PopupMenu.Configure: the base `configure` call at PopupMenu.py:59 is made without the widget and raises a TypeError after the offsets are stored; the model stops after storing the offsets.
- `__getitem__` of the tooltip, the link label, the popup menu and the image label, `__setitem__` of the tooltip, the link label and the popup menu, and `add_submenu`: they only forward to `cget`, `configure` or `add_cascade`, so reading `w[key]` is `Cget(key)`. The image label's `__setitem__` is modelled (`Images.Image.SetItem`).
- The image label's forwarding methods (`blank`, `copy`, `zoom`, `subsample`, `get`, `put`, `write`, `image_names`, `image_types`).
- Images.Image.New: the toolkit is assumed to load every file and data value; a PhotoImage that fails to load is not modelled (the same holds for `Images.Image.Configure`).
- The numeric entry's `eval` and `round` are a parameter `evaluate` that gives the text of the result or fails; Python's expression language and banker's rounding are not modelled.
- `webbrowser.open` is recorded in the sequence `browsed`; opening a browser is I/O.
- Tcl interpreter calls of the theme loader (`lappend auto_path`, `package require`, `source`, theme use) are recorded as `TclCall`s; their outcome comes from the `Interpreter` datatype.
- Values.ParseInt: leading and trailing whitespace, underscores between digits and non-ASCII digits, which Python's `int` also accepts, are treated as not integers.
- PopupMenus.PopupMenu.NewIntended: the menu's own tearoff strip, which the toolkit draws from the option, is not modelled; the value is only stored. As written the option is not passed, so the menu gets the toolkit's default tearoff.
- PopupMenus.Shifted: a float offset, which Python adds and then truncates with `int`, is treated as not a number; option values are None, bool, int or str throughout.
- Themes.Theme.New: the arguments are strings or None; the master is the given window or the default root that `ttk.Style.__init__` supplies, and the RuntimeError tkinter raises when default roots are disabled is not modelled.
- LinkLabels.LinkLabel.New and ToggledFrames.ToggledFrame.New: without a master and before any root window exists, the link label reads `tk._default_root.tk` on None (LinkLabel.py:45-46, an AttributeError) and the frame's BooleanVar has no interpreter to live in (ToggledFrame.py:46, tkinter's RuntimeError); the model assumes a master or a default root exists.
- ToggledFrames.ToggledFrame.constructor: the cursor, text and width handed to the check button (ToggledFrame.py:48-50, and again by `configure` at line 76) are stored without the toolkit's checks; a value Tk refuses, which would raise a TclError there, is not modelled.
- Themes.Basename: splits at '/' only; on Windows `os.path.basename` also splits at '\\' and drops a drive prefix, which is not modelled.
- Tooltips.ToolTip.ShowTip: a label that the toolkit refuses to create from bad label options is not modelled.
- Image.py (an older copy of the image label), the theme loader's `cget` (it compares strings by identity), MenuBar.py (toolkit plumbing only), `__init__.py` (imports only) and the demo `__main__` blocks are not part of this model.
