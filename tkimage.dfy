/**
 * The image label of tkImage.py: a label showing one PhotoImage, loaded
 * either from a file or from inline data. Exactly one of the two must be
 * set, at construction and after every `configure`.
 */
module Images {
  import opened Values

  /** Where a PhotoImage was loaded from. */
  datatype PhotoSource = FromData(data: Value) | FromFile(file: Value)

  /** The PhotoImage the label shows, and whether `blank` has cleared its pixels. */
  datatype Photo = Photo(source: PhotoSource, blank: bool)

  datatype ImageError =
    | BothOrNeither                 // "Couldn't use image file and image data at the same time"
    | NoAttribute(name: string)     // AttributeError from `cget`

  /**
   * The photo the two options call for: the data when only data is set, the
   * file when only a file is set, and none (an error) when both or neither are.
   */
  function Select(file: Value, data: Value): (r: Option<PhotoSource>)
    ensures r.Some? <==> (file == NoneV) != (data == NoneV)
    ensures r.Some? && data != NoneV ==> r.value == FromData(data)
    ensures r.Some? && file != NoneV ==> r.value == FromFile(file)
  {
    if data != NoneV && file == NoneV then Some(FromData(data))
    else if file != NoneV && data == NoneV then Some(FromFile(file))
    else None
  }

  /** Strict code-point order on strings, the order Python's `sorted` uses. */
  predicate LexLess(a: string, b: string) {
    if a == [] then b != []
    else b != [] && (a[0] < b[0] || (a[0] == b[0] && LexLess(a[1..], b[1..])))
  }

  /** The options the label pops for itself. */
  const ImageOptions: set<string> := {"file", "data", "cursor", "anchor", "relief", "borderwidth"}

  /** `keys()`: the six options, once each, in sorted order. */
  function Keys(): (ks: seq<string>)
    ensures forall k :: k in ks <==> k in ImageOptions
    ensures forall i, j :: 0 <= i < j < |ks| ==> LexLess(ks[i], ks[j])
  {
    ["anchor", "borderwidth", "cursor", "data", "file", "relief"]
  }

  class Image {
    var file: Value
    var data: Value
    var cursor: Value
    var anchor: Value
    var relief: Value
    var borderwidth: Value
    /** the `_image` attribute */
    var photo: Photo

    constructor (opts: Options, source: PhotoSource)
      requires Select(PopOr(opts, "file", NoneV), PopOr(opts, "data", NoneV)) == Some(source)
      ensures file == PopOr(opts, "file", NoneV) && data == PopOr(opts, "data", NoneV)
      ensures cursor == PopOr(opts, "cursor", Str("arrow"))
      ensures anchor == PopOr(opts, "anchor", Str("center"))
      ensures relief == PopOr(opts, "relief", Str("flat"))
      ensures borderwidth == PopOr(opts, "borderwidth", Int(0))
      ensures photo == Photo(source, false)
    {
      file := PopOr(opts, "file", NoneV);
      data := PopOr(opts, "data", NoneV);
      cursor := PopOr(opts, "cursor", Str("arrow"));
      anchor := PopOr(opts, "anchor", Str("center"));
      relief := PopOr(opts, "relief", Str("flat"));
      borderwidth := PopOr(opts, "borderwidth", Int(0));
      photo := Photo(source, false);
    }

    /**
     * `Image(master, **opts)`: the options with their defaults; construction
     * fails unless exactly one of file and data is given.
     */
    static method New(opts: Options) returns (r: Result<Image, ImageError>)
      ensures r.Err? <==> Select(PopOr(opts, "file", NoneV), PopOr(opts, "data", NoneV)).None?
      ensures r.Err? ==> r.error == BothOrNeither
      ensures r.Ok? ==> (fresh(r.value)
        && r.value.photo == Photo(Select(PopOr(opts, "file", NoneV), PopOr(opts, "data", NoneV)).value, false)
        && r.value.file == PopOr(opts, "file", NoneV) && r.value.data == PopOr(opts, "data", NoneV)
        && r.value.cursor == PopOr(opts, "cursor", Str("arrow"))
        && r.value.anchor == PopOr(opts, "anchor", Str("center"))
        && r.value.relief == PopOr(opts, "relief", Str("flat"))
        && r.value.borderwidth == PopOr(opts, "borderwidth", Int(0)))
    {
      var source := Select(PopOr(opts, "file", NoneV), PopOr(opts, "data", NoneV));
      if source.None? {
        return Err(BothOrNeither);
      }
      var img := new Image(opts, source.value);
      return Ok(img);
    }

    /** `clear`: forget the file and the data, and blank the photo. */
    method Clear()
      modifies this`file, this`data, this`photo
      ensures file == NoneV && data == NoneV
      ensures photo == old(photo).(blank := true)
    {
      file := NoneV;
      data := NoneV;
      photo := photo.(blank := true);
    }

    /**
     * `configure(**opts)`: all six options are merged first; then a new photo
     * is loaded when exactly one of file and data is set, and otherwise the
     * call fails with the merged options already stored and the old photo kept.
     */
    method Configure(opts: Options) returns (err: Option<ImageError>)
      modifies this
      ensures file == PopOr(opts, "file", old(file)) && data == PopOr(opts, "data", old(data))
      ensures cursor == PopOr(opts, "cursor", old(cursor))
      ensures anchor == PopOr(opts, "anchor", old(anchor))
      ensures relief == PopOr(opts, "relief", old(relief))
      ensures borderwidth == PopOr(opts, "borderwidth", old(borderwidth))
      ensures err.None? <==> Select(file, data).Some?
      ensures err.Some? ==> err.value == BothOrNeither && photo == old(photo)
      ensures err.None? ==> photo == Photo(Select(file, data).value, false)
    {
      file := PopOr(opts, "file", file);
      data := PopOr(opts, "data", data);
      cursor := PopOr(opts, "cursor", cursor);
      anchor := PopOr(opts, "anchor", anchor);
      relief := PopOr(opts, "relief", relief);
      borderwidth := PopOr(opts, "borderwidth", borderwidth);
      var source := Select(file, data);
      if source.None? {
        return Some(BothOrNeither);
      }
      photo := Photo(source.value, false);
      err := None;
    }

    /**
     * `cget(key)`: the stored option; "file" reads the attribute `_text`,
     * which the widget never sets, and any other key is an AttributeError.
     */
    function Cget(key: string): (r: Result<Value, ImageError>)
      reads this
      ensures r.Ok? <==> key in ImageOptions - {"file"}
      ensures key == "file" ==> r == Err(NoAttribute("_text"))
      ensures key == "data" ==> r == Ok(data)
      ensures key == "cursor" ==> r == Ok(cursor)
      ensures key == "anchor" ==> r == Ok(anchor)
      ensures key == "relief" ==> r == Ok(relief)
      ensures key == "borderwidth" ==> r == Ok(borderwidth)
      ensures key !in ImageOptions ==> r == Err(NoAttribute(key))
    {
      if key == "file" then Err(NoAttribute("_text"))
      else if key == "data" then Ok(data)
      else if key == "cursor" then Ok(cursor)
      else if key == "anchor" then Ok(anchor)
      else if key == "relief" then Ok(relief)
      else if key == "borderwidth" then Ok(borderwidth)
      else Err(NoAttribute(key))
    }

    /** `img[key] = value`: the same effect as `configure(key=value)`. */
    method SetItem(key: string, value: Value) returns (err: Option<ImageError>)
      modifies this
      ensures file == PopOr(map[key := value], "file", old(file))
      ensures data == PopOr(map[key := value], "data", old(data))
      ensures cursor == PopOr(map[key := value], "cursor", old(cursor))
      ensures anchor == PopOr(map[key := value], "anchor", old(anchor))
      ensures relief == PopOr(map[key := value], "relief", old(relief))
      ensures borderwidth == PopOr(map[key := value], "borderwidth", old(borderwidth))
      ensures key in ImageOptions - {"file"} ==> Cget(key) == Ok(value)
      ensures err.None? <==> Select(file, data).Some?
      ensures err.Some? ==> err.value == BothOrNeither && photo == old(photo)
      ensures err.None? ==> photo == Photo(Select(file, data).value, false)
    {
      err := Configure(map[key := value]);
    }
  }

  /**
   * After `clear`, restyling without a new file or data fails, even though
   * the cursor has already been replaced; supplying a file succeeds.
   */
  method ClearThenConfigure() returns (restyle: Option<ImageError>, cursorAfter: Value, reload: Option<ImageError>)
    ensures restyle == Some(BothOrNeither) && cursorAfter == Str("hand2")
    ensures reload.None?
  {
    var r := Image.New(map["data" := Str("R0lGODlh")]);
    var img := r.value;
    img.Clear();
    restyle := img.Configure(map["cursor" := Str("hand2")]);
    cursorAfter := img.cursor;
    reload := img.Configure(map["file" := Str("logo.png")]);
  }
}
