/**
 * The annotation window (class AnnotationUI) with its widgets taken out:
 * what each event handler does to the window's own fields and to the
 * annotation store. Canvas and image sizes, pointer positions, key names
 * and widget values are the handlers' parameters.
 */
module Session {
  import opened Builtins
  import opened JsonValue
  import opened Wrappers
  import ImageList
  import Store
  import opened Viewport
  import opened Labels

  /** `next_image`: one image on, wrapping from the last to the first (Python `%`, n > 0). */
  function Next(i: int, n: int): (r: int)
    requires n > 0
    ensures 0 <= r < n
  {
    (i + 1) % n
  }

  /** `previous_image`: one image back, wrapping from the first to the last. */
  function Prev(i: int, n: int): (r: int)
    requires n > 0
    ensures 0 <= r < n
  {
    (i - 1) % n
  }

  /** Inside the list, Next and Prev step by one and wrap at the ends. */
  lemma NextPrevSteps(i: int, n: int)
    requires 0 <= i < n
    ensures Next(i, n) == (if i == n - 1 then 0 else i + 1)
    ensures Prev(i, n) == (if i == 0 then n - 1 else i - 1)
  {
    if i == n - 1 {
      Wrap(i + 1, n, 1);
    } else {
      Wrap(i + 1, n, 0);
    }
    if i == 0 {
      Wrap(i - 1, n, -1);
    } else {
      Wrap(i - 1, n, 0);
    }
  }

  /** Python's `%` by a positive length n takes a value k lengths away from [0, n) back into it. */
  lemma Wrap(a: int, n: int, k: int)
    requires n > 0 && 0 <= a - k * n < n
    ensures a % n == a - k * n
  {
    var d, r := a / n, a % n;
    assert a == d * n + r && 0 <= r < n;
    if d > k {
      MulNonNegative(d - k - 1, n);
      assert false;
    } else if d < k {
      MulNonNegative(k - d - 1, n);
      assert false;
    }
  }

  lemma MulNonNegative(x: int, y: int)
    requires x >= 0 && y >= 0
    ensures x * y >= 0
  {
  }

  /** Next followed by Prev, or Prev followed by Next, comes back to the same image. */
  lemma PrevUndoesNext(i: int, n: int)
    requires 0 <= i < n
    ensures Prev(Next(i, n), n) == i
    ensures Next(Prev(i, n), n) == i
  {
    NextPrevSteps(i, n);
    NextPrevSteps(Next(i, n), n);
    NextPrevSteps(Prev(i, n), n);
  }

  /** From a negative index (counting from the end), Next still goes to the image after the one shown. */
  lemma NextFromShownImage(i: int, n: int)
    requires ValidIndex(i, n)
    ensures Next(i, n) == Next(Position(i, n), n)
    ensures Prev(i, n) == Prev(Position(i, n), n)
  {
    if i < 0 {
      var p := i + n;
      assert Position(i, n) == p;
      NextPrevSteps(p, n);
      if i + 1 == 0 {
        Wrap(i + 1, n, 0);
      } else {
        Wrap(i + 1, n, -1);
      }
      if i == -n {
        Wrap(i - 1, n, -2);
      } else {
        Wrap(i - 1, n, -1);
      }
    }
  }

  /** `on_scale_move`: the slider value, truncated and made 0-based, clamped into the list. */
  function SliderIndex(value: real, n: int): (idx: int)
    requires n > 0
    ensures 0 <= idx < n
    ensures 1 <= Truncate(value) <= n ==> idx == Truncate(value) - 1
    ensures Truncate(value) < 1 ==> idx == 0
    ensures Truncate(value) > n ==> idx == n - 1
  {
    var idx := Truncate(value) - 1;
    var upper := if idx < n - 1 then idx else n - 1;
    if 0 < upper then upper else 0
  }

  /**
   * The text of the index entry box as Tcl reads it: an integer, a number
   * with a fractional part or an exponent, or no number at all.
   */
  datatype EntryText = IntText(n: int) | DecimalText(x: real) | NotNumber

  /**
   * `IntVar.get()` on the entry's text: an integer as it is, any other
   * number truncated toward zero by `int`; None where Tcl cannot read a
   * number and `get` raises a TclError.
   */
  function IntVarGet(e: EntryText): (r: Option<int>)
    ensures r.None? <==> e.NotNumber?
    ensures e.IntText? ==> r == Some(e.n)
    ensures e.DecimalText? && 0.0 <= e.x ==> r.Some? && r.value as real <= e.x < r.value as real + 1.0
    ensures e.DecimalText? && e.x < 0.0 ==> r.Some? && r.value as real - 1.0 < e.x <= r.value as real
  {
    match e
    case IntText(n) => Some(n)
    case DecimalText(x) => Some(Truncate(x))
    case NotNumber => None
  }

  /** `on_index_entry`: the index a number typed in the entry box jumps to; one outside 1..n leads nowhere. */
  function EntryTarget(val: int, n: int): (target: Option<int>)
    ensures target.Some? <==> 1 <= val <= n
    ensures target.Some? ==> target.value == val - 1
  {
    if 0 <= val - 1 < n then Some(val - 1) else None
  }

  /** Typing 2.5 goes to the second image, as typing 2 does; typing -0.5 goes nowhere. */
  lemma EntryTruncatesDecimals(n: int)
    requires n >= 2
    ensures IntVarGet(DecimalText(2.5)).Some? && EntryTarget(IntVarGet(DecimalText(2.5)).value, n) == Some(1)
    ensures EntryTarget(IntVarGet(DecimalText(2.5)).value, n) == EntryTarget(IntVarGet(IntText(2)).value, n)
    ensures IntVarGet(DecimalText(-0.5)).Some? && EntryTarget(IntVarGet(DecimalText(-0.5)).value, n) == None
  {
    assert Truncate(2.5) == 2;
    assert Truncate(-0.5) == 0;
  }

  /**
   * The slider and the entry box agree inside the list but not outside it:
   * past the end the slider goes to the last image and the entry box
   * stays where it is.
   */
  lemma SliderAndEntryDiffer(n: int, k: int)
    requires n > 0
    ensures 1 <= k <= n ==> EntryTarget(k, n) == Some(SliderIndex(k as real, n))
    ensures k > n ==> SliderIndex(k as real, n) == n - 1 && EntryTarget(k, n) == None
    ensures k < 1 ==> SliderIndex(k as real, n) == 0 && EntryTarget(k, n) == None
  {
    assert Truncate(k as real) == k;
  }

  /** Every fresh record is one the window can read. */
  lemma EmptyRecordsReadable(files: seq<string>, listed: seq<string>)
    ensures RecordsReadable(Store.EmptyRecords(files), listed)
  {
    EmptyRecordsReadEmpty();
  }

  /** A stray entry that is not a record, such as a legacy file's "last_index", does not stop the window from opening. */
  lemma StrayEntryReadable()
    ensures !RecordLike(Int(3))
    ensures RecordsReadable(map["a.png" := Store.EmptyRecord, "last_index" := Int(3)], ["a.png"])
  {
    EmptyRecordsReadEmpty();
  }

  /** The window's own state, apart from the store. */
  datatype Screen = Screen(view: View, drag: Drag, imageWidth: int, imageHeight: int,
                           keyMap: map<string, LabelEntry>, selected: set<string>, description: string,
                           zoomScrollbar: real, shownIndex: int, shownFile: string)

  /**
   * `load_image` for the store's current image, of size imageW x imageH:
   * a fresh view fitted to the canvas, the slider and entry box at the
   * 1-based index, the file name, and the description and labels read
   * from the current record.
   */
  function LoadedScreen(s: Screen, dm: Store.DataManager, imageW: int, imageH: int, canvasW: int, canvasH: int)
    : (r: Screen)
    reads dm
    requires ViewValid(s.view) && imageW > 0 && imageH > 0
    requires ValidIndex(dm.currentIndex, |dm.imageFiles|) && RecordsReadable(dm.annotations, dm.imageFiles)
    ensures ViewValid(r.view) && r.view.zoom > 0.0
  {
    var annotation := dm.CurrentAnnotation();
    s.(view := ForNewImage(s.view, imageW, imageH, canvasW, canvasH),
       imageWidth := imageW, imageHeight := imageH,
       zoomScrollbar := if canvasW > 1 && canvasH > 1 then ZoomMinMult * 100.0 else s.zoomScrollbar,
       shownIndex := dm.currentIndex + 1, shownFile := dm.CurrentImage(),
       description := DescriptionOf(annotation), selected := LabelsOf(annotation))
  }

  class AnnotationUI {
    var dm: Store.DataManager
    var labelKeyMap: map<string, LabelEntry>
    var selectedLabels: set<string>
    /** The text of the description entry. */
    var description: string
    var zoomFactor: real
    var fitZoomFactor: real
    /** Whether `zoom_min` and `zoom_max` exist yet. */
    var hasZoomBounds: bool
    var zoomMin: real
    var zoomMax: real
    var imageX: real
    var imageY: real
    var panStartX: int
    var panStartY: int
    var isPanning: bool
    /** The size of the image in view. */
    var imageWidth: int
    var imageHeight: int
    /** The value shown by the zoom scrollbar. */
    var zoomScrollbarValue: real
    /** The 1-based index shown by the slider and the entry box. */
    var shownIndex: int
    /** The file name shown above the image. */
    var shownFile: string

    function View(): View
      reads this
    {
      Viewport.View(zoomFactor, fitZoomFactor, hasZoomBounds, zoomMin, zoomMax, imageX, imageY)
    }

    function Drag(): Drag
      reads this
    {
      Viewport.Drag(isPanning, panStartX, panStartY)
    }

    function State(): Screen
      reads this
    {
      Screen(View(), Drag(), imageWidth, imageHeight, labelKeyMap, selectedLabels, description,
             zoomScrollbarValue, shownIndex, shownFile)
    }

    /**
     * What the handlers rely on: an image in view, a consistent zoom
     * state with a positive zoom, a non-empty image list with the index
     * inside it, and readable records.
     */
    ghost predicate Valid()
      reads this, dm
    {
      imageWidth > 0 && imageHeight > 0 && ViewValid(View()) && zoomFactor > 0.0 &&
      |dm.imageFiles| > 0 && ValidIndex(dm.currentIndex, |dm.imageFiles|) && RecordsReadable(dm.annotations, dm.imageFiles)
    }

    /**
     * The record of the current image is the description and selection
     * on screen, the other records are as before, and the file holds the
     * store.
     */
    ghost predicate SavedOver(before: map<string, Json>)
      reads this, dm
      requires ValidIndex(dm.currentIndex, |dm.imageFiles|)
    {
      var current := dm.CurrentImage();
      dm.annotations.Keys == before.Keys + {current} &&
      (forall name :: name in before && name != current ==> dm.annotations[name] == before[name]) &&
      IsRecordOf(dm.annotations[current], description, selectedLabels) &&
      dm.metaFile == Some(Store.Encode(dm.currentIndex, dm.annotations))
    }

    /**
     * Opens the data folder and shows the image at the saved index, of size
     * imageW x imageH; the key map comes from the configured label groups.
     */
    constructor (listing: seq<ImageList.Entry>, metaFile: Option<Json>, groups: seq<seq<LabelEntry>>,
                 imageW: int, imageH: int, canvasW: int, canvasH: int)
      requires metaFile.Some? ==> Store.Loadable(metaFile.value)
      requires metaFile.Some? ==>
                 RecordsReadable(Store.Interpret(metaFile.value).annotations, ImageList.ImageFiles(listing))
      requires |ImageList.ImageFiles(listing)| > 0
      requires metaFile.Some? ==>
                 ValidIndex(Store.Interpret(metaFile.value).lastIndex, |ImageList.ImageFiles(listing)|)
      requires imageW > 0 && imageH > 0
      ensures Valid() && fresh(dm)
      ensures dm.imageFiles == ImageList.ImageFiles(listing) && dm.metaFile == metaFile
      ensures metaFile.None? ==> dm.annotations == Store.EmptyRecords(dm.imageFiles) && dm.currentIndex == 0
      ensures metaFile.Some? ==> Store.Loaded(dm.annotations, dm.currentIndex) == Store.Interpret(metaFile.value)
      ensures State() == LoadedScreen(Screen(InitialView, InitialDrag, imageW, imageH, KeyMapOf(Flatten(groups)),
                                             {}, "", ZoomMinMult * 100.0, 0, ""),
                                      dm, imageW, imageH, canvasW, canvasH)
    {
      var store := new Store.DataManager(listing, metaFile);
      if metaFile.None? {
        EmptyRecordsReadable(store.imageFiles, store.imageFiles);
      }
      dm := store;
      var keyMap := BuildKeyMap(groups);
      labelKeyMap := keyMap;
      selectedLabels := {};
      description := "";
      zoomFactor := 1.0;
      fitZoomFactor := 1.0;
      hasZoomBounds := false;
      zoomMin, zoomMax := 0.0, 0.0;
      imageX, imageY := 0.0, 0.0;
      panStartX, panStartY := 0, 0;
      isPanning := false;
      imageWidth, imageHeight := imageW, imageH;
      zoomScrollbarValue := ZoomMinMult * 100.0;
      shownIndex, shownFile := 0, "";
      new;
      LoadImage(imageW, imageH, canvasW, canvasH);
    }

    /** `load_image`: shows the current image (of size imageW x imageH) and its record. */
    method LoadImage(imageW: int, imageH: int, canvasW: int, canvasH: int)
      requires Valid() && imageW > 0 && imageH > 0
      modifies this`fitZoomFactor, this`zoomFactor, this`zoomMin, this`zoomMax, this`hasZoomBounds,
               this`imageX, this`imageY, this`zoomScrollbarValue,
               this`imageWidth, this`imageHeight, this`shownFile, this`shownIndex, this`description, this`selectedLabels
      ensures Valid() && dm == old(dm)
      ensures State() == LoadedScreen(old(State()), dm, imageW, imageH, canvasW, canvasH)
    {
      ResetView(imageW, imageH);
      FitImageToCanvas(canvasW, canvasH);
      ShowRecord();
    }

    /** The start of `load_image`: a new image of size imageW x imageH at zoom 1, unshifted. */
    method ResetView(imageW: int, imageH: int)
      requires Valid() && imageW > 0 && imageH > 0
      modifies this`zoomFactor, this`imageX, this`imageY, this`imageWidth, this`imageHeight
      ensures Valid()
      ensures View() == old(View()).(zoom := 1.0, imageX := 0.0, imageY := 0.0)
      ensures imageWidth == imageW && imageHeight == imageH
    {
      zoomFactor := 1.0;
      imageX, imageY := 0.0, 0.0;
      imageWidth, imageHeight := imageW, imageH;
    }

    /** The end of `load_image`: the file name, the index and the current record are shown. */
    method ShowRecord()
      requires Valid()
      modifies this`shownFile, this`shownIndex, this`description, this`selectedLabels
      ensures Valid()
      ensures shownIndex == dm.currentIndex + 1 && shownFile == dm.CurrentImage()
      ensures description == DescriptionOf(dm.CurrentAnnotation()) && selectedLabels == LabelsOf(dm.CurrentAnnotation())
    {
      shownFile := dm.imageFiles[Position(dm.currentIndex, |dm.imageFiles|)];
      shownIndex := dm.currentIndex + 1;
      var annotation := dm.CurrentAnnotation();
      description := DescriptionOf(annotation);
      selectedLabels := LabelsOf(annotation);
    }

    /** `_fit_image_to_canvas`: on a measured canvas, fit the image and set the scrollbar to 100%. */
    method FitImageToCanvas(canvasW: int, canvasH: int)
      requires Valid()
      modifies this`fitZoomFactor, this`zoomFactor, this`zoomMin, this`zoomMax, this`hasZoomBounds,
               this`imageX, this`imageY, this`zoomScrollbarValue
      ensures Valid()
      ensures View() == Fit(old(View()), imageWidth, imageHeight, canvasW, canvasH)
      ensures zoomScrollbarValue == if canvasW > 1 && canvasH > 1 then ZoomMinMult * 100.0 else old(zoomScrollbarValue)
    {
      if canvasW <= 1 || canvasH <= 1 {
        return;
      }
      var fitZoom := FitZoom(imageWidth, imageHeight, canvasW, canvasH);
      fitZoomFactor := fitZoom;
      zoomFactor := fitZoom;
      zoomMin := fitZoom * ZoomMinMult;
      zoomMax := fitZoom * ZoomMaxMult;
      hasZoomBounds := true;
      imageX, imageY := 0.0, 0.0;
      zoomScrollbarValue := ZoomMinMult * 100.0;
    }

    /** `_on_canvas_configure`: refit when at the fit zoom, otherwise keep the view. */
    method OnCanvasConfigure(canvasW: int, canvasH: int)
      requires Valid()
      modifies this`fitZoomFactor, this`zoomFactor, this`zoomMin, this`zoomMax, this`hasZoomBounds,
               this`imageX, this`imageY, this`zoomScrollbarValue
      ensures Valid() && dm == old(dm)
      ensures State() == old(State()).(view := Configure(old(View()), imageWidth, imageHeight, canvasW, canvasH),
                                       zoomScrollbar :=
                                         if Abs(old(zoomFactor) - old(fitZoomFactor)) < RefitTolerance &&
                                            canvasW > 1 && canvasH > 1
                                         then ZoomMinMult * 100.0 else old(zoomScrollbarValue))
    {
      if Abs(zoomFactor - fitZoomFactor) < RefitTolerance {
        FitImageToCanvas(canvasW, canvasH);
      }
    }

    /** `_update_zoom_scrollbar`: the scrollbar shows the zoom as a clamped percentage of the fit zoom. */
    method UpdateZoomScrollbar()
      requires Valid()
      modifies this`zoomScrollbarValue
      ensures Valid() && dm == old(dm)
      ensures State() == old(State()).(zoomScrollbar := Percent(zoomFactor, fitZoomFactor))
    {
      var zoomPercent := (zoomFactor / fitZoomFactor) * 100.0;
      zoomScrollbarValue := Clamp(zoomPercent, ZoomMinMult * 100.0, ZoomMaxMult * 100.0);
    }

    /**
     * `_on_mousewheel` at canvas point (x, y): a wheel step anchored at
     * the cursor; the scrollbar follows unless the step was dropped.
     */
    method OnMousewheel(canvasW: int, canvasH: int, x: real, y: real, delta: int, num: int)
      requires Valid() && hasZoomBounds
      modifies this`zoomFactor, this`imageX, this`imageY, this`zoomScrollbarValue
      ensures Valid() && dm == old(dm)
      ensures var zoomIn := ZoomIn(delta, num);
              var r := Wheel(old(View()), canvasW, canvasH, x, y, zoomIn);
              State() == old(State()).(view := r,
                                       zoomScrollbar := if r == old(View()) then old(zoomScrollbarValue)
                                                        else Percent(r.zoom, r.fit))
    {
      var v := View();
      var zoomIn := ZoomIn(delta, num);
      var newZoom := WheelTarget(v, zoomIn);
      if Abs(newZoom - v.zoom) < ZoomEpsilon {
        WheelNoOp(v, canvasW, canvasH, x, y, zoomIn);
        return;
      }
      var zoomRatio := newZoom / v.zoom;
      WheelStep(v, canvasW, canvasH, x, y, zoomIn, newZoom, zoomRatio);
      zoomFactor := newZoom;
      imageX := AnchoredOffset(x, canvasW, v.imageX, zoomRatio);
      imageY := AnchoredOffset(y, canvasH, v.imageY, zoomRatio);
      UpdateZoomScrollbar();
    }

    /** `_on_pan_start`: button 1 pressed at (x, y). */
    method OnPanStart(x: int, y: int)
      requires Valid()
      modifies this`isPanning, this`panStartX, this`panStartY
      ensures Valid() && dm == old(dm)
      ensures State() == old(State()).(drag := Viewport.Drag(true, x, y))
    {
      isPanning := true;
      panStartX := x;
      panStartY := y;
    }

    /** `_on_pan_motion`: while dragging, the image follows the pointer. */
    method OnPanMotion(x: int, y: int)
      requires Valid()
      modifies this`imageX, this`imageY, this`panStartX, this`panStartY
      ensures Valid() && dm == old(dm)
      ensures var r := PanMotion(old(View()), old(Drag()), x, y);
              State() == old(State()).(view := r.0, drag := r.1)
    {
      if isPanning {
        var dx := x - panStartX;
        var dy := y - panStartY;
        imageX := imageX + dx as real;
        imageY := imageY + dy as real;
        panStartX := x;
        panStartY := y;
      }
    }

    /** `_on_pan_end`: button 1 released. */
    method OnPanEnd()
      requires Valid()
      modifies this`isPanning
      ensures Valid() && dm == old(dm)
      ensures State() == old(State()).(drag := old(Drag()).(panning := false))
    {
      isPanning := false;
    }

    /** `_reset_zoom` (double click): refit, and the scrollbar shows the resulting zoom. */
    method ResetZoom(canvasW: int, canvasH: int)
      requires Valid()
      modifies this`fitZoomFactor, this`zoomFactor, this`zoomMin, this`zoomMax, this`hasZoomBounds,
               this`imageX, this`imageY, this`zoomScrollbarValue
      ensures Valid() && dm == old(dm)
      ensures var r := Fit(old(View()), imageWidth, imageHeight, canvasW, canvasH);
              State() == old(State()).(view := r, zoomScrollbar := Percent(r.zoom, r.fit))
    {
      FitImageToCanvas(canvasW, canvasH);
      UpdateZoomScrollbar();
    }

    /**
     * `on_zoom_scrollbar`: the scrollbar, moved to `percent` within its own
     * range, sets the zoom to that percentage of the fit zoom.
     */
    method OnZoomScrollbar(percent: real)
      requires Valid()
      requires ZoomMinMult * 100.0 <= percent <= ZoomMaxMult * 100.0
      modifies this`zoomFactor, this`imageX, this`imageY, this`zoomScrollbarValue
      ensures Valid() && dm == old(dm)
      ensures State() == old(State()).(view := Scroll(old(View()), percent), zoomScrollbar := percent)
    {
      zoomScrollbarValue := percent;
      var v := View();
      var newZoom := ScrollZoom(v, percent);
      ScrollZoomInRange(v, percent);
      if Abs(newZoom - v.zoom) > ZoomEpsilon {
        zoomFactor := newZoom;
        if v.zoom != 0.0 {
          var zoomRatio := newZoom / v.zoom;
          imageX := ScaleOffset(v.imageX, zoomRatio);
          imageY := ScaleOffset(v.imageY, zoomRatio);
        }
      }
    }

    /** `next_image`: the following image, wrapping round; nothing is saved. */
    method NextImage(imageW: int, imageH: int, canvasW: int, canvasH: int)
      requires Valid() && imageW > 0 && imageH > 0
      modifies this, dm`currentIndex
      ensures Valid() && dm == old(dm)
      ensures dm.currentIndex == Next(old(dm.currentIndex), |dm.imageFiles|)
      ensures State() == LoadedScreen(old(State()), dm, imageW, imageH, canvasW, canvasH)
    {
      dm.currentIndex := (dm.currentIndex + 1) % |dm.imageFiles|;
      LoadImage(imageW, imageH, canvasW, canvasH);
    }

    /** `previous_image`: the preceding image, wrapping round; nothing is saved. */
    method PreviousImage(imageW: int, imageH: int, canvasW: int, canvasH: int)
      requires Valid() && imageW > 0 && imageH > 0
      modifies this, dm`currentIndex
      ensures Valid() && dm == old(dm)
      ensures dm.currentIndex == Prev(old(dm.currentIndex), |dm.imageFiles|)
      ensures State() == LoadedScreen(old(State()), dm, imageW, imageH, canvasW, canvasH)
    {
      dm.currentIndex := (dm.currentIndex - 1) % |dm.imageFiles|;
      LoadImage(imageW, imageH, canvasW, canvasH);
    }

    /**
     * `on_scale_move`: the slider's value picks an image, clamped into the
     * list; the image is loaded only when the index changes.
     */
    method OnScaleMove(value: real, imageW: int, imageH: int, canvasW: int, canvasH: int)
      requires Valid() && imageW > 0 && imageH > 0
      modifies this, dm`currentIndex
      ensures Valid() && dm == old(dm)
      ensures var idx := SliderIndex(value, |dm.imageFiles|);
              if idx == old(dm.currentIndex) then
                dm.currentIndex == old(dm.currentIndex) && State() == old(State())
              else
                dm.currentIndex == idx && State() == LoadedScreen(old(State()), dm, imageW, imageH, canvasW, canvasH)
    {
      var idx := Truncate(value) - 1;
      idx := if idx < |dm.imageFiles| - 1 then idx else |dm.imageFiles| - 1;
      idx := if 0 < idx then idx else 0;
      if idx != dm.currentIndex {
        dm.currentIndex := idx;
        LoadImage(imageW, imageH, canvasW, canvasH);
      }
    }

    /**
     * `on_index_entry`: Enter in the entry box. Text that reads as a number
     * in 1..n jumps to that image and reloads; any other number changes
     * nothing, and the handler's "break" keeps the window's own Return
     * binding from running. Text that is no number makes `IntVar.get` raise
     * a TclError the handler does not catch, so no "break" is returned and
     * the window's Return binding runs `next_image`.
     */
    method OnIndexEntry(entry: EntryText, imageW: int, imageH: int, canvasW: int, canvasH: int)
      requires Valid() && imageW > 0 && imageH > 0
      modifies this, dm`currentIndex
      ensures Valid() && dm == old(dm)
      ensures var val := IntVarGet(entry);
              if val.None? then
                dm.currentIndex == Next(old(dm.currentIndex), |dm.imageFiles|) &&
                State() == LoadedScreen(old(State()), dm, imageW, imageH, canvasW, canvasH)
              else
                var target := EntryTarget(val.value, |dm.imageFiles|);
                if target.None? then
                  dm.currentIndex == old(dm.currentIndex) && State() == old(State())
                else
                  dm.currentIndex == target.value &&
                  State() == LoadedScreen(old(State()), dm, imageW, imageH, canvasW, canvasH)
    {
      var val := IntVarGet(entry);
      if val.None? {
        NextImage(imageW, imageH, canvasW, canvasH);
        return;
      }
      var idx := val.value - 1;
      if 0 <= idx < |dm.imageFiles| {
        dm.currentIndex := idx;
        LoadImage(imageW, imageH, canvasW, canvasH);
      }
    }

    /** `save_current_annotation`: the description and the selected labels become the current record. */
    method SaveCurrentAnnotation()
      requires Valid()
      modifies dm`annotations, dm`metaFile
      ensures Valid() && SavedOver(old(dm.annotations))
      ensures DescriptionOf(dm.CurrentAnnotation()) == description && LabelsOf(dm.CurrentAnnotation()) == selectedLabels
    {
      var labels := ListOfSet(selectedLabels);
      var annotation := RecordJson(description, labels);
      RecordRoundTrip(description, labels);
      dm.SetCurrentAnnotation(annotation);
    }

    /** `toggle_label`: flips one label and saves. */
    method ToggleLabel(name: string)
      requires Valid()
      modifies this`selectedLabels, dm`annotations, dm`metaFile
      ensures Valid() && dm == old(dm) && SavedOver(old(dm.annotations))
      ensures State() == old(State()).(selected := Toggle(old(selectedLabels), name))
    {
      if name in selectedLabels {
        selectedLabels := selectedLabels - {name};
      } else {
        selectedLabels := selectedLabels + {name};
      }
      SaveCurrentAnnotation();
    }

    /**
     * `_on_label_key_press`: with the focus outside the description entry,
     * a key in the key map toggles its label; any other key does nothing.
     */
    method OnLabelKeyPress(keysym: string, entryHasFocus: bool)
      requires Valid()
      modifies this`selectedLabels, dm`annotations, dm`metaFile
      ensures Valid() && dm == old(dm)
      ensures var found := Lookup(old(labelKeyMap), keysym);
              if entryHasFocus || found.None? then
                State() == old(State()) && dm.annotations == old(dm.annotations) && dm.metaFile == old(dm.metaFile)
              else
                State() == old(State()).(selected := Toggle(old(selectedLabels), found.value.0)) &&
                SavedOver(old(dm.annotations))
    {
      if entryHasFocus {
        return;
      }
      var key := Lower(keysym);
      if key in labelKeyMap {
        var entry := labelKeyMap[key];
        ToggleLabel(entry.0);
      }
    }

    /** `append_desc_option`: an option button appends its text and the separator, then saves. */
    method AppendDescOption(option: string, separator: string)
      requires Valid()
      modifies this`description, dm`annotations, dm`metaFile
      ensures Valid() && dm == old(dm) && SavedOver(old(dm.annotations))
      ensures State() == old(State()).(description := AppendOption(old(description), option, separator))
    {
      var current := description;
      description := current + option + separator;
      SaveCurrentAnnotation();
    }

    /** The description entry's key-release binding: the typed text is saved as it stands. */
    method EditDescription(text: string)
      requires Valid()
      modifies this`description, dm`annotations, dm`metaFile
      ensures Valid() && dm == old(dm) && SavedOver(old(dm.annotations))
      ensures State() == old(State()).(description := text)
    {
      description := text;
      SaveCurrentAnnotation();
    }

    /** `_on_close`: saves the current record, then the store with the index. */
    method OnClose()
      requires Valid()
      modifies dm`annotations, dm`metaFile
      ensures Valid() && SavedOver(old(dm.annotations))
    {
      SaveCurrentAnnotation();
      dm.SaveAnnotations();
    }
  }
}
