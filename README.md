# ImageLabeller core in Dafny

ImageLabeller is a desktop tool for annotating the images of one folder.
It shows one image at a time. For each image it keeps a free-text description
and a set of labels. Both are stored in `annotations.json` in the same folder,
together with the index of the image last viewed.

This project models two parts of the tool:

- **The annotation store** (`DataManager`, module `Store`). It builds the image
  list: the image files of the folder, sorted by modification time (module
  `ImageList`). It also reads `annotations.json` in its current shape
  `{"last_index", "annotations"}` or in the legacy shape (a bare map of records).
  It creates empty records for a fresh folder, replaces the record of the
  current image, and writes the file back.
- **The annotation window's logic** (`AnnotationUI`, module `Session`), with the
  widgets taken out. It covers what each event handler does to the window's
  fields and to the store:
  - loading an image;
  - fit-to-canvas zoom, cursor-anchored wheel zoom and the zoom scrollbar
    (module `Viewport`);
  - drag panning;
  - navigation by the next/previous keys, the slider and the index entry;
  - the shortcut-key map, label toggling, description options, saving and
    closing (module `Labels`).

Python's semantics are written out where they matter:
- negative list indexes (`Builtins.ValidIndex`, `Builtins.Position`);
- `%` by a positive length, which Dafny's `%` matches;
- `int(float)` truncating toward zero (`Builtins.Truncate`);
- floor division `//` in the wheel handler's centre;
- `str.lower`, which the model applies to A-Z only (`Builtins.Lower`);
- `str.strip` over Python's full set of whitespace characters, Unicode spaces included (`Builtins.Strip`);
- `IntVar.get`, which truncates a decimal and raises on text that is not a number (`Session.IntVarGet`).

Floating-point zoom and offsets are modelled as real numbers.

The proved properties include:
- saving then loading gives back the annotations and the index;
- the legacy and current file shapes agree (with the one exception where they
  do not);
- the image order is the unique stable sort by modification time;
- the key map leads each key to the last entry that binds it;
- a saved record reads back as the description and labels on screen;
- next and previous undo each other;
- a wheel step keeps the image point under the cursor fixed and never leaves
  the zoom bounds;
- a wheel step in and then out restores the view;
- the scrollbar zoom keeps the point at the canvas centre and round-trips
  through the percentage shown;
- a drag moves the image by the pointer's total displacement.

Where the tool's documented behaviour and its code disagree, the model follows
the code:
- The index entry ignores a number outside `1..n`. It does not clamp it.
- A decimal typed in the index entry is truncated, so 2.5 goes to the second
  image. Text that is not a number raises a `TclError` that `on_index_entry`
  does not catch. The key event then reaches the window's own Enter binding
  (main.py:268), which shows the next image.
- `last_index` is used as stored. It is not clamped into the list, and a
  negative value counts from the end as Python indexing does.
- Moving between images does not save the record. Records are saved by the
  label, description and option handlers and on closing.
- A missing record reads as `{}`. No record is created for it.
- An empty image list raises no dedicated error. The model requires a
  non-empty list.
- A wheel step is dropped when the zoom changes by less than 1e-6. A scrollbar
  move must change it by more than 1e-6.
- The wheel takes the image centre at `canvas_width // 2`. The drawing code
  uses `/ 2`.

## Model

| member | source | states |
|---|---|---|
| Builtins.Truncate | main.py:561 | `int(float(v))` truncates toward zero: below v by less than one for v >= 0, above it by less than one for v < 0 |
| Builtins.Position | data_manager.py:43 | a Python-valid index, negative or not, reads a position inside the list |
| Builtins.Lower | main.py:140 | lower-casing keeps the length and maps each character on its own: A-Z to a-z, anything else to itself |
| Builtins.TrimLeft | main.py:139 | the left strip is no longer than the key and starts with a non-space, if anything is left |
| Builtins.TrimRight | main.py:139 | the right strip is no longer than the key and ends with a non-space, if anything is left |
| Builtins.Strip | main.py:139 | `str.strip` is no longer than the key and neither starts nor ends with whitespace |
| Builtins.TrimLeftDropsLeadingSpaces | main.py:139 | stripping on the left removes exactly the leading whitespace: the rest is a suffix that starts with a non-space |
| Builtins.TrimRightDropsTrailingSpaces | main.py:139 | stripping on the right removes exactly the trailing whitespace |
| Builtins.StripKeepsMiddle | main.py:139 | `strip` leaves a contiguous part of the key with no whitespace at either end |
| ImageList.ImageNameIgnoresCase | data_manager.py:17 | the extension test lower-cases the name first, so a name and its lower-cased form are both image names or neither |
| ImageList.ImageEntries | data_manager.py:16-17 | the filter keeps at most the listed entries |
| ImageList.InImageEntries | data_manager.py:16-17 | an entry survives the filter exactly when it is listed and its lower-cased name ends in one of the six image extensions |
| ImageList.Insert | data_manager.py:18 | one insertion step adds exactly the new entry (as a multiset) and starts with it or with the old first entry |
| ImageList.SortByMtime | data_manager.py:18 | the sort returns a permutation of its input, ordered by modification time |
| ImageList.InsertSorted | data_manager.py:18 | inserting into a time-ordered list keeps it time-ordered |
| ImageList.InsertStable | data_manager.py:18 | insertion puts the new entry after the entries with its modification time and leaves every other time class as it was |
| ImageList.SortStable | data_manager.py:18 | the sort is stable: every time class keeps its listing order |
| ImageList.StableSortUnique | data_manager.py:18 | two time-ordered lists with the same time classes are equal |
| ImageList.FilterCommutes | data_manager.py:16-18 | filtering by extension and selecting one time class can be done in either order |
| ImageList.ImageOrder | data_manager.py:16-18 | the image list is a stable sort by modification time of the image entries, holds exactly the listed image files, and keeps the listing order within each time |
| ImageList.AnyStableSortAgrees | data_manager.py:18 | any stable sort of the image entries by modification time gives this model's order |
| ImageList.ImageFileNames | data_manager.py:16-18 | a name is in `image_files` exactly when it is a listed file with an image extension |
| ImageList.Names | data_manager.py:18 | `image_files` holds the names of the sorted entries, position by position |
| ImageList.ImageFiles | data_manager.py:16-18 | `image_files` has no more names than the folder lists |
| Store.EmptyRecords | data_manager.py:37-40 | there is a record exactly for each image file, and each is the empty record |
| Store.Encode | data_manager.py:56-59 | the written document has exactly the keys `last_index` and `annotations`, and `load_data` reads it as the current shape |
| Store.Interpret | data_manager.py:25-32 | a document with key "annotations" gives its annotations and its `last_index`, or 0 without one; any other object is a legacy map read whole with index 0 |
| Store.SaveThenLoad | data_manager.py:25-28 | loading what `save_annotations` wrote gives back the same annotations and `last_index`, for any index |
| Store.MissingLastIndex | data_manager.py:28 | a current-shape file without `last_index` resumes at index 0 |
| Store.LegacyEquivalence | data_manager.py:25-32 | a legacy map M with no key "annotations" loads like `{"annotations": M}`, as M with index 0 |
| Store.LegacyUpgrade | data_manager.py:29-32 | loading a legacy map and saving it writes the current shape with `last_index` 0 and the records unchanged |
| Store.LegacyKeyMisread | data_manager.py:25-27 | a legacy map that holds an image named "annotations" is read as the current shape, and the other records are lost |
| Store.DataManager.CurrentImage | data_manager.py:42-43 | the current image is a member of the image list |
| Store.DataManager.CurrentAnnotation | data_manager.py:45-47 | the current image's stored record, or `{}` when it has none |
| Store.DataManager.constructor | data_manager.py:6-12 | opening a folder gives the filtered, sorted image list; without a file, empty records and index 0; with one, what the file says; nothing is written |
| Store.DataManager.LoadData | data_manager.py:14-32 | the image list is rebuilt; a missing file gives empty records and keeps the current index, an existing one gives the annotations and index it holds |
| Store.DataManager.InitializeDataset | data_manager.py:34-40 | the annotations become exactly one empty record per image file |
| Store.DataManager.SetCurrentAnnotation | data_manager.py:49-52 | only the current image's record is replaced, and the file then holds the store and the index |
| Store.DataManager.SaveAnnotations | data_manager.py:54-61 | the file holds the current shape with the annotations and the current index |
| Store.ReopenAfterSave | data_manager.py:6-12 | a store reopened on a saved file has the saved annotations and index |
| Labels.Flatten | main.py:119-122 | every entry of every group is in the flattened list, and nothing else is |
| Labels.Shortcut | main.py:139-140 | an entry has a shortcut exactly when its key strips to one character; the shortcut is the whole key lower-cased, spaces kept |
| Labels.KeyMapBy | main.py:119-140 | every key in the map leads to one of the entries, and that entry's shortcut is the key |
| Labels.KeyMapOf | main.py:119-140 | every key in `label_key_map` leads to a configured entry that binds that key |
| Labels.RegisterOne | main.py:139-140 | proof step for RegisterGroup: one inner-loop pass stores the entry under its lower-cased key when the key strips to one character, and otherwise leaves the map as it was |
| Labels.LastKeyed | main.py:119-140 | the position of the last entry registered under a key, or -1 |
| Labels.LastKeyedIsLast | main.py:119-140 | LastKeyed is -1 exactly when no entry registers under the key; otherwise no later entry registers under it |
| Labels.KeyMapLeadsToLastKeyed | main.py:119-140 | the key map holds a key exactly when some entry registers under it, and leads to the last such entry |
| Labels.KeyMapSnoc | main.py:139-140 | proof step for RegisterOne: registering one more entry sets its key, if it registers, and changes nothing else |
| Labels.BuildKeyMap | main.py:119-140 | the nested loop builds the key map of the flattened groups |
| Labels.RegisterGroup | main.py:122-140 | one group's loop extends the key map of the entries before it by the group's entries |
| Labels.Lookup | main.py:503-505 | a key press finds an entry exactly when its lower-cased keysym is in the map, and finds that entry |
| Labels.LookupFindsLastBinding | main.py:119-140 | a key press finds a label exactly when some configured entry binds the keysym, and finds the last such entry |
| Labels.UpperCaseShortcut | main.py:140 | Lookup finds a shortcut written "C" for keysym c and for keysym C |
| Labels.PaddedShortcutNotBound | main.py:139-140 | a shortcut written "c " registers, under "c ", so pressing c finds nothing |
| Labels.Toggle | main.py:466-471 | the toggled label flips between selected and not selected, and no other label changes |
| Labels.ToggleTwice | main.py:464-473 | toggling the same label twice restores the selection |
| Labels.AppendOption | main.py:553-555 | the new text is the old text, then the option, then the separator |
| Labels.AppendOptionsJoins | main.py:548-556 | a run of option presses keeps the typed text and appends every option with its separator, in order |
| Labels.RecordJson | main.py:509-512 | the saved record has exactly the keys "description" and "labels", the description as typed, and one label item per listed label |
| Labels.StrItems | main.py:511 | the label list becomes a JSON list of the same strings, in the same order |
| Labels.DescriptionOf | main.py:331 | the stored description, or "" when the record has none |
| Labels.LabelsOf | main.py:333 | the set of the stored label strings, or the empty set when the record has none |
| Labels.RecordRoundTrip | main.py:508-513 | a saved record is readable and reads back as the same description and the set of the listed labels |
| Labels.EmptyRecordsReadEmpty | data_manager.py:37-40 | a fresh record and a missing one both read as no description and no labels |
| Labels.RecordOfReadsBack | main.py:508-513 | whatever order the labels were listed in, the record reads back as the description and the selection |
| Labels.ListOfSet | main.py:511 | `list(selected_labels)` lists every selected label exactly once |
| Viewport.Clamp | main.py:381 | `max(min(v, hi), lo)` lies in [lo, hi] when lo <= hi, and is v when v does |
| Viewport.FitZoom | main.py:348 | the fit zoom is positive |
| Viewport.FitZoomFits | main.py:348 | at the fit zoom the image fits both canvas sides and fills one of them |
| Viewport.Fit | main.py:338-358 | on a measured canvas the zoom, the fit zoom and the bounds' lower end are the fit zoom, the bounds enclose the zoom, and the offsets are 0; on a canvas of one pixel or less nothing changes |
| Viewport.FitExample | main.py:348-352 | an 800x600 image on a 400x300 canvas is shown at 0.5, with bounds 0.5 and 2.5 |
| Viewport.ForNewImage | main.py:297-303 | a new image starts unshifted, at the fit zoom on a measured canvas and at 1.0 otherwise |
| Viewport.FitShowsHundredPercent | main.py:356-358 | a freshly fitted view is 100% on the scrollbar |
| Viewport.Configure | main.py:360-365 | a resize keeps the zoom state consistent |
| Viewport.ConfigureRefitsOnlyAtFit | main.py:363-364 | a resize refits a view within 1e-3 of the fit zoom and leaves a zoomed view unchanged |
| Viewport.ZoomIn | main.py:373-376 | a positive delta zooms in and a negative one out; with no delta, button 4 zooms in and any other button out |
| Viewport.StepFactor | main.py:380 | a wheel step multiplies the zoom by a positive factor |
| Viewport.WheelTarget | main.py:379-381 | the wheel's target zoom lies in the bounds, and is the zoom times the step factor when that product does |
| Viewport.AnchoredOffset | main.py:395-400 | after the offset update, the cursor's distance from the image centre is its old distance times the zoom ratio |
| Viewport.Wheel | main.py:379-400 | a wheel step leaves the view unchanged, or sets the clamped target zoom inside the bounds; the fit zoom never changes |
| Viewport.WheelNoOp | main.py:381-385 | a wheel step does nothing exactly when the clamped zoom moves by less than 1e-6 |
| Viewport.WheelStep | main.py:388-400 | proof step for WheelUnclamped and AnnotationUI.OnMousewheel: a step that is not dropped sets the clamped zoom and moves both offsets by the cursor-anchored formula |
| Viewport.AnchorAxis | main.py:395-400 | on one axis, the cursor's distance from the image centre in image pixels is the same after the step |
| Viewport.WheelKeepsCursorPoint | main.py:393-400 | the image point under the cursor stays under the cursor |
| Viewport.Wheels | main.py:367-406 | any run of wheel events keeps the zoom state consistent and the fit zoom unchanged |
| Viewport.WheelsStayInBounds | main.py:381 | no run of wheel events takes an in-range zoom outside [zoom_min, zoom_max] |
| Viewport.WheelUnclamped | main.py:380-400 | a step whose target lies inside the bounds multiplies the zoom by the step factor |
| Viewport.AnchorInThenOut | main.py:395-400 | anchoring with ratio 1.2 and then 1/1.2 gives the offset back |
| Viewport.WheelInThenOut | main.py:367-406 | a notch in and a notch out at the same cursor restore the view, when neither step is clamped or dropped |
| Viewport.ScrollZoom | main.py:595-600 | before the first fit the scrollbar asks for percent/100 of the fit zoom; once the bounds exist its zoom lies inside them |
| Viewport.ScaleOffset | main.py:618-627 | the new pan offset is the old one times the zoom ratio |
| Viewport.Scroll | main.py:595-627 | the scrollbar sets the requested zoom when it differs by more than 1e-6, stays within the bounds, and otherwise changes nothing |
| Viewport.ScaleOffsetKeepsPoint | main.py:618-627 | a pan offset scaled by the zoom ratio stands for the same distance in image pixels |
| Viewport.ScrollKeepsCentrePoint | main.py:607-627 | the scrollbar zoom keeps the image point at the canvas centre in place |
| Viewport.ScrollZoomInRange | main.py:595-600 | inside the scrollbar's 100..500 range the clamp never bites: the zoom asked for is exactly percent/100 of the fit zoom |
| Viewport.Percent | main.py:665-677 | the reported percentage lies in [100, 500], and is zoom / fit * 100 when the zoom is inside the bounds |
| Viewport.ScrollTargetInRange | main.py:595-596 | a percentage in the scrollbar's 100..500 range asks for a zoom between the fit zoom and five times it |
| Viewport.PercentOfScaled | main.py:669-674 | the percentage of a zoom of `percent`% of the fit zoom is `percent` |
| Viewport.ScrollThenPercent | main.py:582-634 | moving the scrollbar to a percentage and reading the zoom back as a percentage gives that percentage |
| Viewport.Place | main.py:636-663 | the image is drawn only when both truncated sizes are positive; its centre is the canvas centre moved by the pan offset, and its size is the scaled size truncated |
| Viewport.PanMotion | main.py:413-421 | while dragging, the image offset moves by exactly the pointer's step on each axis and the pointer position is remembered; otherwise nothing changes |
| Viewport.DragMovesByTotalDisplacement | main.py:408-421 | a drag moves the image by the displacement from the press point to the last motion point |
| Viewport.MotionWithoutPressIgnored | main.py:413-414 | motion events with no button held change nothing |
| Session.Next | main.py:433 | the next index lies in the list |
| Session.Prev | main.py:437 | the previous index lies in the list |
| Session.NextPrevSteps | main.py:432-438 | inside the list, next and previous step by one and wrap at the ends |
| Session.PrevUndoesNext | main.py:432-438 | next then previous, and previous then next, come back to the same image |
| Session.NextFromShownImage | main.py:432-438 | from a negative stored index, next and previous step from the image actually shown |
| Session.SliderIndex | main.py:558-564 | the slider picks the truncated value made 0-based, clamped into the list |
| Session.IntVarGet | main.py:572 | `index_var.get()` reads an integer as it is, truncates a decimal toward zero, and fails exactly on text that is not a number |
| Session.EntryTarget | main.py:574-577 | the entry jumps exactly when the number is in 1..n, to the number minus one |
| Session.EntryTruncatesDecimals | main.py:572-577 | typing 2.5 goes to the second image, as 2 does; typing -0.5 reads as 0 and goes nowhere |
| Session.SliderAndEntryDiffer | main.py:558-578 | slider and entry agree inside the list; past the end the slider goes to the last image and the entry goes nowhere; before the start the slider goes to the first image |
| Session.EmptyRecordsReadable | data_manager.py:34-40 | every record of a fresh folder is one the window can read |
| Session.StrayEntryReadable | data_manager.py:45-47 | an entry that is not a record, under a name that is not a listed image, still lets the window open, since only listed images' records are read |
| Session.LoadedScreen | main.py:292-336 | a loaded screen has a consistent view with a positive zoom |
| Session.AnnotationUI.constructor | main.py:87-91 | the window opens the store, builds the key map from the label groups, and shows the image at the saved index |
| Session.AnnotationUI.LoadImage | main.py:292-336 | a fresh view fitted to the canvas, the scrollbar at 100% on a measured canvas, the 1-based index, the file name and the current record's description and labels |
| Session.AnnotationUI.ResetView | main.py:297-300 | zoom 1.0 and offsets 0 for the new image, the rest of the view kept |
| Session.AnnotationUI.ShowRecord | main.py:316-333 | the slider and entry show the 1-based index; the file name, description and labels are the current image's |
| Session.AnnotationUI.FitImageToCanvas | main.py:338-358 | the view becomes Fit of the old view, and the scrollbar is 100% exactly when the canvas is measured |
| Session.AnnotationUI.OnCanvasConfigure | main.py:360-365 | the view becomes Configure of the old view; nothing else changes |
| Session.AnnotationUI.UpdateZoomScrollbar | main.py:665-677 | the scrollbar shows Percent of the zoom; nothing else changes |
| Session.AnnotationUI.OnMousewheel | main.py:367-406 | the view becomes Wheel of the old view; the scrollbar follows unless the step was dropped |
| Session.AnnotationUI.OnPanStart | main.py:408-411 | dragging starts at the press point |
| Session.AnnotationUI.OnPanMotion | main.py:413-421 | view and drag become PanMotion of the old ones |
| Session.AnnotationUI.OnPanEnd | main.py:423-424 | dragging stops; the pointer position is kept |
| Session.AnnotationUI.ResetZoom | main.py:426-430 | the view is refitted and the scrollbar shows its percentage |
| Session.AnnotationUI.OnZoomScrollbar | main.py:582-634 | the view becomes Scroll of the old view and the scrollbar shows the percentage it was moved to; nothing else changes |
| Session.AnnotationUI.NextImage | main.py:432-434 | the index becomes Next of the old one and that image is loaded; nothing is saved |
| Session.AnnotationUI.PreviousImage | main.py:436-438 | the index becomes Prev of the old one and that image is loaded; nothing is saved |
| Session.AnnotationUI.OnScaleMove | main.py:558-567 | the image at the slider's index is loaded if it differs from the current one; otherwise nothing changes |
| Session.AnnotationUI.OnIndexEntry | main.py:569-580 | a number in 1..n, decimals truncated, loads that image and any other number changes nothing; text that is not a number goes on to the Enter binding (main.py:268) and shows the next image |
| Session.AnnotationUI.SaveCurrentAnnotation | main.py:508-513 | only the current record is replaced, it reads back as the description and selection on screen, and the file holds the store |
| Session.AnnotationUI.ToggleLabel | main.py:464-473 | the selection is toggled at the label and saved as the current record |
| Session.AnnotationUI.OnLabelKeyPress | main.py:499-506 | with the entry unfocused, a mapped key toggles its label and saves; otherwise neither the window nor the store changes |
| Session.AnnotationUI.AppendDescOption | main.py:548-556 | the description gets the option and separator appended and is saved |
| Session.AnnotationUI.EditDescription | main.py:233 | the typed text becomes the description and is saved |
| Session.AnnotationUI.OnClose | main.py:101-105 | closing saves the current record, then the store with the index |

## Left out

- The widgets are not modelled: the canvas drawing, the image file reading, the log area, the label button colours, and the frames of description-option buttons (main.py:107-290, 445-462, 475-497, 515-546). Image and canvas sizes, pointer positions, key names and widget values are parameters of the handlers.
- Configuration loading and the file and folder dialogs (config.py, main.py:41-86) are not part of this model. The label groups and the folder listing are inputs.
- The JSON text and its parse errors are not modelled. `annotations.json` is modelled as its parsed value, None when the file does not exist. `save_annotations` stores that value.
- Modification times come from the file system. They are part of the listing that is passed in.
- `get_current_image` joins the folder path. Store.DataManager.CurrentImage returns the bare file name.
- Timers are not modelled: the delayed retry of fitting and drawing in `load_image` and `_fit_image_to_canvas` (main.py:305-310, 344-346), and the window activation (main.py:92-99). The model takes the canvas size as the size at the moment of the call.
- `scale.set` and the scrollbar's `set` can call back into `on_scale_move` and `on_zoom_scrollbar` through Tk. This re-entry is not modelled. In particular, with a negative saved index `load_image` sets the slider to `current_index + 1`, which the slider clamps to 1; the callback then moves to the first image. So the state that Session.NextFromShownImage starts from does not last in the running window.
- `undo_last_action` (main.py:441-443) does nothing in the source, so it is not modelled.
- `refresh_label_buttons` and `update_desc_options` only redraw widgets, so they are not modelled.
- Tk's key bindings, which decide which keysyms reach the handlers, are not modelled.
- Floating point is modelled as real numbers. Rounding in the zoom arithmetic is not captured.
- Lower-casing maps A-Z only. Python's `str.lower` also maps non-ASCII letters, which the model leaves unchanged. Whitespace is Python's full `str.isspace` set.
- `list(set)` has no fixed order in Python. Labels.ListOfSet may pick any order, and the record is stated up to that order.
- The entry text is modelled as an integer, a decimal or not a number (`Session.EntryText`). Tcl's number syntax, such as hexadecimal or surrounding spaces, is not modelled.
- Session.AnnotationUI.OnScaleMove: the slider value is a number. The source's `ValueError` path for a value that is not a float is not modelled.
- Store.DataManager.constructor and Store.DataManager.LoadData require a loadable file: the document and its `annotations` must be objects, and `last_index`, if present, an integer. The source raises on its first use of the records or the index for most other shapes, such as a list of records or a string index. JSON `true` and `false` as `last_index` are Python integers 1 and 0 and index the list; the model does not accept them.
- Session.AnnotationUI.constructor requires a non-empty image list and a saved index that Python can use on the list; without them the source raises while loading the first image. It also assumes a well-formed record for every listed image that has one: a string description and a list of string labels (`Labels.RecordLike`). Keys that are not listed images may hold anything. The source is more lenient here. It opens the folder as long as the first record shown is usable, and raises on another image's bad record only when navigation reaches it. It shows a description that is not a string as text, and it accepts any iterable as the labels, such as a string or a list of numbers.
- Session.AnnotationUI.OnMousewheel requires the zoom bounds to exist. Before the first fit the source raises `AttributeError` on `zoom_max`.
- Session.AnnotationUI.OnZoomScrollbar requires a percentage from 100 to 500, the scrollbar's own range. The early return for a value that is not a float is not modelled. The `hasattr` guard on `fit_zoom_factor` and `current_image` never fires once the window is set up, since main.py:146-147 create both attributes. The state before the first fit is modelled by the no-bounds branch of Viewport.ScrollZoom.
- Session.AnnotationUI.OnZoomScrollbar and Session.AnnotationUI.OnMousewheel compute through the Viewport functions. Those functions spell out the source's expressions.
