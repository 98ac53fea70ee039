/**
 * The annotation store of one data folder (class DataManager): the image
 * list, the annotation records keyed by file name, the index of the image
 * in view, and the file annotations.json that keeps them between sessions.
 *
 * The folder listing and the parsed content of annotations.json are inputs;
 * the file itself is the field `metaFile` (None while it does not exist),
 * so that "nothing is written yet" and "what was saved" can be stated.
 */
module Store {
  import opened Builtins
  import opened JsonValue
  import opened Wrappers
  import ImageList

  /** The record the store creates for an image it has never seen. */
  const EmptyRecord: Json := Obj(map["description" := Str(""), "labels" := Arr([])])

  /** One empty record per image file. */
  function EmptyRecords(files: seq<string>): (r: map<string, Json>)
    ensures forall f :: f in r <==> f in files
    ensures forall f :: f in r ==> r[f] == EmptyRecord
  {
    map f | f in files :: EmptyRecord
  }

  /** The document save_annotations writes: the current file shape. */
  function Encode(lastIndex: int, annotations: map<string, Json>): (data: Json)
    ensures IsCurrentFormat(data) && Loadable(data)
    ensures data.fields.Keys == {"last_index", "annotations"}
  {
    Obj(map["last_index" := Int(lastIndex), "annotations" := Obj(annotations)])
  }

  /** load_data reads a document as the current shape when it is an object with key "annotations". */
  predicate IsCurrentFormat(data: Json) {
    data.Obj? && "annotations" in data.fields
  }

  /**
   * The documents the tool can go on with after loading: the annotations
   * must be an object and "last_index", when present, an integer; with any
   * other shape the first lookup of the current image or its record raises.
   */
  predicate Loadable(data: Json) {
    data.Obj? &&
    (IsCurrentFormat(data) ==>
      data.fields["annotations"].Obj? && Get(data.fields, "last_index", Int(0)).Int?)
  }

  /** The annotations and the index load_data takes from an existing file. */
  datatype Loaded = Loaded(annotations: map<string, Json>, lastIndex: int)

  /** The two branches of load_data for an existing annotation file. */
  function Interpret(data: Json): (r: Loaded)
    requires Loadable(data)
    ensures IsCurrentFormat(data) ==>
              data.fields["annotations"] == Obj(r.annotations) &&
              ("last_index" in data.fields ==> data.fields["last_index"] == Int(r.lastIndex)) &&
              ("last_index" !in data.fields ==> r.lastIndex == 0)
    ensures !IsCurrentFormat(data) ==> r == Loaded(data.fields, 0)
  {
    if IsCurrentFormat(data) then
      Loaded(data.fields["annotations"].fields, Get(data.fields, "last_index", Int(0)).i)
    else
      Loaded(data.fields, 0)
  }

  /** Saving and loading again gives back the same annotations and index, whatever the index. */
  lemma SaveThenLoad(lastIndex: int, annotations: map<string, Json>)
    ensures Loadable(Encode(lastIndex, annotations))
    ensures Interpret(Encode(lastIndex, annotations)) == Loaded(annotations, lastIndex)
  {
  }

  /** A current-shape file without "last_index" resumes at the first image. */
  lemma MissingLastIndex(annotations: map<string, Json>)
    ensures Interpret(Obj(map["annotations" := Obj(annotations)])) == Loaded(annotations, 0)
  {
  }

  /**
   * A legacy map M and the current shape {"annotations": M} load the same,
   * as long as M has no key "annotations".
   */
  lemma LegacyEquivalence(m: map<string, Json>)
    requires "annotations" !in m
    ensures Loadable(Obj(m)) && Loadable(Obj(map["annotations" := Obj(m)]))
    ensures Interpret(Obj(m)) == Interpret(Obj(map["annotations" := Obj(m)]))
    ensures Interpret(Obj(m)) == Loaded(m, 0)
  {
  }

  /** Loading a legacy file and saving it writes the current shape with index 0 and M unchanged. */
  lemma LegacyUpgrade(m: map<string, Json>)
    requires "annotations" !in m
    ensures var loaded := Interpret(Obj(m));
            Encode(loaded.lastIndex, loaded.annotations) == Obj(map["last_index" := Int(0), "annotations" := Obj(m)])
  {
  }

  /**
   * A legacy map that happens to hold an image named "annotations" is read
   * as the current shape: the other images' records are dropped.
   */
  lemma LegacyKeyMisread()
    ensures var rec := Obj(map["description" := Str("x"), "labels" := Arr([Str("cat")])]);
            var legacy := Obj(map["annotations" := Obj(map[]), "a.png" := rec]);
            Loadable(legacy) && Interpret(legacy).annotations == map[] &&
            Interpret(legacy).annotations != legacy.fields - {"annotations"}
  {
    var rec := Obj(map["description" := Str("x"), "labels" := Arr([Str("cat")])]);
    var legacy := Obj(map["annotations" := Obj(map[]), "a.png" := rec]);
    assert "a.png" in legacy.fields - {"annotations"};
  }

  class DataManager {
    var imageFiles: seq<string>
    var annotations: map<string, Json>
    var currentIndex: int
    /** The content of annotations.json; None while the file does not exist. */
    var metaFile: Option<Json>

    /** The image in view (`get_current_image`, without the folder prefix). */
    function CurrentImage(): (name: string)
      reads this
      requires ValidIndex(currentIndex, |imageFiles|)
      ensures name in imageFiles
    {
      imageFiles[Position(currentIndex, |imageFiles|)]
    }

    /** `get_current_annotation`: the stored record, or {} when there is none. */
    function CurrentAnnotation(): (a: Json)
      reads this
      requires ValidIndex(currentIndex, |imageFiles|)
      ensures CurrentImage() in annotations ==> a == annotations[CurrentImage()]
      ensures CurrentImage() !in annotations ==> a == Obj(map[])
    {
      Get(annotations, CurrentImage(), Obj(map[]))
    }

    /** Opens the data folder: the image list, then the annotations. Writes nothing. */
    constructor (listing: seq<ImageList.Entry>, metaFile: Option<Json>)
      requires metaFile.Some? ==> Loadable(metaFile.value)
      ensures imageFiles == ImageList.ImageFiles(listing)
      ensures this.metaFile == metaFile
      ensures metaFile.None? ==> annotations == EmptyRecords(imageFiles) && currentIndex == 0
      ensures metaFile.Some? ==> Loaded(annotations, currentIndex) == Interpret(metaFile.value)
    {
      imageFiles := [];
      annotations := map[];
      currentIndex := 0;
      this.metaFile := metaFile;
      new;
      LoadData(listing);
    }

    /** `load_data`: builds the image list and reads annotations.json, or starts empty records. */
    method LoadData(listing: seq<ImageList.Entry>)
      requires metaFile.Some? ==> Loadable(metaFile.value)
      modifies this`imageFiles, this`annotations, this`currentIndex
      ensures imageFiles == ImageList.ImageFiles(listing)
      ensures metaFile.None? ==>
                annotations == EmptyRecords(imageFiles) && currentIndex == old(currentIndex)
      ensures metaFile.Some? ==> Loaded(annotations, currentIndex) == Interpret(metaFile.value)
    {
      imageFiles := ImageList.ImageFiles(listing);
      if metaFile.None? {
        InitializeDataset();
      } else {
        var data := metaFile.value;
        if data.Obj? && "annotations" in data.fields {
          annotations := data.fields["annotations"].fields;
          currentIndex := Get(data.fields, "last_index", Int(0)).i;
        } else {
          annotations := data.fields;
          currentIndex := 0;
        }
      }
    }

    /** `_initialize_dataset`: one empty record per image. */
    method InitializeDataset()
      modifies this`annotations
      ensures annotations == EmptyRecords(imageFiles)
    {
      annotations := map[];
      var i := 0;
      while i < |imageFiles|
        invariant 0 <= i <= |imageFiles|
        invariant annotations == EmptyRecords(imageFiles[..i])
      {
        assert imageFiles[..i + 1] == imageFiles[..i] + [imageFiles[i]];
        annotations := annotations[imageFiles[i] := EmptyRecord];
        i := i + 1;
      }
      assert imageFiles[..i] == imageFiles;
    }

    /** `set_current_annotation`: replaces the current image's record, then saves. */
    method SetCurrentAnnotation(annotation: Json)
      requires ValidIndex(currentIndex, |imageFiles|)
      modifies this`annotations, this`metaFile
      ensures annotations == old(annotations)[CurrentImage() := annotation]
      ensures metaFile == Some(Encode(currentIndex, annotations))
    {
      var name := imageFiles[Position(currentIndex, |imageFiles|)];
      annotations := annotations[name := annotation];
      SaveAnnotations();
    }

    /** `save_annotations`: always writes the current shape. */
    method SaveAnnotations()
      modifies this`metaFile
      ensures metaFile == Some(Encode(currentIndex, annotations))
    {
      metaFile := Some(Encode(currentIndex, annotations));
    }
  }

  /** What a fresh DataManager reads back from the file another one saved. */
  method ReopenAfterSave(listing: seq<ImageList.Entry>, dm: DataManager) returns (again: DataManager)
    requires dm.metaFile.Some? && dm.metaFile.value == Encode(dm.currentIndex, dm.annotations)
    ensures again.annotations == dm.annotations && again.currentIndex == dm.currentIndex
    ensures again.imageFiles == ImageList.ImageFiles(listing)
  {
    SaveThenLoad(dm.currentIndex, dm.annotations);
    again := new DataManager(listing, dm.metaFile);
  }
}
