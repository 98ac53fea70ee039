/**
 * The image list of a data folder: the directory entries whose lower-cased
 * name ends in one of the image extensions, ordered by ascending
 * modification time. Python's `sorted` is stable, so entries with equal
 * times keep the order in which the directory listing gave them; the
 * insertion sort below is proved to be the only result a stable sort can
 * give, so it stands for `sorted` exactly.
 */
module ImageList {
  import opened Builtins

  /** One directory entry: a file name and its modification time. */
  datatype Entry = Entry(name: string, mtime: real)

  const ImageExtensions: seq<string> := [".png", ".jpg", ".jpeg", ".bmp", ".tiff", ".tif"]

  predicate IsImageName(name: string) {
    exists k :: 0 <= k < |ImageExtensions| && EndsWith(Lower(name), ImageExtensions[k])
  }

  /** The extension test ignores case: a name is an image name exactly when its lower-cased form is. */
  lemma ImageNameIgnoresCase(name: string)
    ensures IsImageName(Lower(name)) <==> IsImageName(name)
  {
    LowerIdempotent(name);
  }

  /** The list comprehension that keeps image files, in listing order. */
  function ImageEntries(listing: seq<Entry>): (r: seq<Entry>)
    ensures |r| <= |listing|
  {
    if listing == [] then []
    else (if IsImageName(listing[0].name) then [listing[0]] else []) + ImageEntries(listing[1..])
  }

  /** The entries modified at time t, in their order in s. */
  function WithMtime(s: seq<Entry>, t: real): seq<Entry> {
    if s == [] then [] else (if s[0].mtime == t then [s[0]] else []) + WithMtime(s[1..], t)
  }

  ghost predicate Sorted(s: seq<Entry>) {
    forall i, j :: 0 <= i < j < |s| ==> s[i].mtime <= s[j].mtime
  }

  /** r is what a stable sort by modification time makes of s. */
  ghost predicate IsStableSortOf(r: seq<Entry>, s: seq<Entry>) {
    Sorted(r) && forall t :: WithMtime(r, t) == WithMtime(s, t)
  }

  /** Places e after every entry of s that is not newer than it. */
  function Insert(e: Entry, s: seq<Entry>): (r: seq<Entry>)
    ensures |r| == |s| + 1
    ensures r[0] == e || (s != [] && r[0] == s[0])
    ensures multiset(r) == multiset(s) + multiset{e}
  {
    if s == [] || e.mtime < s[0].mtime then [e] + s
    else
      assert s == [s[0]] + s[1..];
      [s[0]] + Insert(e, s[1..])
  }

  /** `sorted(entries, key=mtime)`. */
  function SortByMtime(s: seq<Entry>): (r: seq<Entry>)
    ensures multiset(r) == multiset(s)
    ensures Sorted(r)
  {
    if s == [] then []
    else
      assert s == s[..|s| - 1] + [s[|s| - 1]];
      InsertSorted(s[|s| - 1], SortByMtime(s[..|s| - 1]));
      Insert(s[|s| - 1], SortByMtime(s[..|s| - 1]))
  }

  lemma {:induction false} InsertSorted(e: Entry, s: seq<Entry>)
    requires Sorted(s)
    ensures Sorted(Insert(e, s))
  {
    if s != [] && s[0].mtime <= e.mtime {
      var rest := Insert(e, s[1..]);
      InsertSorted(e, s[1..]);
      assert s[0].mtime <= rest[0].mtime;
      var r := [s[0]] + rest;
      forall i, j | 0 <= i < j < |r| ensures r[i].mtime <= r[j].mtime {
        if i == 0 {
          assert r[j] == rest[j - 1];
          assert rest[0].mtime <= rest[j - 1].mtime;
        } else {
          assert r[i] == rest[i - 1] && r[j] == rest[j - 1];
        }
      }
    }
  }

  /** The folder's image entries in the order the tool shows them. */
  function SortedImages(listing: seq<Entry>): seq<Entry> {
    SortByMtime(ImageEntries(listing))
  }

  function Names(s: seq<Entry>): (r: seq<string>)
    ensures |r| == |s|
    ensures forall i :: 0 <= i < |s| ==> r[i] == s[i].name
  {
    seq(|s|, i requires 0 <= i < |s| => s[i].name)
  }

  /** `DataManager.image_files` for a folder whose listing is `listing`. */
  function ImageFiles(listing: seq<Entry>): (r: seq<string>)
    ensures |r| <= |listing|
  {
    var s := ImageEntries(listing);
    assert |SortByMtime(s)| == |multiset(SortByMtime(s))| == |s|;
    Names(SortedImages(listing))
  }

  lemma {:induction false} WithMtimeConcat(a: seq<Entry>, b: seq<Entry>, t: real)
    ensures WithMtime(a + b, t) == WithMtime(a, t) + WithMtime(b, t)
  {
    if a == [] {
      assert a + b == b;
    } else {
      var head := if a[0].mtime == t then [a[0]] else [];
      assert (a + b)[0] == a[0] && (a + b)[1..] == a[1..] + b;
      assert WithMtime(a + b, t) == head + WithMtime(a[1..] + b, t);
      WithMtimeConcat(a[1..], b, t);
      assert WithMtime(a, t) == head + WithMtime(a[1..], t);
    }
  }

  lemma {:induction false} InWithMtime(s: seq<Entry>, t: real, e: Entry)
    ensures e in WithMtime(s, t) <==> e in s && e.mtime == t
  {
    if s != [] {
      InWithMtime(s[1..], t, e);
      assert e in s <==> e == s[0] || e in s[1..];
    }
  }

  lemma {:induction false} InImageEntries(listing: seq<Entry>, e: Entry)
    ensures e in ImageEntries(listing) <==> e in listing && IsImageName(e.name)
  {
    if listing != [] {
      InImageEntries(listing[1..], e);
      assert e in listing <==> e == listing[0] || e in listing[1..];
    }
  }

  lemma {:induction false} NoneWithMtime(s: seq<Entry>, t: real)
    requires forall e :: e in s ==> e.mtime != t
    ensures WithMtime(s, t) == []
  {
    if s != [] {
      assert s[0] in s;
      NoneWithMtime(s[1..], t);
    }
  }

  /** Inserting e appends it to its own time class and leaves the others alone. */
  lemma {:induction false} InsertStable(e: Entry, s: seq<Entry>, t: real)
    requires Sorted(s)
    ensures WithMtime(Insert(e, s), t) == WithMtime(s, t) + (if e.mtime == t then [e] else [])
  {
    if s == [] || e.mtime < s[0].mtime {
      WithMtimeConcat([e], s, t);
      if e.mtime == t {
        forall x | x in s ensures x.mtime != t {
          FirstIsOldest(s, x);
        }
        NoneWithMtime(s, t);
      }
    } else {
      InsertStable(e, s[1..], t);
      WithMtimeConcat([s[0]], Insert(e, s[1..]), t);
      assert s == [s[0]] + s[1..];
      WithMtimeConcat([s[0]], s[1..], t);
    }
  }

  /** The insertion sort is stable. */
  lemma {:induction false} SortStable(s: seq<Entry>, t: real)
    ensures WithMtime(SortByMtime(s), t) == WithMtime(s, t)
  {
    if s != [] {
      var init, last := s[..|s| - 1], s[|s| - 1];
      var tail := if last.mtime == t then [last] else [];
      assert WithMtime([last], t) == tail by {
        assert [last][1..] == [];
      }
      calc {
        WithMtime(SortByMtime(s), t);
        { assert SortByMtime(s) == Insert(last, SortByMtime(init)); }
        WithMtime(Insert(last, SortByMtime(init)), t);
        { InsertStable(last, SortByMtime(init), t); }
        WithMtime(SortByMtime(init), t) + tail;
        { SortStable(init, t); }
        WithMtime(init, t) + tail;
        { WithMtimeConcat(init, [last], t); assert s == init + [last]; }
        WithMtime(s, t);
      }
    }
  }

  lemma FirstIsOldest(s: seq<Entry>, x: Entry)
    requires Sorted(s) && x in s
    ensures s[0].mtime <= x.mtime
  {
    var k :| 0 <= k < |s| && s[k] == x;
  }

  /** Two sorted sequences with the same time classes start with the same entry. */
  lemma SameFirst(a: seq<Entry>, b: seq<Entry>)
    requires Sorted(a) && Sorted(b) && a != [] && b != []
    requires WithMtime(a, a[0].mtime) == WithMtime(b, a[0].mtime)
    requires WithMtime(a, b[0].mtime) == WithMtime(b, b[0].mtime)
    ensures a[0] == b[0]
  {
    var m := a[0].mtime;
    InWithMtime(a, m, a[0]);
    InWithMtime(b, m, a[0]);
    FirstIsOldest(b, a[0]);
    InWithMtime(b, b[0].mtime, b[0]);
    InWithMtime(a, b[0].mtime, b[0]);
    FirstIsOldest(a, b[0]);
    assert WithMtime(a, m)[0] == a[0];
    assert WithMtime(b, m)[0] == b[0];
  }

  /** Dropping equal first entries keeps the time classes equal. */
  lemma SameTails(a: seq<Entry>, b: seq<Entry>, t: real)
    requires a != [] && b != [] && a[0] == b[0]
    requires WithMtime(a, t) == WithMtime(b, t)
    ensures WithMtime(a[1..], t) == WithMtime(b[1..], t)
  {
    if a[0].mtime == t {
      assert WithMtime(a[1..], t) == WithMtime(a, t)[1..];
      assert WithMtime(b[1..], t) == WithMtime(b, t)[1..];
    } else {
      assert WithMtime(a, t) == WithMtime(a[1..], t);
      assert WithMtime(b, t) == WithMtime(b[1..], t);
    }
  }

  lemma SortedTail(s: seq<Entry>)
    requires Sorted(s) && s != []
    ensures Sorted(s[1..])
  {
    forall i, j | 0 <= i < j < |s| - 1 ensures s[1..][i].mtime <= s[1..][j].mtime {
      assert s[1..][i] == s[i + 1] && s[1..][j] == s[j + 1];
    }
  }

  lemma NonEmptyClass(s: seq<Entry>)
    requires s != []
    ensures WithMtime(s, s[0].mtime) != []
  {
  }

  /** Two stable sorts of the same entries agree: the sorted order is unique. */
  lemma {:induction false} StableSortUnique(a: seq<Entry>, b: seq<Entry>)
    requires Sorted(a) && Sorted(b)
    requires forall t :: WithMtime(a, t) == WithMtime(b, t)
    ensures a == b
    decreases |a|
  {
    if a != [] {
      NonEmptyClass(a);
      assert WithMtime(b, a[0].mtime) != [];
    }
    if b != [] {
      NonEmptyClass(b);
      assert WithMtime(a, b[0].mtime) != [];
    }
    if a != [] {
      SameFirst(a, b);
      forall t ensures WithMtime(a[1..], t) == WithMtime(b[1..], t) {
        SameTails(a, b, t);
      }
      SortedTail(a);
      SortedTail(b);
      StableSortUnique(a[1..], b[1..]);
      assert a == [a[0]] + a[1..] && b == [b[0]] + b[1..];
    }
  }

  /** Keeping the images and keeping one time class can be done in either order. */
  lemma {:induction false} FilterCommutes(listing: seq<Entry>, t: real)
    ensures WithMtime(ImageEntries(listing), t) == ImageEntries(WithMtime(listing, t))
  {
    if listing != [] {
      var x, rest := listing[0], listing[1..];
      FilterCommutes(rest, t);
      var head := if IsImageName(x.name) then [x] else [];
      WithMtimeConcat(head, ImageEntries(rest), t);
      if x.mtime == t {
        var w := WithMtime(listing, t);
        assert w == [x] + WithMtime(rest, t);
        assert w[0] == x && w[1..] == WithMtime(rest, t);
      } else {
        assert WithMtime(listing, t) == WithMtime(rest, t);
      }
    }
  }

  /**
   * The image list holds exactly the image entries of the listing, sorted
   * by modification time, and every tie keeps its listing order.
   */
  lemma ImageOrder(listing: seq<Entry>)
    ensures IsStableSortOf(SortedImages(listing), ImageEntries(listing))
    ensures forall e :: e in SortedImages(listing) <==> e in listing && IsImageName(e.name)
    ensures forall t :: WithMtime(SortedImages(listing), t) == ImageEntries(WithMtime(listing, t))
  {
    var s := ImageEntries(listing);
    forall t ensures WithMtime(SortByMtime(s), t) == WithMtime(s, t) {
      SortStable(s, t);
    }
    forall t ensures WithMtime(SortedImages(listing), t) == ImageEntries(WithMtime(listing, t)) {
      FilterCommutes(listing, t);
    }
    forall e ensures e in SortedImages(listing) <==> e in listing && IsImageName(e.name) {
      assert e in SortedImages(listing) <==> e in multiset(SortedImages(listing));
      assert e in s <==> e in multiset(s);
      InImageEntries(listing, e);
    }
  }

  /** Whatever stable sort the host language uses, it yields this model's order. */
  lemma AnyStableSortAgrees(listing: seq<Entry>, r: seq<Entry>)
    requires IsStableSortOf(r, ImageEntries(listing))
    ensures r == SortedImages(listing)
  {
    ImageOrder(listing);
    StableSortUnique(r, SortedImages(listing));
  }

  /** The names in the image list are exactly the listed image names. */
  lemma ImageFileNames(listing: seq<Entry>, name: string)
    ensures name in ImageFiles(listing) <==>
            IsImageName(name) && exists e :: e in listing && e.name == name
  {
    ImageOrder(listing);
    var s := SortedImages(listing);
    if name in ImageFiles(listing) {
      var k :| 0 <= k < |s| && ImageFiles(listing)[k] == name;
      assert s[k] in s;
    }
    if IsImageName(name) && exists e :: e in listing && e.name == name {
      var e :| e in listing && e.name == name;
      assert e in s;
      var k :| 0 <= k < |s| && s[k] == e;
      assert ImageFiles(listing)[k] == name;
    }
  }
}
