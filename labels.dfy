/**
 * The label side of the annotation window: the shortcut-key map built from
 * the configured label groups, the set of selected labels, the description
 * text, and the record `{"description", "labels"}` they are saved as.
 */
module Labels {
  import opened Builtins
  import opened JsonValue
  import opened Wrappers

  /** One configured label and its shortcut key, as `group.items()` yields them. */
  type LabelEntry = (string, string)

  /** The label groups, each in its configured order, one after the other. */
  function Flatten(groups: seq<seq<LabelEntry>>): (r: seq<LabelEntry>)
    ensures forall e :: e in r <==> exists g :: 0 <= g < |groups| && e in groups[g]
  {
    if groups == [] then [] else Flatten(groups[..|groups| - 1]) + groups[|groups| - 1]
  }

  /** A shortcut is registered only when it is exactly one character once stripped. */
  predicate Registers(key: string) {
    |Strip(key)| == 1
  }

  /** The key-map key an entry registers under: its lower-cased (not stripped) key, if the key registers. */
  function Shortcut(e: LabelEntry): (k: Option<string>)
    ensures k.Some? <==> |Strip(e.1)| == 1
    ensures k.Some? ==> k.value == Lower(e.1) && |k.value| == |e.1|
  {
    if Registers(e.1) then Some(Lower(e.1)) else None
  }

  /** Entry e makes the key-map key k lead to it. */
  predicate Binds(e: LabelEntry, k: string) {
    Shortcut(e) == Some(k)
  }

  /**
   * The map built by registering the entries in order under the keys that
   * `shortcut` gives them; a later entry with the same key replaces an
   * earlier one. Stated for any `shortcut`, so that the facts about it do
   * not depend on how keys are normalised.
   */
  function KeyMapBy(entries: seq<LabelEntry>, shortcut: LabelEntry -> Option<string>): (m: map<string, LabelEntry>)
    ensures forall k :: k in m ==> m[k] in entries && shortcut(m[k]) == Some(k)
    decreases |entries|
  {
    if entries == [] then map[]
    else
      var e := entries[|entries| - 1];
      var m := KeyMapBy(entries[..|entries| - 1], shortcut);
      if shortcut(e).Some? then m[shortcut(e).value := e] else m
  }

  /** `label_key_map` after the loop over all configured entries. */
  function KeyMapOf(entries: seq<LabelEntry>): (m: map<string, LabelEntry>)
    ensures forall k :: k in m ==> m[k] in entries && Binds(m[k], k)
  {
    KeyMapBy(entries, Shortcut)
  }

  /** The position of the last entry that `shortcut` puts under k, or -1 when there is none. */
  function LastKeyed(entries: seq<LabelEntry>, shortcut: LabelEntry -> Option<string>, k: string): (i: int)
    ensures -1 <= i < |entries|
    decreases |entries|
  {
    if entries == [] then -1
    else if shortcut(entries[|entries| - 1]) == Some(k) then |entries| - 1
    else LastKeyed(entries[..|entries| - 1], shortcut, k)
  }

  /** LastKeyed finds an entry under k with none after it, and finds none only when no entry is under k. */
  lemma {:induction false} LastKeyedIsLast(entries: seq<LabelEntry>, shortcut: LabelEntry -> Option<string>, k: string)
    ensures LastKeyed(entries, shortcut, k) == -1 <==>
              forall i :: 0 <= i < |entries| ==> shortcut(entries[i]) != Some(k)
    ensures LastKeyed(entries, shortcut, k) >= 0 ==>
              shortcut(entries[LastKeyed(entries, shortcut, k)]) == Some(k) &&
              forall j :: LastKeyed(entries, shortcut, k) < j < |entries| ==> shortcut(entries[j]) != Some(k)
    decreases |entries|
  {
    if entries != [] {
      var n := |entries| - 1;
      var init := entries[..n];
      if shortcut(entries[n]) != Some(k) {
        LastKeyedIsLast(init, shortcut, k);
        assert forall i :: 0 <= i < n ==> entries[i] == init[i];
      }
    }
  }

  /** The map holds k exactly when some entry is under k, and leads to the last such entry. */
  lemma {:induction false} KeyMapLeadsToLastKeyed(entries: seq<LabelEntry>, shortcut: LabelEntry -> Option<string>, k: string)
    ensures k in KeyMapBy(entries, shortcut) <==> LastKeyed(entries, shortcut, k) >= 0
    ensures k in KeyMapBy(entries, shortcut) ==>
              KeyMapBy(entries, shortcut)[k] == entries[LastKeyed(entries, shortcut, k)]
    decreases |entries|
  {
    if entries != [] {
      var n := |entries| - 1;
      var init := entries[..n];
      if shortcut(entries[n]) != Some(k) {
        KeyMapLeadsToLastKeyed(init, shortcut, k);
        if k in KeyMapBy(init, shortcut) {
          assert init[LastKeyed(init, shortcut, k)] == entries[LastKeyed(init, shortcut, k)];
        }
      }
    }
  }

  /** Registering one more entry. */
  lemma KeyMapSnoc(done: seq<LabelEntry>, e: LabelEntry, shortcut: LabelEntry -> Option<string>)
    ensures shortcut(e).Some? ==> KeyMapBy(done + [e], shortcut) == KeyMapBy(done, shortcut)[shortcut(e).value := e]
    ensures shortcut(e).None? ==> KeyMapBy(done + [e], shortcut) == KeyMapBy(done, shortcut)
  {
    assert (done + [e])[..|done|] == done;
  }

  /** What one pass of the inner loop does to the key map. */
  lemma RegisterOne(done: seq<LabelEntry>, e: LabelEntry)
    ensures Registers(e.1) ==> KeyMapOf(done + [e]) == KeyMapOf(done)[Lower(e.1) := e]
    ensures !Registers(e.1) ==> KeyMapOf(done + [e]) == KeyMapOf(done)
  {
    KeyMapSnoc(done, e, Shortcut);
  }

  /** The loop of `_setup_ui` that fills `label_key_map`, group by group. */
  method BuildKeyMap(groups: seq<seq<LabelEntry>>) returns (keyMap: map<string, LabelEntry>)
    ensures keyMap == KeyMapOf(Flatten(groups))
  {
    keyMap := map[];
    var g := 0;
    while g < |groups|
      invariant 0 <= g <= |groups|
      invariant keyMap == KeyMapOf(Flatten(groups[..g]))
    {
      keyMap := RegisterGroup(keyMap, Flatten(groups[..g]), groups[g]);
      assert groups[..g + 1][..g] == groups[..g];
      g := g + 1;
    }
    assert groups[..g] == groups;
  }

  /** The inner loop: registers one group's entries after the entries `done` already registered. */
  method RegisterGroup(keyMap0: map<string, LabelEntry>, ghost done: seq<LabelEntry>, group: seq<LabelEntry>)
    returns (keyMap: map<string, LabelEntry>)
    requires keyMap0 == KeyMapOf(done)
    ensures keyMap == KeyMapOf(done + group)
  {
    keyMap := keyMap0;
    var c := 0;
    ghost var registered := done;
    while c < |group|
      invariant 0 <= c <= |group|
      invariant registered == done + group[..c]
      invariant keyMap == KeyMapOf(registered)
    {
      var name := group[c].0;
      var key := group[c].1;
      RegisterOne(registered, group[c]);
      if Registers(key) {
        keyMap := keyMap[Lower(key) := (name, key)];
      }
      assert group[..c + 1] == group[..c] + [group[c]];
      registered := registered + [group[c]];
      c := c + 1;
    }
    assert group[..c] == group;
  }

  /** `_on_label_key_press` lookup: the pressed key's lower-cased keysym in the map. */
  function Lookup(keyMap: map<string, LabelEntry>, keysym: string): (r: Option<LabelEntry>)
    ensures r.Some? <==> Lower(keysym) in keyMap
    ensures r.Some? ==> r.value == keyMap[Lower(keysym)]
  {
    if Lower(keysym) in keyMap then Some(keyMap[Lower(keysym)]) else None
  }

  /**
   * A key press finds a label exactly when some configured entry binds the
   * lower-cased keysym, and then finds the last such entry.
   */
  lemma LookupFindsLastBinding(groups: seq<seq<LabelEntry>>, keysym: string)
    ensures var entries := Flatten(groups);
            var r := Lookup(KeyMapOf(entries), keysym);
            (r.None? <==> forall i :: 0 <= i < |entries| ==> !Binds(entries[i], Lower(keysym))) &&
            (r.Some? ==> exists i :: 0 <= i < |entries| && Binds(entries[i], Lower(keysym)) && r.value == entries[i] &&
                                     forall j :: i < j < |entries| ==> !Binds(entries[j], Lower(keysym)))
  {
    var entries := Flatten(groups);
    KeyMapLeadsToLastKeyed(entries, Shortcut, Lower(keysym));
    LastKeyedIsLast(entries, Shortcut, Lower(keysym));
  }

  /** An upper-case shortcut is stored lower-cased, so either case of the key finds it. */
  lemma UpperCaseShortcut()
    ensures var m := KeyMapOf(Flatten([[("cat", "C")]]));
            Lookup(m, "c") == Some(("cat", "C")) && Lookup(m, "C") == Some(("cat", "C"))
  {
    var e := ("cat", "C");
    assert Flatten([[e]]) == [e] by {
      assert [[e]][..0] == [];
    }
    assert Shortcut(e) == Some("c") by {
      assert TrimLeft("C") == "C";
      assert TrimRight("C") == "C";
      assert Lower("C") == "c";
    }
    assert KeyMapOf([e]) == map["c" := e] by {
      assert [e][..0] == [];
      assert KeyMapBy([], Shortcut) == map[];
      assert KeyMapBy([e], Shortcut) == KeyMapBy([], Shortcut)["c" := e];
    }
    assert Lower("c") == "c";
    assert Lower("C") == "c";
  }

  /**
   * A key written with padding, such as "c ", counts as one character but
   * is stored with its padding, so pressing c finds nothing.
   */
  lemma PaddedShortcutNotBound()
    ensures var m := KeyMapOf(Flatten([[("cat", "c ")]]));
            Registers("c ") && "c " in m && Lookup(m, "c") == None
  {
    var e := ("cat", "c ");
    assert Flatten([[e]]) == [e] by {
      assert [[e]][..0] == [];
    }
    assert Shortcut(e) == Some("c ") by {
      assert TrimLeft("c ") == "c ";
      assert TrimRight("c ") == "c" by {
        assert "c "[..1] == "c";
        assert TrimRight("c") == "c";
      }
      assert Lower("c ") == "c ";
    }
    assert KeyMapOf([e]) == map["c " := e] by {
      assert [e][..0] == [];
      assert KeyMapBy([], Shortcut) == map[];
      assert KeyMapBy([e], Shortcut) == KeyMapBy([], Shortcut)["c " := e];
    }
    assert Lower("c") == "c";
  }

  /** `toggle_label` on the selection: the label goes in if it was out, and out if it was in. */
  function Toggle(selected: set<string>, name: string): (r: set<string>)
    ensures name in r <==> name !in selected
    ensures forall x :: x != name ==> (x in r <==> x in selected)
  {
    if name in selected then selected - {name} else selected + {name}
  }

  /** Toggling the same label twice restores the selection. */
  lemma ToggleTwice(selected: set<string>, name: string)
    ensures Toggle(Toggle(selected, name), name) == selected
  {
  }

  /** `append_desc_option`: the option and the separator go after the text already typed. */
  function AppendOption(current: string, option: string, separator: string): (r: string)
    ensures |r| == |current| + |option| + |separator|
    ensures r[..|current|] == current
    ensures r[|current|..|current| + |option|] == option
    ensures r[|current| + |option|..] == separator
  {
    current + option + separator
  }

  /** Each option followed by the separator, one after the other. */
  function Joined(options: seq<string>, separator: string): string {
    if options == [] then "" else options[0] + separator + Joined(options[1..], separator)
  }

  /** Pressing option buttons one after another. */
  function AppendOptions(current: string, options: seq<string>, separator: string): string
    decreases |options|
  {
    if options == [] then current
    else AppendOptions(AppendOption(current, options[0], separator), options[1..], separator)
  }

  /** A run of option presses keeps what was typed and adds every option with its separator, in order. */
  lemma {:induction false} AppendOptionsJoins(current: string, options: seq<string>, separator: string)
    ensures AppendOptions(current, options, separator) == current + Joined(options, separator)
    decreases |options|
  {
    if options != [] {
      AppendOptionsJoins(AppendOption(current, options[0], separator), options[1..], separator);
      assert current + options[0] + separator + Joined(options[1..], separator) ==
             current + (options[0] + separator + Joined(options[1..], separator));
    }
  }

  /** The JSON list of label strings. */
  function StrItems(xs: seq<string>): (r: seq<Json>)
    ensures |r| == |xs|
    ensures forall i :: 0 <= i < |xs| ==> r[i] == Str(xs[i])
  {
    if xs == [] then [] else [Str(xs[0])] + StrItems(xs[1..])
  }

  /** The record `save_current_annotation` stores: the description and the label list. */
  function RecordJson(description: string, labels: seq<string>): (r: Json)
    ensures r.Obj? && r.fields.Keys == {"description", "labels"}
    ensures r.fields["description"] == Str(description)
    ensures r.fields["labels"].Arr? && |r.fields["labels"].items| == |labels|
  {
    Obj(map["description" := Str(description), "labels" := Arr(StrItems(labels))])
  }

  /**
   * A record `load_image` can read: an object whose "description", when
   * present, is a string and whose "labels", when present, is a list of
   * strings.
   */
  predicate RecordLike(a: Json) {
    a.Obj? &&
    ("description" in a.fields ==> a.fields["description"].Str?) &&
    ("labels" in a.fields ==>
      a.fields["labels"].Arr? &&
      forall i :: 0 <= i < |a.fields["labels"].items| ==> a.fields["labels"].items[i].Str?)
  }

  /** `annotation.get("description", "")`. */
  function DescriptionOf(a: Json): (d: string)
    requires RecordLike(a)
    ensures "description" !in a.fields ==> d == ""
    ensures "description" in a.fields ==> a.fields["description"] == Str(d)
  {
    if "description" in a.fields then a.fields["description"].s else ""
  }

  /** `set(annotation.get("labels", []))`. */
  function LabelsOf(a: Json): (labels: set<string>)
    requires RecordLike(a)
    ensures "labels" !in a.fields ==> labels == {}
    ensures "labels" in a.fields ==>
              forall x :: x in labels <==> Str(x) in a.fields["labels"].items
  {
    if "labels" in a.fields then
      var items := a.fields["labels"].items;
      set i | 0 <= i < |items| :: items[i].s
    else
      {}
  }

  /** Saving a description and label list and reading the record back gives both back. */
  lemma RecordRoundTrip(description: string, labels: seq<string>)
    ensures RecordLike(RecordJson(description, labels))
    ensures DescriptionOf(RecordJson(description, labels)) == description
    ensures LabelsOf(RecordJson(description, labels)) == set x | x in labels
  {
    var r := RecordJson(description, labels);
    var items := StrItems(labels);
    forall x
      ensures x in LabelsOf(r) <==> x in labels
    {
      if x in labels {
        var i :| 0 <= i < |labels| && labels[i] == x;
        assert items[i] == Str(x);
      }
      if x in LabelsOf(r) {
        var i :| 0 <= i < |items| && items[i] == Str(x);
        assert labels[i] == x;
      }
    }
  }

  /** A blank record and a missing one (`{}`) both read as no description and no labels. */
  lemma EmptyRecordsReadEmpty()
    ensures var blank := Obj(map["description" := Str(""), "labels" := Arr([])]);
            RecordLike(blank) && DescriptionOf(blank) == "" && LabelsOf(blank) == {}
    ensures RecordLike(Obj(map[])) && DescriptionOf(Obj(map[])) == "" && LabelsOf(Obj(map[])) == {}
  {
  }

  /**
   * The record of every listed image, where there is one, is one
   * `load_image` can read. Entries for names that are not listed images
   * (a stray key, a file since removed) are never read and may be anything.
   */
  predicate RecordsReadable(annotations: map<string, Json>, files: seq<string>) {
    forall name :: name in files && name in annotations ==> RecordLike(annotations[name])
  }

  /** xs lists every member of s exactly once. */
  predicate Enumerates(xs: seq<string>, s: set<string>) {
    (set x | x in xs) == s && forall i, j :: 0 <= i < j < |xs| ==> xs[i] != xs[j]
  }

  /** rec is the record saved for this description and selection, its labels in some order. */
  ghost predicate IsRecordOf(rec: Json, description: string, selected: set<string>) {
    exists xs :: Enumerates(xs, selected) && rec == RecordJson(description, xs)
  }

  /** Whatever order the labels were listed in, reading the record back gives the description and the selection. */
  lemma RecordOfReadsBack(rec: Json, description: string, selected: set<string>)
    requires IsRecordOf(rec, description, selected)
    ensures RecordLike(rec) && DescriptionOf(rec) == description && LabelsOf(rec) == selected
  {
    var xs :| Enumerates(xs, selected) && rec == RecordJson(description, xs);
    RecordRoundTrip(description, xs);
  }

  /** `list(selected_labels)`: every selected label once, in the set's own iteration order. */
  method ListOfSet(s: set<string>) returns (xs: seq<string>)
    ensures Enumerates(xs, s)
    ensures |xs| == |s|
  {
    xs := [];
    var rest := s;
    while rest != {}
      invariant (set x | x in xs) + rest == s
      invariant (set x | x in xs) !! rest
      invariant |xs| + |rest| == |s|
      invariant forall i, j :: 0 <= i < j < |xs| ==> xs[i] != xs[j]
      decreases |rest|
    {
      var x :| x in rest;
      xs := xs + [x];
      rest := rest - {x};
    }
  }
}
