/** The option-form builder of app/Services/OptionForm.php: an `OptionForm` holds an
    ordered list of `OptionFormItem`s; `Handle` writes a matching submission into the
    option store and `Render` resolves every item's displayed value. */
module OptionForms {
  import opened Values
  import opened OptionIds

  /** The global option store behind `option()` and `Option::set`. */
  class OptionStore {
    var entries: map<string, Value>
    /** The keys passed to `Option::set`, in call order. */
    var writes: seq<string>

    constructor (entries: map<string, Value>)
      ensures this.entries == entries && writes == []
    {
      this.entries := entries;
      writes := [];
    }

    /** `option($key)` with a null default. */
    function OptionValue(key: string): Value
      reads this
    {
      Get(entries, key)
    }

    /** `Option::set($key, $value)`. */
    method Set(key: string, value: Value)
      modifies this
      ensures entries == old(entries)[key := value]
      ensures writes == old(writes) + [key]
      ensures OptionValue(key) == value
    {
      entries := entries[key := value];
      writes := writes + [key];
    }
  }

  /** The request superglobal `$_POST`, which `handle` updates in place. */
  class PostData {
    var post: map<string, string>

    constructor (post: map<string, string>)
      ensures this.post == post
    {
      this.post := post;
    }
  }

  /** The flash data of the session. */
  class Session {
    var flash: map<string, string>

    constructor ()
      ensures flash == map[]
    {
      flash := map[];
    }
  }

  /** A nested builder stored under an item's `view` key. */
  datatype Widget =
    | SelectWidget(select: OptionFormSelect)
    | TextareaWidget(textarea: OptionFormTextarea)
    | GroupWidget(group: OptionFormGroup)
  {
    function Obj(): object
    {
      match this
      case SelectWidget(s) => s
      case TextareaWidget(t) => t
      case GroupWidget(g) => g
    }
  }

  /** An entry of an item's `data` array: a scalar, or a nested builder. */
  datatype Datum = Val(v: Value) | View(w: Widget)

  /** PHP truthiness of a data entry; a builder object is always true. */
  predicate TruthyDatum(d: Datum)
  {
    d.View? || Truthy(d.v)
  }

  /** An entry of an `OptionFormGroup`: a text input or a static addon. */
  datatype GroupEntry = GroupEntry(kind: string, id: Value, value: Value)

  /** What an item's widget template is rendered with (the markup itself is not modelled). */
  datatype ItemView =
    | TextView(id: string, value: Datum)
    | CheckboxView(id: string, caption: Datum, checked: bool)
    | SelectView(id: string, options: seq<(string, string)>, selected: Value)
    | TextareaView(rows: int, id: string, text: Value, description: string)
    | GroupView(entries: seq<GroupEntry>)

  /** A cached value that is still null is replaced by the stored option. */
  function Fill(cached: Value, stored: Value): Value
  {
    if cached == Null then stored else cached
  }

  class OptionFormItem {
    const id: string
    const title: string
    const kind: string
    var data: map<string, Datum>
    var hint: Option<string>
    var content: Option<ItemView>

    constructor (id: string, title: string, kind: string := "")
      ensures this.id == id && this.title == title && this.kind == kind
      ensures data == map[] && hint == None && content == None
    {
      this.id := id;
      this.title := title;
      this.kind := kind;
      data := map[];
      hint := None;
      content := None;
    }

    /** `get($key)`: `Arr::get` on `data`, null when the key was never set. */
    function Get(key: string): Datum
      reads this`data
    {
      DataGet(data, key)
    }

    /** `set($key, $value)`. */
    method Set(key: string, value: Datum)
      modifies this`data
      ensures data == old(data)[key := value]
      ensures Get(key) == value
      ensures forall k :: k != key ==> Get(k) == old(Get(k))
    {
      data := data[key := value];
    }

    /** The nested builder stored under `view`, if there is one. */
    function Widget(): Option<Widget>
      reads this`data
    {
      if "view" in data && data["view"].View? then Some(data["view"].w) else None
    }

    /** The objects `Render` may change on behalf of this item. */
    function WidgetFrame(): set<object>
      reads this`data
    {
      if Widget().Some? then {Widget().value.Obj()} else {}
    }

    /** The item as `render` sees it. */
    function Snapshot(): ItemState
      reads this`data, WidgetFrame()
    {
      ItemState(id, kind, data, if Widget().Some? then Some(State(Widget().value)) else None)
    }

    /** `hint($content)`; the hint template is not modelled, only the text it is given. */
    method Hint(text: string)
      modifies this`hint
      ensures hint == Some(text)
    {
      hint := Some(text);
    }

    method SetContent(view: ItemView)
      modifies this`content
      ensures content == Some(view)
    {
      content := Some(view);
    }
  }

  class OptionFormSelect {
    const id: string
    var options: seq<(string, string)>
    var selected: Value

    constructor (id: string)
      ensures this.id == id && options == [] && selected == Null
    {
      this.id := id;
      options := [];
      selected := Null;
    }

    /** `add($id, $name)`. */
    method Add(optionId: string, name: string)
      modifies this`options
      ensures options == old(options) + [(optionId, name)]
    {
      options := options + [(optionId, name)];
    }

    /** `setSelected($id)`. */
    method SetSelected(value: Value)
      modifies this`selected
      ensures selected == value
    {
      selected := value;
    }

    /** `render()`: a null selection is replaced, and cached, by the stored option. */
    method Render(stored: map<string, Value>) returns (view: ItemView)
      modifies this`selected
      ensures old(selected) != Null ==> selected == old(selected)
      ensures old(selected) == Null ==> selected == Get(stored, id)
      ensures view == SelectView(id, options, selected)
    {
      if selected == Null {
        selected := Get(stored, id);
      }
      view := SelectView(id, options, selected);
    }
  }

  class OptionFormTextarea {
    const id: string
    var value: Value
    var rows: int
    var description: string

    constructor (id: string)
      ensures this.id == id && value == Null && rows == 3 && description == ""
    {
      this.id := id;
      value := Null;
      rows := 3;
      description := "";
    }

    /** `setContent($content)`. */
    method SetContent(content: Value)
      modifies this`value
      ensures value == content
    {
      value := content;
    }

    method SetRows(rows: int)
      modifies this`rows
      ensures this.rows == rows
    {
      this.rows := rows;
    }

    method SetDescription(description: string)
      modifies this`description
      ensures this.description == description
    {
      this.description := description;
    }

    /** `render()`: a null value is replaced, and cached, by the stored option. */
    method Render(stored: map<string, Value>) returns (view: ItemView)
      modifies this`value
      ensures old(value) != Null ==> value == old(value)
      ensures old(value) == Null ==> value == Get(stored, id)
      ensures view == TextareaView(rows, id, value, description)
    {
      if value == Null {
        value := Get(stored, id);
      }
      view := TextareaView(rows, id, value, description);
    }
  }

  /** A group entry as rendered: a text entry with a truthy id and a null value shows the
      stored option; every other entry, addons included, is shown as it is. */
  function ResolveEntry(entry: GroupEntry, entries: map<string, Value>): GroupEntry
  {
    if Truthy(entry.id) && entry.value == Null then entry.(value := Get(entries, entry.id.s))
    else entry
  }

  function ResolveEntries(group: seq<GroupEntry>, entries: map<string, Value>): seq<GroupEntry>
  {
    seq(|group|, i requires 0 <= i < |group| => ResolveEntry(group[i], entries))
  }

  class OptionFormGroup {
    const id: string
    var entries: seq<GroupEntry>

    constructor (id: string)
      ensures this.id == id && entries == []
    {
      this.id := id;
      entries := [];
    }

    /** `text($id, $value = null)`. */
    method Text(entryId: string, value: Value := Null)
      modifies this`entries
      ensures entries == old(entries) + [GroupEntry("text", Str(entryId), value)]
    {
      entries := entries + [GroupEntry("text", Str(entryId), value)];
    }

    /** `addon($value)`: an entry with a null id. */
    method Addon(value: Value)
      modifies this`entries
      ensures entries == old(entries) + [GroupEntry("addon", Null, value)]
    {
      entries := entries + [GroupEntry("addon", Null, value)];
    }

    /** `render()`: the entries in order, each text entry with a truthy id and a null
        value filled from the stored options; the group itself is left as it was. */
    method Render(stored: map<string, Value>) returns (view: ItemView)
      ensures view.GroupView? && |view.entries| == |entries|
      ensures forall i :: 0 <= i < |entries| ==>
        view.entries[i].kind == entries[i].kind && view.entries[i].id == entries[i].id
      ensures forall i :: 0 <= i < |entries| && (!Truthy(entries[i].id) || entries[i].value != Null) ==>
        view.entries[i].value == entries[i].value
      ensures forall i :: 0 <= i < |entries| && Truthy(entries[i].id) && entries[i].value == Null ==>
        view.entries[i].value == Get(stored, entries[i].id.s)
      ensures view == GroupView(ResolveEntries(entries, stored))
    {
      var rendered := [];
      var i := 0;
      while i < |entries|
        invariant 0 <= i <= |entries|
        invariant rendered == ResolveEntries(entries[..i], stored)
      {
        var entry := entries[i];
        if Truthy(entry.id) && entry.value == Null {
          entry := entry.(value := Get(stored, entry.id.s));
        }
        rendered := rendered + [entry];
        i := i + 1;
      }
      assert entries[..i] == entries;
      view := GroupView(rendered);
    }
  }

  /** The state `handle` works on: `$_POST`, the option store and the log of its writes. */
  datatype Submission = Submission(post: map<string, string>, entries: map<string, Value>, writes: seq<string>)

  /** One iteration of the loop in `handle`: an unchecked checkbox is posted as "0", a
      namespaced id is skipped, and any other id is written when its posted value differs
      from the stored one. */
  function HandleItem(item: OptionFormItem, s: Submission): Submission
  {
    var post := if item.kind == "checkbox" && item.id !in s.post then s.post[item.id := "0"] else s.post;
    var posted := Lookup(post, item.id);
    if IsNamespaced(item.id) || posted == Get(s.entries, item.id) then s.(post := post)
    else Submission(post, s.entries[item.id := posted], s.writes + [item.id])
  }

  /** The loop of `handle` over `items`, in order. */
  function HandlePass(items: seq<OptionFormItem>, s: Submission): Submission
    decreases |items|
  {
    if items == [] then s else HandleItem(items[|items| - 1], HandlePass(items[..|items| - 1], s))
  }

  /** The ids of the checkbox items among `items`. */
  function CheckboxIds(items: seq<OptionFormItem>): set<string>
  {
    set i | 0 <= i < |items| && items[i].kind == "checkbox" :: items[i].id
  }

  /** The ids `handle` may write: those of the items that are not namespaced. */
  function WritableIds(items: seq<OptionFormItem>): set<string>
  {
    set i | 0 <= i < |items| && !IsNamespaced(items[i].id) :: items[i].id
  }

  /** The posted fields after `handle`: every field posted before keeps its value, and the
      only fields added are the ids of checkboxes that were not posted, each as "0". */
  lemma {:induction false} HandlePost(items: seq<OptionFormItem>, s: Submission)
    ensures var r := HandlePass(items, s);
      (forall k :: k in s.post ==> k in r.post && r.post[k] == s.post[k]) &&
      (forall k :: k !in s.post ==> (k in r.post <==> k in CheckboxIds(items))) &&
      (forall k :: k in r.post && k !in s.post ==> r.post[k] == "0")
    decreases |items|
  {
    if items != [] {
      var front := items[..|items| - 1];
      HandlePost(front, s);
      assert CheckboxIds(items) == CheckboxIds(front) + (if items[|items| - 1].kind == "checkbox" then {items[|items| - 1].id} else {}) by {
        forall k | k in CheckboxIds(items) ensures k in CheckboxIds(front) || (items[|items| - 1].kind == "checkbox" && k == items[|items| - 1].id) {
          var i :| 0 <= i < |items| && items[i].kind == "checkbox" && items[i].id == k;
          if i < |items| - 1 {
            assert front[i] == items[i];
          }
        }
        forall k | k in CheckboxIds(front) ensures k in CheckboxIds(items) {
          var i :| 0 <= i < |front| && front[i].kind == "checkbox" && front[i].id == k;
          assert items[i] == front[i];
        }
      }
    }
  }

  /** After `handle`, every item that is not namespaced has as its stored option the value
      posted for it, "0" for a checkbox that was not posted. */
  lemma {:induction false} HandleStoresPosted(items: seq<OptionFormItem>, s: Submission)
    ensures var r := HandlePass(items, s);
      forall i :: 0 <= i < |items| && !IsNamespaced(items[i].id) ==> Get(r.entries, items[i].id) == Lookup(r.post, items[i].id)
    decreases |items|
  {
    if items != [] {
      var front := items[..|items| - 1];
      var last := items[|items| - 1];
      HandleStoresPosted(front, s);
      var r0 := HandlePass(front, s);
      var r := HandleItem(last, r0);
      forall i | 0 <= i < |items| && !IsNamespaced(items[i].id)
        ensures Get(r.entries, items[i].id) == Lookup(r.post, items[i].id)
      {
        if items[i].id != last.id {
          assert items[i] == front[i];
        }
      }
    }
  }

  /** `handle` changes no stored option outside the ids it may write, in particular none for
      a namespaced id, and it only appends to the log of writes, ids it may write. */
  lemma {:induction false} HandleFrame(items: seq<OptionFormItem>, s: Submission)
    ensures var r := HandlePass(items, s);
      (forall k :: k !in WritableIds(items) ==> (k in r.entries <==> k in s.entries) && Get(r.entries, k) == Get(s.entries, k)) &&
      |s.writes| <= |r.writes| && r.writes[..|s.writes|] == s.writes &&
      (forall j :: |s.writes| <= j < |r.writes| ==> r.writes[j] in WritableIds(items))
    decreases |items|
  {
    if items != [] {
      var front := items[..|items| - 1];
      HandleFrame(front, s);
      assert WritableIds(front) <= WritableIds(items) by {
        forall k | k in WritableIds(front) ensures k in WritableIds(items) {
          var i :| 0 <= i < |front| && !IsNamespaced(front[i].id) && front[i].id == k;
          assert items[i] == front[i];
        }
      }
      var r0 := HandlePass(front, s);
      var r := HandleItem(items[|items| - 1], r0);
      if r.writes != r0.writes {
        assert items[|items| - 1].id in WritableIds(items);
        assert r.writes[..|s.writes|] == r0.writes[..|s.writes|];
      }
    }
  }

  /** A submission `handle` has nothing left to do for: every checkbox is posted and every
      item that is not namespaced already has its posted value stored. */
  predicate Settled(items: seq<OptionFormItem>, s: Submission)
  {
    (forall i :: 0 <= i < |items| && items[i].kind == "checkbox" ==> items[i].id in s.post) &&
    (forall i :: 0 <= i < |items| && !IsNamespaced(items[i].id) ==> Get(s.entries, items[i].id) == Lookup(s.post, items[i].id))
  }

  /** On a settled submission `handle` changes nothing and writes nothing. */
  lemma {:induction false} SettledIsFixpoint(items: seq<OptionFormItem>, s: Submission)
    requires Settled(items, s)
    ensures HandlePass(items, s) == s
    decreases |items|
  {
    if items != [] {
      var front := items[..|items| - 1];
      assert Settled(front, s) by {
        forall i | 0 <= i < |front| ensures front[i] == items[i] { }
      }
      SettledIsFixpoint(front, s);
    }
  }

  /** A write happens only for a value that differs: a field that was posted with exactly
      the value already stored keeps that value, stays stored as it was, and is not among
      the keys `handle` writes, whatever the other items do. */
  lemma {:induction false} WriteOnlyIfDiffers(items: seq<OptionFormItem>, s: Submission, k: string)
    requires k in s.post && Get(s.entries, k) == Str(s.post[k])
    ensures var r := HandlePass(items, s);
      k in r.post && r.post[k] == s.post[k] && Get(r.entries, k) == Get(s.entries, k) &&
      |s.writes| <= |r.writes| && r.writes[..|s.writes|] == s.writes && k !in r.writes[|s.writes|..]
    decreases |items|
  {
    if items != [] {
      var front := items[..|items| - 1];
      WriteOnlyIfDiffers(front, s, k);
      var r0 := HandlePass(front, s);
      var r := HandleItem(items[|items| - 1], r0);
      assert r.writes[|s.writes|..] == r0.writes[|s.writes|..] || r.writes[|s.writes|..] == r0.writes[|s.writes|..] + [items[|items| - 1].id];
    }
  }

  /** The same for a checkbox that was not posted: it is compared as "0" after defaulting,
      so when "0" is already stored it is not written, whatever the other items do. Every
      item with that id must be a checkbox: a text item sharing it would write null first. */
  lemma {:induction false} DefaultedCheckboxNotWritten(items: seq<OptionFormItem>, s: Submission, k: string)
    requires k !in s.post && Get(s.entries, k) == Str("0")
    requires forall i :: 0 <= i < |items| && items[i].id == k ==> items[i].kind == "checkbox"
    ensures var r := HandlePass(items, s);
      Get(r.entries, k) == Get(s.entries, k) && (k in r.post ==> r.post[k] == "0") &&
      |s.writes| <= |r.writes| && r.writes[..|s.writes|] == s.writes && k !in r.writes[|s.writes|..]
    decreases |items|
  {
    if items != [] {
      var front := items[..|items| - 1];
      assert forall i :: 0 <= i < |front| ==> front[i] == items[i];
      DefaultedCheckboxNotWritten(front, s, k);
      var r0 := HandlePass(front, s);
      var r := HandleItem(items[|items| - 1], r0);
      assert r.writes[|s.writes|..] == r0.writes[|s.writes|..] || r.writes[|s.writes|..] == r0.writes[|s.writes|..] + [items[|items| - 1].id];
    }
  }

  /** `handle` leaves the submission settled, so handling the same post a second time
      writes nothing more. */
  lemma HandleIdempotent(items: seq<OptionFormItem>, s: Submission)
    ensures Settled(items, HandlePass(items, s))
    ensures HandlePass(items, HandlePass(items, s)) == HandlePass(items, s)
  {
    HandlePost(items, s);
    HandleStoresPosted(items, s);
    var r := HandlePass(items, s);
    forall i | 0 <= i < |items| && items[i].kind == "checkbox" ensures items[i].id in r.post {
      assert items[i].id in CheckboxIds(items);
    }
    SettledIsFixpoint(items, r);
  }

  /** What `render` shows after `handle`: an item whose id holds no bracket pair and
      which has no truthy explicit value resolves to the value posted for it. */
  lemma HandleThenResolve(items: seq<OptionFormItem>, s: Submission, i: nat, explicit: Datum,
                          unserialize: Value -> Option<map<string, Value>>)
    requires i < |items| && !HasBracketPair(items[i].id) && !TruthyDatum(explicit)
    ensures var r := HandlePass(items, s);
      ResolveValue(explicit, items[i].id, r.entries, unserialize) == Val(Lookup(r.post, items[i].id))
  {
    HandleStoresPosted(items, s);
  }

  /** What a nested builder holds, as a value. */
  datatype BuilderState =
    | SelectState(id: string, options: seq<(string, string)>, selected: Value)
    | TextareaState(id: string, rows: int, text: Value, description: string)
    | GroupState(id: string, entries: seq<GroupEntry>)

  function State(w: Widget): BuilderState
    reads w.Obj()
  {
    match w
    case SelectWidget(s) => SelectState(s.id, s.options, s.selected)
    case TextareaWidget(t) => TextareaState(t.id, t.rows, t.value, t.description)
    case GroupWidget(g) => GroupState(g.id, g.entries)
  }

  /** The view a nested builder renders with the store holding `entries`. */
  function BuilderView(b: BuilderState, entries: map<string, Value>): ItemView
  {
    match b
    case SelectState(id, options, selected) => SelectView(id, options, Fill(selected, Get(entries, id)))
    case TextareaState(id, rows, text, description) => TextareaView(rows, id, Fill(text, Get(entries, id)), description)
    case GroupState(_, group) => GroupView(ResolveEntries(group, entries))
  }

  /** A nested builder after it rendered: a select or textarea has cached the stored option
      in place of a null value; a group is unchanged. */
  function Rendered(b: BuilderState, entries: map<string, Value>): BuilderState
  {
    match b
    case SelectState(id, _, selected) => b.(selected := Fill(selected, Get(entries, id)))
    case TextareaState(id, _, text, _) => b.(text := Fill(text, Get(entries, id)))
    case GroupState(_, _) => b
  }

  /** A builder's view does not change when it renders again: what it cached is what it
      showed. */
  lemma RenderedKeepsView(b: BuilderState, entries: map<string, Value>)
    ensures BuilderView(Rendered(b, entries), entries) == BuilderView(b, entries)
    ensures Rendered(Rendered(b, entries), entries) == Rendered(b, entries)
  {
  }

  /** An item as `render` sees it: its fixed fields, its data, and the state of the builder
      stored under `view`, if any. */
  datatype ItemState = ItemState(id: string, kind: string, data: map<string, Datum>, builder: Option<BuilderState>)

  /** What `render` does for one item on its own: the view it produces, or `Inherit` when
      its type is none of the five known ones (the previous item's view is used again), or
      `Crash` when a select, textarea or group item holds no builder to render. */
  datatype ItemOutcome = Own(view: ItemView) | Inherit | Crash

  predicate IsDelegateKind(kind: string)
  {
    kind == "select" || kind == "textarea" || kind == "group"
  }

  /** `Arr::get($data, $key)`. */
  function DataGet(data: map<string, Datum>, key: string): Datum
  {
    if key in data then data[key] else Val(Null)
  }

  /** The value `render` resolves for an item: its explicit truthy `value`; otherwise, for an
      id `prefix[sub]`, the `sub` entry of the deserialized `prefix` option (null when that
      fails); otherwise the option named by the id. */
  function ResolveValue(explicit: Datum, id: string, entries: map<string, Value>,
                        unserialize: Value -> Option<map<string, Value>>): Datum
  {
    if TruthyDatum(explicit) then explicit
    else match SplitNamespaced(id)
      case Some((prefix, sub)) =>
        (match unserialize(Get(entries, prefix))
         case Some(fields) => Val(Get(fields, sub))
         case None => Val(Null))
      case None => Val(Get(entries, id))
  }

  /** An item with id `prefix[sub]` and no truthy explicit value shows the `sub` field of
      the deserialized `prefix` option, or null when the option does not deserialize. */
  lemma ResolveNamespaced(explicit: Datum, prefix: string, sub: string, entries: map<string, Value>,
                          unserialize: Value -> Option<map<string, Value>>)
    requires !TruthyDatum(explicit) && '[' !in sub
    ensures ResolveValue(explicit, prefix + "[" + sub + "]", entries, unserialize) ==
      match unserialize(Get(entries, prefix))
      case Some(fields) => Val(Get(fields, sub))
      case None => Val(Null)
  {
    SplitJoin(prefix, sub);
  }

  function OwnOutcome(item: ItemState, entries: map<string, Value>,
                      unserialize: Value -> Option<map<string, Value>>): ItemOutcome
  {
    var value := ResolveValue(DataGet(item.data, "value"), item.id, entries, unserialize);
    if item.kind == "text" then Own(TextView(item.id, value))
    else if item.kind == "checkbox" then Own(CheckboxView(item.id, DataGet(item.data, "label"), TruthyDatum(value)))
    else if IsDelegateKind(item.kind) then
      if item.builder.Some? then Own(BuilderView(item.builder.value, entries)) else Crash
    else Inherit
  }

  /** The item after `render` went over it: a select, textarea or group item's builder has rendered. */
  function AfterRender(item: ItemState, entries: map<string, Value>): ItemState
  {
    if IsDelegateKind(item.kind) && item.builder.Some? then item.(builder := Some(Rendered(item.builder.value, entries)))
    else item
  }

  /** What every item does on its own, in order. */
  function Outcomes(items: seq<ItemState>, entries: map<string, Value>,
                    unserialize: Value -> Option<map<string, Value>>): seq<ItemOutcome>
  {
    seq(|items|, j requires 0 <= j < |items| => OwnOutcome(items[j], entries, unserialize))
  }

  /** `render` gets through every item: none crashes and the first one has a view of its own. */
  predicate Renderable(outs: seq<ItemOutcome>)
  {
    (forall i :: 0 <= i < |outs| ==> outs[i] != Crash) && (|outs| > 0 ==> outs[0].Own?)
  }

  /** The content `render` gives each item, as its loop computes it: the item's own view, or
      else the view the previous item was given (`$view` keeps its value from one pass of
      the loop to the next). */
  function Carried(outs: seq<ItemOutcome>): (views: seq<Option<ItemView>>)
    ensures |views| == |outs|
    decreases |outs|
  {
    if outs == [] then []
    else
      var previous := Carried(outs[..|outs| - 1]);
      var last := outs[|outs| - 1];
      previous + [if last.Own? then Some(last.view) else if previous == [] then None else previous[|previous| - 1]]
  }

  /** The contents of a prefix of the items are a prefix of the contents. */
  lemma {:induction false} CarriedPrefix(outs: seq<ItemOutcome>, n: nat)
    requires n <= |outs|
    ensures Carried(outs[..n]) == Carried(outs)[..n]
    decreases |outs|
  {
    if n < |outs| {
      var last := |outs| - 1;
      assert outs[..last][..n] == outs[..n];
      CarriedPrefix(outs[..last], n);
    } else {
      assert outs[..n] == outs;
    }
  }

  /** Item `j`'s content is its own view, or else the content of item `j - 1`; the first
      item has none unless it has a view of its own. */
  lemma CarriedNext(outs: seq<ItemOutcome>, j: nat)
    requires j < |outs|
    ensures Carried(outs)[j] == if outs[j].Own? then Some(outs[j].view) else if j == 0 then None else Carried(outs)[j - 1]
  {
    CarriedPrefix(outs, j + 1);
    assert outs[..j + 1][..j] == outs[..j];
    if j > 0 {
      CarriedPrefix(outs, j);
    }
  }

  /** The view in force at item `j`: the last view an item up to `j` produced itself. */
  function CarriedAt(outs: seq<ItemOutcome>, j: int): Option<ItemView>
    requires j < |outs|
    decreases j
  {
    if j < 0 then None
    else if outs[j].Own? then Some(outs[j].view)
    else CarriedAt(outs, j - 1)
  }

  /** The content of item `j` is the view of the last item up to `j` that has one of its
      own; none when no item up to `j` has one. */
  lemma {:induction false} CarriedIsLastOwn(outs: seq<ItemOutcome>, j: nat)
    requires j < |outs|
    ensures Carried(outs)[j] == CarriedAt(outs, j)
    decreases j
  {
    CarriedNext(outs, j);
    if !outs[j].Own? && j > 0 {
      CarriedIsLastOwn(outs, j - 1);
    }
  }

  /** Every item after `render` went over it. */
  function AfterRenders(items: seq<ItemState>, entries: map<string, Value>): seq<ItemState>
  {
    seq(|items|, j requires 0 <= j < |items| => AfterRender(items[j], entries))
  }

  /** What the loop of `render` has established after `i` items, about the items `items`
      it started from and their outcomes `outs`, the items `current` as they now are, and
      the view in force. */
  predicate Progress(i: nat, view: Option<ItemView>, outs: seq<ItemOutcome>, items: seq<ItemState>,
                     current: seq<ItemState>, entries: map<string, Value>)
  {
    i <= |items| == |current| == |outs| &&
    (forall j :: 0 <= j < |items| ==> current[j] == if j < i then AfterRender(items[j], entries) else items[j]) &&
    (forall j :: 0 <= j < i ==> outs[j] != Crash) && (i > 0 ==> outs[0].Own? && view.Some?) &&
    view == (if i == 0 then None else Carried(outs)[i - 1])
  }

  /** One pass of the loop keeps `Progress` and gives item `i` its content, or shows that
      `render` stops. */
  lemma ProgressStep(i: nat, view: Option<ItemView>, outs: seq<ItemOutcome>, items: seq<ItemState>,
                     current: seq<ItemState>, out: ItemOutcome, next: Option<ItemView>,
                     entries: map<string, Value>, unserialize: Value -> Option<map<string, Value>>)
    requires outs == Outcomes(items, entries, unserialize)
    requires Progress(i, view, outs, items, current, entries) && i < |items|
    requires out == OwnOutcome(current[i], entries, unserialize)
    requires next == if out.Own? then Some(out.view) else view
    ensures out.Crash? || next.None? ==> !Renderable(outs)
    ensures !out.Crash? && next.Some? ==>
      Progress(i + 1, next, outs, items, current[i := AfterRender(current[i], entries)], entries) &&
      Carried(outs)[i] == next
  {
    CarriedNext(outs, i);
  }

  /** After the last item, `Progress` is the whole of what `render` promises. */
  lemma ProgressDone(view: Option<ItemView>, outs: seq<ItemOutcome>, items: seq<ItemState>,
                     current: seq<ItemState>, entries: map<string, Value>)
    requires Progress(|items|, view, outs, items, current, entries)
    ensures Renderable(outs)
    ensures current == AfterRenders(items, entries)
  {
  }

  /** One item of the loop in `render`, up to the view it would set as content. */
  method RenderItem(item: OptionFormItem, stored: map<string, Value>,
                    unserialize: Value -> Option<map<string, Value>>) returns (out: ItemOutcome)
    modifies item.WidgetFrame()
    ensures out == OwnOutcome(old(item.Snapshot()), stored, unserialize)
    ensures item.Snapshot() == AfterRender(old(item.Snapshot()), stored)
  {
    var value := ResolveValue(item.Get("value"), item.id, stored, unserialize);
    if item.kind == "text" {
      out := Own(TextView(item.id, value));
    } else if item.kind == "checkbox" {
      out := Own(CheckboxView(item.id, item.Get("label"), TruthyDatum(value)));
    } else if IsDelegateKind(item.kind) {
      var d := item.Get("view");
      if d.View? {
        var view;
        match d.w {
          case SelectWidget(s) => view := s.Render(stored);
          case TextareaWidget(t) => view := t.Render(stored);
          case GroupWidget(g) => view := g.Render(stored);
        }
        out := Own(view);
      } else {
        out := Crash;
      }
    } else {
      out := Inherit;
    }
  }

  /** The items `xs` as values; `builders` holds their nested builders. */
  ghost function SnapshotsOf(xs: seq<OptionFormItem>, builders: set<object>): (snaps: seq<ItemState>)
    requires forall i :: 0 <= i < |xs| ==> xs[i].WidgetFrame() <= builders
    reads xs`data, builders
    ensures |snaps| == |xs|
    ensures forall i :: 0 <= i < |xs| ==> snaps[i] == xs[i].Snapshot()
  {
    if xs == [] then [] else SnapshotsOf(xs[..|xs| - 1], builders) + [xs[|xs| - 1].Snapshot()]
  }

  class OptionForm {
    const id: string
    const title: string
    var hint: Option<string>
    var items: seq<OptionFormItem>
    var messages: seq<string>
    /** Handed to the main view; nothing in the class sets it. */
    var success: bool
    /** The nested builders the items hold. */
    ghost var Builders: set<object>

    /** Every item is a distinct object, no two items share a nested builder, and every
        builder is accounted for in `Builders`. */
    ghost predicate Valid()
      reads this, items`data
    {
      (forall i, j :: 0 <= i < j < |items| ==> items[i] != items[j]) &&
      (forall i, j :: 0 <= i < |items| && 0 <= j < |items| && i != j ==>
        items[i].WidgetFrame() !! items[j].WidgetFrame()) &&
      this !in Builders &&
      (forall i :: 0 <= i < |items| ==> items[i] !in Builders && items[i].WidgetFrame() <= Builders)
    }

    /** The items as values. */
    ghost function Snapshots(): (snaps: seq<ItemState>)
      requires Valid()
      reads this, items`data, Builders
      ensures |snaps| == |items|
      ensures forall i :: 0 <= i < |items| ==> snaps[i] == items[i].Snapshot()
    {
      SnapshotsOf(items, Builders)
    }

    constructor (id: string, title: string)
      ensures Valid()
      ensures this.id == id && this.title == title
      ensures hint == None && items == [] && messages == [] && !success
      ensures Builders == {}
    {
      this.id := id;
      this.title := title;
      hint := None;
      items := [];
      messages := [];
      success := false;
      Builders := {};
    }

    /** `addItem($type, $id, $name)`: one new item at the end of `items`. */
    method AddItem(kind: string, itemId: string, name: string) returns (item: OptionFormItem)
      requires Valid()
      modifies this`items
      ensures Valid()
      ensures fresh(item) && items == old(items) + [item]
      ensures item.id == itemId && item.title == name && item.kind == kind
      ensures item.data == map[] && item.hint == None && item.content == None
    {
      item := new OptionFormItem(itemId, name, kind);
      items := items + [item];
    }

    /** `text($id, $name, $value = null)`. */
    method Text(itemId: string, name: string, value: Value := Null) returns (item: OptionFormItem)
      requires Valid()
      modifies this`items
      ensures Valid()
      ensures fresh(item) && items == old(items) + [item]
      ensures item.id == itemId && item.title == name && item.kind == "text"
      ensures item.data == map["value" := Val(value)]
    {
      item := AddItem("text", itemId, name);
      item.Set("value", Val(value));
    }

    /** `checkbox($id, $name, $label, $checked = null)`; `$checked` is not used. */
    method Checkbox(itemId: string, name: string, caption: Value, checked: Value := Null) returns (item: OptionFormItem)
      requires Valid()
      modifies this`items
      ensures Valid()
      ensures fresh(item) && items == old(items) + [item]
      ensures item.id == itemId && item.title == name && item.kind == "checkbox"
      ensures item.data == map["label" := Val(caption)]
    {
      item := AddItem("checkbox", itemId, name);
      item.Set("label", Val(caption));
    }

    /** A new item of kind `kind` at the end of `items`, holding the builder `w`, which no
        item held before. */
    method AddWidgetItem(kind: string, itemId: string, name: string, w: Widget) returns (item: OptionFormItem)
      requires Valid() && w.Obj() != this && w.Obj() !in Builders
      requires forall i :: 0 <= i < |items| ==> items[i] != w.Obj()
      modifies this`items, this`Builders
      ensures Valid() && Builders == old(Builders) + {w.Obj()}
      ensures fresh(item) && items == old(items) + [item]
      ensures item.id == itemId && item.title == name && item.kind == kind
      ensures item.data == map["view" := View(w)]
    {
      item := new OptionFormItem(itemId, name, kind);
      item.Set("view", View(w));
      assert item.WidgetFrame() == {w.Obj()};
      items := items + [item];
      Builders := Builders + {w.Obj()};
    }

    /** `select($id, $name, $callback)`: the new item holds a fresh select builder, which is
        returned for the caller to fill. */
    method Select(itemId: string, name: string) returns (select: OptionFormSelect)
      requires Valid()
      modifies this`items, this`Builders
      ensures Valid() && Builders == old(Builders) + {select}
      ensures |items| == |old(items)| + 1 && items[..|old(items)|] == old(items)
      ensures fresh(items[|old(items)|]) && fresh(select)
      ensures var item := items[|old(items)|];
        item.id == itemId && item.title == name && item.kind == "select" &&
        item.data == map["view" := View(SelectWidget(select))]
      ensures select.id == itemId && select.options == [] && select.selected == Null
    {
      select := new OptionFormSelect(itemId);
      var item := AddWidgetItem("select", itemId, name, SelectWidget(select));
    }

    /** `textarea($id, $name, $callback)`: as `Select`, with a textarea builder. */
    method Textarea(itemId: string, name: string) returns (textarea: OptionFormTextarea)
      requires Valid()
      modifies this`items, this`Builders
      ensures Valid() && Builders == old(Builders) + {textarea}
      ensures |items| == |old(items)| + 1 && items[..|old(items)|] == old(items)
      ensures fresh(items[|old(items)|]) && fresh(textarea)
      ensures var item := items[|old(items)|];
        item.id == itemId && item.title == name && item.kind == "textarea" &&
        item.data == map["view" := View(TextareaWidget(textarea))]
      ensures textarea.id == itemId && textarea.value == Null && textarea.rows == 3 && textarea.description == ""
    {
      textarea := new OptionFormTextarea(itemId);
      var item := AddWidgetItem("textarea", itemId, name, TextareaWidget(textarea));
    }

    /** `group($id, $name, $callback)`: returns the item, and the group builder for the
        caller to fill. */
    method Group(itemId: string, name: string) returns (item: OptionFormItem, group: OptionFormGroup)
      requires Valid()
      modifies this`items, this`Builders
      ensures Valid() && Builders == old(Builders) + {group}
      ensures fresh(item) && fresh(group) && items == old(items) + [item]
      ensures item.id == itemId && item.title == name && item.kind == "group"
      ensures item.data == map["view" := View(GroupWidget(group))]
      ensures group.id == itemId && group.entries == []
    {
      group := new OptionFormGroup(itemId);
      item := AddWidgetItem("group", itemId, name, GroupWidget(group));
    }

    /** `hint($content)`; the hint template is not modelled, only the text it is given. */
    method Hint(text: string)
      modifies this`hint
      ensures hint == Some(text)
    {
      hint := Some(text);
    }

    /** `addMessage($msg, $type = "info")`: one callout appended to `messages`. */
    method AddMessage(msg: string, kind: string := "info")
      modifies this`messages
      ensures messages == old(messages) + ["<div class='callout callout-" + kind + "'>" + msg + "</div>"]
    {
      messages := messages + ["<div class='callout callout-" + kind + "'>" + msg + "</div>"];
    }

    /** `handle()`: when the posted `option` field names this form, runs the loop of
        `HandlePass` over `items` on `$_POST` and the store, then flashes the status;
        otherwise touches nothing. */
    method Handle(request: PostData, store: OptionStore, session: Session)
      modifies request, store, session
      ensures Lookup(old(request.post), "option") == Str(id) ==>
        var r := HandlePass(items, Submission(old(request.post), old(store.entries), old(store.writes)));
        request.post == r.post && store.entries == r.entries && store.writes == r.writes &&
        session.flash == old(session.flash)[id + ".status" := "success"]
      ensures Lookup(old(request.post), "option") != Str(id) ==>
        unchanged(request, store, session)
    {
      if Lookup(request.post, "option") == Str(id) {
        ghost var s0 := Submission(request.post, store.entries, store.writes);
        var i := 0;
        while i < |items|
          invariant 0 <= i <= |items|
          invariant Submission(request.post, store.entries, store.writes) == HandlePass(items[..i], s0)
          invariant session.flash == old(session.flash)
        {
          var item := items[i];
          if item.kind == "checkbox" && item.id !in request.post {
            request.post := request.post[item.id := "0"];
          }
          if !IsNamespaced(item.id) {
            var posted := Lookup(request.post, item.id);
            if posted != store.OptionValue(item.id) {
              store.Set(item.id, posted);
            }
          }
          assert items[..i + 1][..i] == items[..i];
          i := i + 1;
        }
        assert items[..i] == items;
        session.flash := session.flash[id + ".status" := "success"];
      }
    }

    /** The builder work of one pass of the loop in `render`, on item `i`: the item's own
        outcome, with only that item's builder changed. */
    method RenderBuilderAt(i: nat, stored: map<string, Value>, unserialize: Value -> Option<map<string, Value>>)
      returns (out: ItemOutcome)
      requires Valid() && i < |items|
      modifies items[i].WidgetFrame()
      ensures Valid()
      ensures out == OwnOutcome(old(Snapshots())[i], stored, unserialize)
      ensures Snapshots() == old(Snapshots())[i := AfterRender(old(Snapshots())[i], stored)]
      ensures forall j :: 0 <= j < |items| ==> items[j].content == old(items[j].content)
    {
      out := RenderItem(items[i], stored, unserialize);
    }

    /** `$item->setContent(...)` on item `i`, where items before `i` already show the
        contents `views` prescribes: then items up to `i` do, and no data changes. */
    method SetContentAt(i: nat, view: ItemView, ghost views: seq<Option<ItemView>>)
      requires Valid() && i < |items| && i < |views| && views[i] == Some(view)
      requires forall j :: 0 <= j < i ==> items[j].content == views[j]
      modifies {items[i]}`content
      ensures Valid() && Snapshots() == old(Snapshots())
      ensures forall j :: 0 <= j < i + 1 ==> items[j].content == views[j]
    {
      items[i].SetContent(view);
    }

    /** One pass of the loop in `render`, on item `i` with `view` the view in force so far:
        the item's own outcome, the view in force after it, and the item's content set to
        that view unless PHP would have stopped here. */
    method RenderNext(i: nat, view: Option<ItemView>, stored: map<string, Value>,
                      unserialize: Value -> Option<map<string, Value>>,
                      ghost outs: seq<ItemOutcome>, ghost snaps: seq<ItemState>)
      returns (out: ItemOutcome, next: Option<ItemView>)
      requires Valid() && i < |items|
      requires outs == Outcomes(snaps, stored, unserialize)
      requires Progress(i, view, outs, snaps, Snapshots(), stored)
      requires forall j :: 0 <= j < i ==> items[j].content == Carried(outs)[j]
      modifies {items[i]}`content, items[i].WidgetFrame()
      ensures Valid()
      ensures out.Crash? || next.None? ==> !Renderable(outs)
      ensures !out.Crash? && next.Some? ==> Progress(i + 1, next, outs, snaps, Snapshots(), stored)
      ensures !out.Crash? && next.Some? ==> forall j :: 0 <= j < i + 1 ==> items[j].content == Carried(outs)[j]
    {
      ghost var before := Snapshots();
      out := RenderBuilderAt(i, stored, unserialize);
      next := if out.Own? then Some(out.view) else view;
      ProgressStep(i, view, outs, snaps, before, out, next, stored, unserialize);
      if !out.Crash? && next.Some? {
        SetContentAt(i, next.value, Carried(outs));
      }
    }

    /** `render()`, with `stored` the options `option()` reads (rendering writes none):
        every item in order gets as content the view it resolves to, or the previous
        item's view when its type is unknown; `ok` is false when PHP would stop with a
        fatal error instead. Only the items' contents and the builders' caches change, and
        each select, textarea or group item's builder renders once. */
    method Render(stored: map<string, Value>, unserialize: Value -> Option<map<string, Value>>) returns (ok: bool)
      requires Valid()
      modifies items`content, Builders
      ensures Valid()
      ensures ok == Renderable(Outcomes(old(Snapshots()), stored, unserialize))
      ensures ok ==> forall j :: 0 <= j < |items| ==>
        items[j].content == Carried(Outcomes(old(Snapshots()), stored, unserialize))[j]
      ensures ok ==> Snapshots() == AfterRenders(old(Snapshots()), stored)
    {
      ghost var snaps := Snapshots();
      ghost var outs := Outcomes(snaps, stored, unserialize);
      var view: Option<ItemView> := None;
      var i := 0;
      ok := true;
      while i < |items|
        invariant Valid()
        invariant Progress(i, view, outs, snaps, Snapshots(), stored)
        invariant forall j :: 0 <= j < i ==> items[j].content == Carried(outs)[j]
      {
        var out;
        out, view := RenderNext(i, view, stored, unserialize, outs, snaps);
        if out.Crash? || view.None? {
          ok := false;
          return;
        }
        i := i + 1;
      }
      ProgressDone(view, outs, snaps, Snapshots(), stored);
    }
  }
}
