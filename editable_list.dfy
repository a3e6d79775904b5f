/**
 * A list of options with an optional selection and an edit buffer
 * (src/ui/editable_list.rs).
 *
 * The widget state (`ListState` or `TableState`) is reduced to the selected
 * index it holds. `T::default()` is the constant `defaultItem` fixed at
 * construction.
 */
module EditableLists {
  import opened Wrappers

  /** `options` with `x` inserted at `i`, as `Vec::insert` does. */
  function Inserted<T>(s: seq<T>, i: nat, x: T): (r: seq<T>)
    requires i <= |s|
    ensures |r| == |s| + 1 && r[i] == x
    ensures forall k :: 0 <= k < i ==> r[k] == s[k]
    ensures forall k :: i < k < |r| ==> r[k] == s[k - 1]
  {
    s[..i] + [x] + s[i..]
  }

  /** `options` without the element at `i`, as `Vec::remove` does. */
  function Removed<T>(s: seq<T>, i: nat): (r: seq<T>)
    requires i < |s|
    ensures |r| == |s| - 1
    ensures forall k :: 0 <= k < i ==> r[k] == s[k]
    ensures forall k :: i <= k < |r| ==> r[k] == s[k + 1]
  {
    s[..i] + s[i + 1..]
  }

  /** Removing what was just inserted gives the list back. */
  lemma RemoveUndoesInsert<T>(s: seq<T>, i: nat, x: T)
    requires i <= |s|
    ensures Removed(Inserted(s, i, x), i) == s
  {
    var r := Removed(Inserted(s, i, x), i);
    assert forall k :: 0 <= k < |s| ==> r[k] == s[k];
  }

  /** The index `select_prev` moves to: one up, wrapping from the top (or from no selection) to the bottom. */
  function PrevIndex(selected: Option<nat>, len: nat): (r: nat)
    requires len > 0 || (selected.Some? && selected.value > 0)
    ensures selected.Some? && selected.value > 0 ==> r + 1 == selected.value
    ensures selected.None? || selected == Some(0) ==> r + 1 == len
  {
    var current := selected.UnwrapOr(0);
    if current == 0 then len - 1 else current - 1
  }

  /** The index `select_next` moves to: one down, wrapping from the bottom (or from no selection) to the top. */
  function NextIndex(selected: Option<nat>, len: nat): (r: nat)
    requires len > 0
    ensures selected.None? || selected == Some(len - 1) ==> r == 0
    ensures selected.Some? && selected.value != len - 1 ==> r == selected.value + 1
  {
    var current := selected.UnwrapOr(len - 1);
    if current == len - 1 then 0 else current + 1
  }

  /** A selection inside the list. */
  predicate InRange(selected: Option<nat>, len: nat)
  {
    selected.Some? ==> selected.value < len
  }

  /** On a non-empty list both moves land inside it, from a valid selection or none. */
  lemma NavigationStaysInRange(selected: Option<nat>, len: nat)
    requires len > 0 && InRange(selected, len)
    ensures PrevIndex(selected, len) < len && NextIndex(selected, len) < len
  {
  }

  /** Moving down then up, or up then down, returns to a valid selection. */
  lemma NextPrevRoundTrip(s: nat, len: nat)
    requires s < len
    ensures PrevIndex(Some(NextIndex(Some(s), len)), len) == s
    ensures NextIndex(Some(PrevIndex(Some(s), len)), len) == s
  {
  }

  class EditableList<T> {
    var options: seq<T>
    var input: T
    var editing: bool
    /** The index held by `list_state`. */
    var selected: Option<nat>
    var capsLock: bool
    /** `T::default()`. */
    const defaultItem: T

    /** The selection, if any, points into `options`. */
    predicate Valid()
      reads this
    {
      InRange(selected, |options|)
    }

    /** `EditableList::new`: nothing selected, not editing, an empty input. */
    constructor (options: seq<T>, defaultItem: T)
      ensures this.options == options && this.defaultItem == defaultItem
      ensures input == defaultItem && !editing && selected == None && !capsLock
      ensures Valid()
    {
      this.options := options;
      this.defaultItem := defaultItem;
      input := defaultItem;
      editing := false;
      selected := None;
      capsLock := false;
    }

    /** `select_prev`. Rust's `len() - 1` underflows on an empty list when nothing above 0 is selected. */
    method SelectPrev()
      requires |options| > 0 || (selected.Some? && selected.value > 0)
      modifies this
      ensures options == old(options) && input == old(input) && editing == old(editing) && capsLock == old(capsLock)
      ensures selected == Some(PrevIndex(old(selected), |options|))
      ensures old(Valid()) ==> Valid()
    {
      var current := selected.UnwrapOr(0);
      var prev := if current == 0 then |options| - 1 else current - 1;
      selected := Some(prev);
    }

    /** `select_next`. It always computes `len() - 1`, so the list must not be empty. */
    method SelectNext()
      requires |options| > 0
      modifies this
      ensures options == old(options) && input == old(input) && editing == old(editing) && capsLock == old(capsLock)
      ensures selected == Some(NextIndex(old(selected), |options|))
      ensures old(Valid()) ==> Valid()
    {
      var current := selected.UnwrapOr(|options| - 1);
      var next := if current == |options| - 1 then 0 else current + 1;
      selected := Some(next);
    }

    /** `selected_is_last`: true exactly when `select_next` would wrap around to the top. */
    function SelectedIsLast(): (r: bool)
      reads this
      requires selected.Some? ==> |options| > 0
      ensures |options| > 0 ==> (r <==> NextIndex(selected, |options|) == 0)
      ensures selected.None? ==> r
    {
      match selected
      case None => true
      case Some(cur) => cur == |options| - 1
    }

    /** `start_editing`: select `defaultIndex` (or 0) if nothing is selected, and load that option into the input. */
    method StartEditing(defaultIndex: Option<nat>)
      requires (if selected.Some? then selected.value else defaultIndex.UnwrapOr(0)) < |options|
      modifies this
      ensures editing
      ensures selected == Some(if old(selected).Some? then old(selected).value else defaultIndex.UnwrapOr(0))
      ensures options == old(options) && capsLock == old(capsLock)
      ensures input == options[selected.value]
      ensures Valid()
    {
      editing := true;
      if selected.None? {
        selected := Some(defaultIndex.UnwrapOr(0));
      }
      var idx := selected.value;
      input := options[idx];
    }

    /** `save_edit`: write the input over the selected option and hand back its index and value. */
    method SaveEdit() returns (idx: nat, value: T)
      requires selected.Some? && selected.value < |options|
      modifies this
      ensures !editing
      ensures idx == old(selected).value && value == old(input)
      ensures options == old(options)[idx := old(input)]
      ensures input == defaultItem
      ensures selected == old(selected) && capsLock == old(capsLock)
      ensures Valid()
    {
      editing := false;
      value := input;
      input := defaultItem;
      idx := selected.value;
      options := options[idx := value];
    }

    /** `delete_selected`: remove the selected option and select the one above it, if any. */
    method DeleteSelected() returns (deleted: Option<nat>)
      requires selected.Some? ==> selected.value < |options|
      modifies this
      ensures deleted == old(selected)
      ensures old(selected).None? ==>
        options == old(options) && input == old(input) && selected == None
      ensures old(selected).Some? ==>
        var i := old(selected).value;
        && options == Removed(old(options), i)
        && selected == (if i > 0 then Some(i - 1) else None)
        && input == defaultItem
      ensures editing == old(editing) && capsLock == old(capsLock)
      ensures Valid()
    {
      deleted := selected;
      if selected.Some? {
        var i := selected.value;
        input := defaultItem;
        options := options[..i] + options[i + 1..];
        selected := if i > 0 then Some(i - 1) else None;
      }
    }

    /**
     * `insert_at_selection`: insert at the selected index (0 if none), so the
     * new item lands BEFORE the selected one and the selection stays put.
     */
    method InsertAtSelection(item: T) returns (idx: nat)
      requires selected.UnwrapOr(0) <= |options|
      modifies this
      ensures idx == old(selected).UnwrapOr(0)
      ensures options == Inserted(old(options), idx, item)
      ensures selected == old(selected) && input == old(input)
      ensures editing == old(editing) && capsLock == old(capsLock)
      ensures old(Valid()) ==> Valid()
    {
      idx := selected.UnwrapOr(0);
      options := options[..idx] + [item] + options[idx..];
    }

    /** `insert_default_at_selection`: insert `T::default()` at the selection. */
    method InsertDefaultAtSelection() returns (idx: nat, value: T)
      requires selected.UnwrapOr(0) <= |options|
      modifies this
      ensures value == defaultItem
      ensures idx == old(selected).UnwrapOr(0)
      ensures options == Inserted(old(options), idx, defaultItem)
      ensures selected == old(selected) && input == old(input)
      ensures editing == old(editing) && capsLock == old(capsLock)
      ensures old(Valid()) ==> Valid()
    {
      value := defaultItem;
      idx := InsertAtSelection(value);
    }

    /** `insert_at_selection_with`: insert `f` of the selected option (or of nothing). */
    method InsertAtSelectionWith(f: Option<T> -> T) returns (idx: nat, value: T)
      requires selected.Some? ==> selected.value < |options|
      modifies this
      ensures value == f(if old(selected).Some? then Some(old(options)[old(selected).value]) else None)
      ensures idx == old(selected).UnwrapOr(0)
      ensures options == Inserted(old(options), idx, value)
      ensures selected == old(selected) && input == old(input)
      ensures editing == old(editing) && capsLock == old(capsLock)
      ensures old(Valid()) ==> Valid()
    {
      var prior := if selected.Some? then Some(options[selected.value]) else None;
      value := f(prior);
      idx := InsertAtSelection(value);
    }
  }
}
