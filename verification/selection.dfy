/** The selected sub-option ids of a certification: toggling an option card
    and the three "deselect" controls of the combined security card. */
module Selection {
  import opened Optional
  import opened Catalog

  /** No id occurs twice. */
  predicate NoDuplicates(s: seq<string>) {
    forall i, j :: 0 <= i < j < |s| ==> s[i] != s[j]
  }

  /** `sel.filter(x => x !== id)`: every occurrence of `id` goes, the other
      ids stay in their order. */
  function Remove(sel: seq<string>, id: string): (r: seq<string>)
    ensures id !in r
    ensures forall x :: x != id ==> (x in r <==> x in sel)
    ensures |r| <= |sel|
    ensures id !in sel ==> r == sel
    ensures NoDuplicates(sel) ==> NoDuplicates(r)
  {
    if |sel| == 0 then []
    else if sel[0] == id then Remove(sel[1..], id)
    else
      var rest := Remove(sel[1..], id);
      assert NoDuplicates(sel) ==> sel[0] !in sel[1..] && NoDuplicates(sel[1..]);
      assert NoDuplicates(sel) ==> sel[0] !in rest;
      [sel[0]] + rest
  }

  /** Removal distributes over concatenation. */
  lemma {:induction false} RemoveConcat(a: seq<string>, b: seq<string>, id: string)
    ensures Remove(a + b, id) == Remove(a, id) + Remove(b, id)
  {
    if |a| == 0 {
      assert a + b == b;
    } else {
      assert (a + b)[1..] == a[1..] + b;
      RemoveConcat(a[1..], b, id);
    }
  }

  /** The sub-option card click: a selected id has all its occurrences
      removed, an unselected one is appended at the end. */
  function Toggle(sel: seq<string>, id: string): (r: seq<string>)
    ensures id in r <==> id !in sel
    ensures forall x :: x != id ==> (x in r <==> x in sel)
    ensures id !in sel ==> r == sel + [id]
    ensures NoDuplicates(sel) ==> NoDuplicates(r)
  {
    if id in sel then Remove(sel, id) else sel + [id]
  }

  /** Apart from `id`, a toggle leaves the selection exactly as it was, same
      ids in the same order. */
  lemma ToggleKeepsOthersInOrder(sel: seq<string>, id: string)
    ensures Remove(Toggle(sel, id), id) == Remove(sel, id)
  {
    if id !in sel {
      RemoveConcat(sel, [id], id);
      assert Remove([id], id) == [];
    }
  }

  /** Toggling an unselected id twice restores the selection. */
  lemma ToggleTwiceRestores(sel: seq<string>, id: string)
    requires id !in sel
    ensures Toggle(Toggle(sel, id), id) == sel
  {
    RemoveConcat(sel, [id], id);
    assert Remove([id], id) == [];
  }

  /** The three controls of the combined Code Security + Secret Security card. */
  datatype ComboDeselect =
    | CollapseCombo   // header click: drop Secret Security, keep the rest
    | KeepSecretOnly  // Code Security label or checkbox
    | KeepCodeOnly    // Secret Security label or checkbox

  /** The selection a combined-card control writes, given the current one
      (`cert.selectedSubOptions?.filter(...) || []` for the header). */
  function Deselect(current: Option<seq<string>>, action: ComboDeselect): (r: seq<string>)
    ensures !(CodeSecurityId in r && SecretSecurityId in r)
    ensures action == CollapseCombo ==>
      forall x :: x in r <==> x in current.GetOr([]) && x != SecretSecurityId
    ensures action == KeepSecretOnly ==> r == [SecretSecurityId]
    ensures action == KeepCodeOnly ==> r == [CodeSecurityId]
  {
    match action
    case CollapseCombo => Remove(current.GetOr([]), SecretSecurityId)
    case KeepSecretOnly => [SecretSecurityId]
    case KeepCodeOnly => [CodeSecurityId]
  }

  /** On the selection the combined card shows after two clicks, the header
      control leaves exactly Code Security. */
  lemma CollapseLeavesCode(current: seq<string>)
    requires current == [CodeSecurityId, SecretSecurityId] || current == [SecretSecurityId, CodeSecurityId]
    ensures Deselect(Some(current), CollapseCombo) == [CodeSecurityId]
  {
    assert CodeSecurityId != SecretSecurityId by {
      assert CodeSecurityId[0] != SecretSecurityId[0];
    }
    var c := CodeSecurityId;
    var sec := SecretSecurityId;
    if current == [c, sec] {
      assert Remove([sec], sec) == [];
      assert Remove([c, sec], sec) == [c] + Remove([sec], sec);
    } else {
      assert Remove([c], sec) == [c] + Remove([], sec);
      assert Remove([sec, c], sec) == Remove([c], sec);
    }
  }
}
