/** The "set all destinations" dialog (src/components/DestinationAlertModal.tsx): an
    ordered selection of at most three distinct destinations, toggled one at a time. */
module DestinationAlertModal {
  import opened Wrappers
  import opened Lists

  const MaxSelection: nat := 3

  class AlertModal {
    /** `selectedDestinations`, in the order they were picked. */
    var selected: seq<string>

    /** At most three picks, no name twice, none empty. */
    ghost predicate Valid()
      reads this
    {
      && |selected| <= MaxSelection
      && NoDuplicates(selected)
      && (forall x :: x in selected ==> x != "")
    }

    constructor ()
      ensures Valid() && selected == []
    {
      selected := [];
    }

    /** The effect run when `visible` changes: opening the dialog clears the picks. */
    method VisibleChanged(visible: bool)
      requires Valid()
      modifies this`selected
      ensures Valid()
      ensures visible ==> selected == []
      ensures !visible ==> selected == old(selected)
    {
      if visible {
        selected := [];
      }
    }

    /** `handleDestinationToggle` for a name from the rendered list (every listed name
        is non-empty): a picked name is removed, keeping the order of the others; a new
        name is appended unless three are already picked. */
    method Toggle(destination: string)
      requires Valid() && destination != ""
      modifies this`selected
      ensures Valid()
      ensures destination in old(selected) ==> selected == Exclude(old(selected), [destination])
      ensures destination !in old(selected) && |old(selected)| >= MaxSelection ==> selected == old(selected)
      ensures destination !in old(selected) && |old(selected)| < MaxSelection ==> selected == old(selected) + [destination]
    {
      if destination in selected {
        ExcludeNoDuplicates(selected, [destination]);
        ExcludeMembers(selected, [destination]);
        selected := Exclude(selected, [destination]);
      } else if |selected| >= MaxSelection {
      } else {
        selected := selected + [destination];
      }
    }

    /** `handleSetAll`: with three picks, hands the first three (in pick order) to
        `onSetAllDestinations` and closes; otherwise does nothing. It never changes the
        selection itself. */
    method SetAll() returns (chosen: Option<seq<string>>)
      requires Valid()
      ensures chosen.Some? <==> |selected| >= MaxSelection
      ensures chosen.Some? ==> chosen.value == selected[..MaxSelection]
      ensures chosen.Some? ==> |chosen.value| == 3 && NoDuplicates(chosen.value)
      ensures chosen.Some? ==> forall i :: 0 <= i < 3 ==> chosen.value[i] != ""
    {
      if |selected| >= MaxSelection {
        chosen := Some(selected[..MaxSelection]);
        assert chosen.value == selected;
        assert forall i :: 0 <= i < 3 ==> selected[i] in selected;
      } else {
        chosen := None;
      }
    }

    /** `handleClose`: the picks are cleared before `onClose` runs. */
    method HandleClose()
      modifies this`selected
      ensures Valid() && selected == []
    {
      selected := [];
    }
  }

  /** Un-toggling the name at position `k` deletes just that position. */
  lemma UntoggleDeletesOne(selected: seq<string>, k: nat)
    requires NoDuplicates(selected) && k < |selected|
    ensures Exclude(selected, [selected[k]]) == selected[..k] + selected[k + 1..]
  {
    OccursOnlyAt(selected, k);
    RemoveOnce(selected[..k], selected[k], selected[k + 1..]);
  }

  /** Toggling a new name twice, with room for it, restores the selection. */
  method ToggleTwiceRestores(modal: AlertModal, d: string)
    requires modal.Valid() && d != "" && d !in modal.selected && |modal.selected| < MaxSelection
    modifies modal
    ensures modal.Valid() && modal.selected == old(modal.selected)
  {
    ghost var before := modal.selected;
    modal.Toggle(d);
    assert modal.selected == before + [d];
    AppendThenRemove(before, d);
    modal.Toggle(d);
  }

  /** A freshly opened dialog in which three different destinations are toggled hands
      exactly those three, in toggle order, to "set all". */
  method PickThree(a: string, b: string, c: string) returns (chosen: Option<seq<string>>)
    requires a != "" && b != "" && c != ""
    requires a != b && b != c && a != c
    ensures chosen == Some([a, b, c])
  {
    var modal := new AlertModal();
    modal.VisibleChanged(true);
    modal.Toggle(a);
    assert modal.selected == [a];
    modal.Toggle(b);
    assert modal.selected == [a, b];
    modal.Toggle(c);
    assert modal.selected == [a, b, c] && modal.selected[..MaxSelection] == [a, b, c];
    chosen := modal.SetAll();
  }
}
