/** The single-pick destination dialog (src/components/DestinationModal.tsx): it lists
    the destinations not yet in the itinerary and holds one current pick. */
module DestinationModal {
  import opened Wrappers
  import opened Lists
  import opened Places

  const AllSelectedMessage := "모든 목적지를 선택했습니다!"

  /** The destinations still offered: the catalogue minus the already selected names. */
  function Available(selected: seq<string>): (r: seq<string>)
    ensures |r| <= |Destinations|
  {
    Exclude(Destinations, selected)
  }

  /** What the list area shows: the offered names, or the "all selected" message. */
  datatype Listing = Offered(names: seq<string>) | AllSelected(message: string)

  function ListingFor(selected: seq<string>): (r: Listing)
    ensures r.Offered? <==> Available(selected) != []
    ensures r.Offered? ==> r.names == Available(selected)
    ensures r.AllSelected? ==> r.message == AllSelectedMessage
  {
    var names := Available(selected);
    if |names| > 0 then Offered(names) else AllSelected(AllSelectedMessage)
  }

  /** A destination is offered iff it is in the catalogue and not yet selected. */
  lemma AvailableMembers(selected: seq<string>, d: string)
    ensures d in Available(selected) <==> d in Destinations && d !in selected
  {
    ExcludeMembers(Destinations, selected);
  }

  /** The offered list has no duplicates and keeps the catalogue order: with nothing
      selected it is the whole catalogue. */
  lemma AvailableShape(selected: seq<string>)
    ensures NoDuplicates(Available(selected))
    ensures Available([]) == Destinations
  {
    CatalogueWellFormed();
    ExcludeNoDuplicates(Destinations, selected);
    ExcludeNone(Destinations, []);
  }

  /** The "all selected" message appears exactly when every destination is selected. */
  lemma AllSelectedIff(selected: seq<string>)
    ensures ListingFor(selected).AllSelected? <==> forall d :: d in Destinations ==> d in selected
  {
    ExcludeMembers(Destinations, selected);
    if Available(selected) != [] {
      assert Available(selected)[0] in Available(selected);
    }
  }

  /** An itinerary of three slots can never select all five destinations, so the
      message is never shown from the planning screen. */
  lemma ThreeSlotsLeaveChoices(slots: seq<string>)
    requires |slots| == 3
    ensures ListingFor(slots).Offered?
  {
    AllSelectedIff(slots);
    CatalogueWellFormed();
    if forall d :: d in Destinations ==> d in slots {
      var s := set d | d in Destinations;
      var t := set d | d in slots;
      assert s <= t;
      SetOfSeqSize(slots);
      assert |s| == 5 by { DistinctSetSize(Destinations); }
      assert |t| <= 3;
      SubsetSize(s, t);
      assert false;
    }
  }

  lemma {:induction false} SetOfSeqSize(xs: seq<string>)
    ensures |set d | d in xs| <= |xs|
  {
    if xs != [] {
      SetOfSeqSize(xs[1..]);
      assert (set d | d in xs) == (set d | d in xs[1..]) + {xs[0]};
    }
  }

  lemma {:induction false} DistinctSetSize(xs: seq<string>)
    requires NoDuplicates(xs)
    ensures |set d | d in xs| == |xs|
  {
    if xs != [] {
      assert NoDuplicates(xs[1..]) by {
        forall i, j | 0 <= i < j < |xs[1..]| ensures xs[1..][i] != xs[1..][j] {
          assert xs[1..][i] == xs[i + 1] && xs[1..][j] == xs[j + 1];
        }
      }
      DistinctSetSize(xs[1..]);
      assert xs[0] !in xs[1..];
      assert (set d | d in xs) == (set d | d in xs[1..]) + {xs[0]};
    }
  }

  lemma SubsetSize(s: set<string>, t: set<string>)
    requires s <= t
    ensures |s| <= |t|
  {
    assert t == s + (t - s);
  }

  class PickModal {
    /** `selectedDestination`; "" when nothing is picked. */
    var pick: string

    constructor ()
      ensures pick == ""
    {
      pick := "";
    }

    /** The effect run when `visible` changes: becoming invisible clears the pick. */
    method VisibleChanged(visible: bool)
      modifies this`pick
      ensures !visible ==> pick == ""
      ensures visible ==> pick == old(pick)
    {
      if !visible {
        pick := "";
      }
    }

    /** `handleDestinationSelect`: the new pick replaces the old one. */
    method Select(destination: string)
      modifies this`pick
      ensures pick == destination
    {
      pick := destination;
    }

    /** `handleConfirm`: with a pick, hands it to `onSelectDestination`, clears it and
        closes; without one, does nothing. */
    method Confirm() returns (chosen: Option<string>)
      modifies this`pick
      ensures old(pick) != "" ==> chosen == Some(old(pick)) && pick == ""
      ensures old(pick) == "" ==> chosen == None && pick == old(pick)
    {
      if pick != "" {
        chosen := Some(pick);
        pick := "";
      } else {
        chosen := None;
      }
    }

    /** `handleClose`: clears the pick before `onClose` runs. */
    method HandleClose()
      modifies this`pick
      ensures pick == ""
    {
      pick := "";
    }
  }
}
