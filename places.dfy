/** The destination catalogue shared by the destination dialogs
    (src/components/DestinationModal.tsx and src/components/DestinationAlertModal.tsx
    declare the same list and coordinate table) and the "" guard of their distance
    labels. */
module Places {
  import opened Wrappers
  import opened Lists

  /** The five destinations, in display order. */
  const Destinations: seq<string> := ["대전지질박물관", "대전근현대사관", "대전철도관사촌", "엑스포과학공원", "국립중앙과학관"]

  /** The keys of the dialogs' `destinationCoordinates` table. */
  const CoordinateNames: set<string> := {"대전지질박물관", "대전근현대사관", "대전철도관사촌", "엑스포과학공원", "국립중앙과학관"}

  /** A device position; the distance arithmetic on it is not modelled. */
  datatype Location = Location(lat: real, lng: real)

  /** Every listed destination has coordinates, and none is listed twice or is "". */
  lemma CatalogueWellFormed()
    ensures forall i :: 0 <= i < |Destinations| ==> Destinations[i] in CoordinateNames && Destinations[i] != ""
    ensures NoDuplicates(Destinations)
    ensures forall name :: name in CoordinateNames ==> name in Destinations
  {
  }

  /** `getDestinationDistance`: "" without a current position or for a name without
      coordinates; otherwise the formatted distance `measured` (a metre or kilometre
      figure followed by its unit, never empty). */
  function DistanceLabel(table: set<string>, name: string, here: Option<Location>, measured: string): (r: string)
    requires measured != ""
    ensures r == "" <==> here.None? || name !in table
    ensures r != "" ==> r == measured
  {
    if here.None? || name !in table then "" else measured
  }
}
