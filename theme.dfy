/**
 * `getConservationColor` of src/styles/theme.ts: the colour the interface shows for a
 * conservation status string.
 */
module Theme {
  import opened Types

  /** The conservation palette of the theme (`theme.colors.conservation`). */
  function ConservationColor(s: ConservationStatus): string {
    match s
    case LeastConcern => "#4CAF50"
    case NearThreatened => "#8BC34A"
    case Vulnerable => "#FFC107"
    case Endangered => "#FF9800"
    case CriticallyEndangered => "#F44336"
    case ExtinctInWild => "#9C27B0"
    case Extinct => "#424242"
  }

  /** The lookup table of `getConservationColor`, keyed by status string. */
  function StatusColorMap(): map<string, string> {
    map[
      "Least Concern" := ConservationColor(LeastConcern),
      "Near Threatened" := ConservationColor(NearThreatened),
      "Vulnerable" := ConservationColor(Vulnerable),
      "Endangered" := ConservationColor(Endangered),
      "Critically Endangered" := ConservationColor(CriticallyEndangered),
      "Extinct in the Wild" := ConservationColor(ExtinctInWild),
      "Extinct" := ConservationColor(Extinct)]
  }

  /**
   * `getConservationColor(status)`: the colour of the status the string names, and the
   * least-concern colour for any other string.
   */
  function GetConservationColor(status: string): (r: string)
    ensures forall s :: status == StatusValue(s) ==> r == ConservationColor(s)
    ensures (forall s :: status != StatusValue(s)) ==> r == ConservationColor(LeastConcern)
    ensures exists s :: r == ConservationColor(s)
  {
    var statusMap := StatusColorMap();
    var color := if status in statusMap then statusMap[status] else ConservationColor(LeastConcern);
    assert status in statusMap ==> exists s :: status == StatusValue(s) by {
      if status == "Least Concern" { assert status == StatusValue(LeastConcern); }
      else if status == "Near Threatened" { assert status == StatusValue(NearThreatened); }
      else if status == "Vulnerable" { assert status == StatusValue(Vulnerable); }
      else if status == "Endangered" { assert status == StatusValue(Endangered); }
      else if status == "Critically Endangered" { assert status == StatusValue(CriticallyEndangered); }
      else if status == "Extinct in the Wild" { assert status == StatusValue(ExtinctInWild); }
      else if status == "Extinct" { assert status == StatusValue(Extinct); }
    }
    color
  }

  /** Every `ConservationStatus` value is a key of the table, so none falls to the default. */
  lemma EveryStatusIsAKey(s: ConservationStatus)
    ensures StatusValue(s) in StatusColorMap()
    ensures StatusColorMap()[StatusValue(s)] == ConservationColor(s)
  {
    match s
    case LeastConcern =>
    case NearThreatened =>
    case Vulnerable =>
    case Endangered =>
    case CriticallyEndangered =>
    case ExtinctInWild =>
    case Extinct =>
  }

  /** The seven statuses have seven different colours. */
  lemma ColorsDistinct(s: ConservationStatus, t: ConservationStatus)
    requires s != t
    ensures ConservationColor(s) != ConservationColor(t)
  {
  }
}
