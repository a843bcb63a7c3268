/** The status badge of a shipment-tracking card: colour, text and icon per status string. */
module TrackingCard {
  import opened StatusTypes

  /** The badge colour of a status the switch does not list. */
  const UnknownColor := "#6B7280"

  predicate IsKnown(status: string) {
    status == "preparing" || status == "in_transit" || status == "partially_arrived" ||
    status == "completed" || status == "cancelled"
  }

  lemma KnownAreTheTrackingStatuses(status: string)
    ensures IsKnown(status) <==> exists s: TrackingStatus :: TrackingName(s) == status
  {
    if IsKnown(status) {
      if status == "preparing" { assert TrackingName(Preparing) == status; }
      else if status == "in_transit" { assert TrackingName(InTransit) == status; }
      else if status == "partially_arrived" { assert TrackingName(PartiallyArrived) == status; }
      else if status == "completed" { assert TrackingName(Completed) == status; }
      else { assert TrackingName(TrackingStatus.Cancelled) == status; }
    }
  }

  /** `getStatusColor`: one colour per tracking status, gray for anything else. */
  function StatusColor(status: string): (r: string)
    ensures !IsKnown(status) ==> r == UnknownColor
  {
    match status
    case "preparing" => "#F59E0B"
    case "in_transit" => "#3B82F6"
    case "partially_arrived" => "#8B5CF6"
    case "completed" => "#10B981"
    case "cancelled" => "#EF4444"
    case _ => UnknownColor
  }

  /** `getStatusText`: a fixed label for each known status, the string itself otherwise. */
  function StatusText(status: string): (r: string)
    ensures !IsKnown(status) ==> r == status
    ensures IsKnown(status) ==> r != status && !IsKnown(r)
  {
    match status
    case "preparing" => "Preparing"
    case "in_transit" => "In Transit"
    case "partially_arrived" => "Partially Arrived"
    case "completed" => "Completed"
    case "cancelled" => "Cancelled"
    case _ => status
  }

  /** `getStatusIcon`: one icon per tracking status; anything else shows the parcel icon of 'preparing'. */
  function StatusIcon(status: string): (r: string)
    ensures !IsKnown(status) ==> r == "📦"
    ensures status == "completed" ==> r == "✅"
    ensures status == "cancelled" ==> r == "❌"
  {
    match status
    case "preparing" => "📦"
    case "in_transit" => "🚚"
    case "partially_arrived" => "📋"
    case "completed" => "✅"
    case "cancelled" => "❌"
    case _ => "📦"
  }

  /** The five statuses get five distinct colours, none of them the colour of an unknown status. */
  lemma StatusColorsDistinct()
    ensures forall a: TrackingStatus, b: TrackingStatus :: a != b ==> StatusColor(TrackingName(a)) != StatusColor(TrackingName(b))
    ensures forall a: TrackingStatus :: StatusColor(TrackingName(a)) != UnknownColor
  {
  }

  /** Applying the label mapping to a label changes nothing more. */
  lemma StatusTextIdempotent(status: string)
    ensures StatusText(StatusText(status)) == StatusText(status)
  {
  }

  /** Each status gets its own label. */
  lemma StatusTextsDistinct()
    ensures forall a: TrackingStatus, b: TrackingStatus :: a != b ==> StatusText(TrackingName(a)) != StatusText(TrackingName(b))
  {
  }

  /** An unknown status shows the same icon as 'preparing'; the five statuses show five distinct icons. */
  lemma StatusIconFallback(status: string)
    ensures !IsKnown(status) ==> StatusIcon(status) == StatusIcon("preparing")
    ensures forall a: TrackingStatus, b: TrackingStatus :: a != b ==> StatusIcon(TrackingName(a)) != StatusIcon(TrackingName(b))
  {
  }
}
