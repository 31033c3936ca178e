/**
 * The ride document of the schema: its five statuses (stored as their
 * enum strings), its fields, and the defaults the schema fills in when a
 * document is created.
 */
module RideModel {
  import opened Outcomes

  /** The status enum of the schema; `Requested` is its default. */
  datatype Status = Requested | Accepted | InProgress | Completed | Cancelled

  /** The enum values exactly as the schema lists them. */
  const StatusNames: seq<string> := ["requested", "accepted", "in_progress", "completed", "cancelled"]

  /** The string a status is stored as. */
  function StatusName(s: Status): (n: string)
    ensures n in StatusNames
  {
    match s
    case Requested => "requested"
    case Accepted => "accepted"
    case InProgress => "in_progress"
    case Completed => "completed"
    case Cancelled => "cancelled"
  }

  /**
   * The schema's enum validation of a status string: the status it
   * stands for, or None when the string is not one of the enum values
   * (matching is exact, so case matters).
   */
  function ParseStatus(n: string): (s: Option<Status>)
    ensures s.Some? <==> n in StatusNames
  {
    if n == "requested" then Some(Requested)
    else if n == "accepted" then Some(Accepted)
    else if n == "in_progress" then Some(InProgress)
    else if n == "completed" then Some(Completed)
    else if n == "cancelled" then Some(Cancelled)
    else None
  }

  /** Validation gives back the status a stored string came from... */
  lemma ParseStatusName(s: Status)
    ensures ParseStatus(StatusName(s)) == Some(s)
  {
  }

  /** ...and every string validation admits is the name of its status. */
  lemma StatusNameParse(n: string)
    requires ParseStatus(n).Some?
    ensures StatusName(ParseStatus(n).value) == n
  {
  }

  /**
   * A ride document. `rider` is required, `driver` optional; `pickup` and
   * `dropoff` are required strings; `notes` and `completedAt` are
   * optional. `requestedAt` is a schema path with a creation default;
   * `createdAt` and `updatedAt` are maintained by the schema's
   * `timestamps` option. Times are integers (milliseconds).
   */
  datatype Ride = Ride(
    rider: UserId,
    driver: Option<UserId>,
    pickup: string,
    dropoff: string,
    status: Status,
    notes: Option<string>,
    requestedAt: int,
    createdAt: int,
    updatedAt: int,
    completedAt: Option<int>)

  /** The required-path validation of the schema for a new document. */
  predicate RequiredPresent(rider: UserId, pickup: string, dropoff: string) {
    rider != "" && pickup != "" && dropoff != ""
  }

  /**
   * Creating a document at time `now` from the given paths: None when a
   * required path is missing (a validation error), otherwise the document
   * with every default filled in.
   */
  function Create(rider: UserId, pickup: string, dropoff: string, notes: Option<string>,
                  status: Option<Status>, requestedAt: Option<int>, now: int): (r: Option<Ride>)
    ensures r.Some? <==> RequiredPresent(rider, pickup, dropoff)
  {
    if !RequiredPresent(rider, pickup, dropoff) then None
    else
      Some(Ride(rider, None, pickup, dropoff,
                if status.Some? then status.value else Requested,
                notes,
                if requestedAt.Some? then requestedAt.value else now,
                now, now, None))
  }

  /**
   * The creation defaults: the given paths are kept, the status is
   * `requested` unless one is given, `requestedAt` is the creation time
   * unless one is given, no driver and no completion time are set, and
   * both timestamps are the creation time.
   */
  lemma CreateDefaults(rider: UserId, pickup: string, dropoff: string, notes: Option<string>,
                       status: Option<Status>, requestedAt: Option<int>, now: int)
    requires RequiredPresent(rider, pickup, dropoff)
    ensures var r := Create(rider, pickup, dropoff, notes, status, requestedAt, now).value;
      && r.rider == rider && r.pickup == pickup && r.dropoff == dropoff && r.notes == notes
      && (status.None? ==> r.status == Requested)
      && (status.Some? ==> r.status == status.value)
      && (requestedAt.None? ==> r.requestedAt == now)
      && (requestedAt.Some? ==> r.requestedAt == requestedAt.value)
      && r.driver.None? && r.completedAt.None?
      && r.createdAt == now && r.updatedAt == now
  {
  }
}
