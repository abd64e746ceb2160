/**
 * The organiser's event list: the status badge, each row's sold count and capacity bar,
 * and the choice of title and endpoint between an administrator and an organiser.
 */
module MyEvents {
  import opened Wrappers
  import opened Seqs
  import opened Text
  import opened Ratios

  // ---------------------------------------------------------------- status badge

  const Gray: string := "bg-gray-200 text-gray-800"
  const Green: string := "bg-green-200 text-green-800"
  const Red: string := "bg-red-200 text-red-800"
  const Blue: string := "bg-blue-200 text-blue-800"

  /** The badge style: looked up by the lower-cased status, gray when there is none. */
  function StatusStyle(status: string): (style: string)
    ensures style == Green <==> Lower(status) == "activo"
    ensures style == Red <==> Lower(status) == "cancelado"
    ensures style == Blue <==> Lower(status) == "finalizado"
    ensures style == Gray <==> Lower(status) != "activo" && Lower(status) != "cancelado" &&
                               Lower(status) != "finalizado"
  {
    var key := Lower(status);
    if key == "programado" then Gray
    else if key == "activo" then Green
    else if key == "cancelado" then Red
    else if key == "finalizado" then Blue
    else Gray
  }

  /** The style does not depend on how the status is capitalised. */
  lemma StyleIgnoresCase(status: string)
    ensures StatusStyle(status) == StatusStyle(Lower(status))
  {
    LowerIdempotent(status);
  }

  // ---------------------------------------------------------------- one row

  /** One availability entry: the row reads only how many were sold. */
  datatype Availability = Availability(capacitySold: nat)

  function SoldOf(a: Availability): int { a.capacitySold }

  /** The row's sold count (`None` is `null`) and whether it still shows the placeholder. */
  datatype SoldState = SoldState(sold: Option<nat>, loadingSold: bool)

  const InitialSold: SoldState := SoldState(None, true)

  /**
   * The row's availability effect, given the session token, the event id and the reply
   * (`None` when the request fails): without a token or an id nothing happens; otherwise
   * the sold count is the sum over the reply, or 0 on failure, and the placeholder goes.
   */
  function FetchSold(token: Option<string>, eventId: nat, reply: Option<seq<Availability>>): (st: SoldState)
    ensures !Truthy(token) || eventId == 0 ==> st == InitialSold
    ensures Truthy(token) && eventId != 0 ==> !st.loadingSold && st.sold.Some?
    ensures Truthy(token) && eventId != 0 && reply.None? ==> st.sold == Some(0)
    ensures Truthy(token) && eventId != 0 && reply.Some? ==> st.sold.value == Sum(reply.value, SoldOf)
  {
    if !Truthy(token) || eventId == 0 then InitialSold
    else if reply.None? then SoldState(Some(0), false)
    else
      SumNonNegative(reply.value, SoldOf);
      SoldState(Some(Sum(reply.value, SoldOf) as nat), false)
  }

  /** The row's capacity bar: `max_capacity || 0`, and 0 until the sold count is known. */
  function RowProgress(maxCapacity: Option<nat>, sold: Option<nat>): (p: real)
    ensures sold.None? || maxCapacity.GetOr(0) == 0 ==> p == 0.0
    ensures p >= 0.0
  {
    var total := maxCapacity.GetOr(0);
    if total > 0 && sold.Some? then Percent(sold.value, total) else 0.0
  }

  /** With no more sold than the capacity the bar stays within its track, and more sold never shortens it. */
  lemma RowProgressBounds(maxCapacity: Option<nat>, sold: nat, more: nat)
    requires sold <= maxCapacity.GetOr(0)
    requires sold <= more
    ensures RowProgress(maxCapacity, Some(sold)) <= 100.0
    ensures RowProgress(maxCapacity, Some(sold)) <= RowProgress(maxCapacity, Some(more))
  {
    PercentAtMostHundred(sold, maxCapacity.GetOr(0));
    PercentMonotone(sold, more, maxCapacity.GetOr(0));
  }

  // ---------------------------------------------------------------- page

  /** The signed-in user, as far as this page reads it. */
  datatype User = User(isSuperuser: bool)

  const AdminTitle: string := "Gestión de Eventos"
  const OrganizerTitle: string := "Mis Eventos"
  const AuthRequired: string := "Autenticación requerida."
  const AllEventsPath: string := "/events/"
  const OwnEventsPath: string := "/organizer/my-events/"

  /** `user?.is_superuser`, with a missing user counting as false. */
  predicate IsAdmin(user: Option<User>)
  {
    user.Some? && user.value.isSuperuser
  }

  function PageTitle(user: Option<User>): (title: string)
    ensures title == AdminTitle <==> IsAdmin(user)
    ensures title == AdminTitle || title == OrganizerTitle
  {
    if IsAdmin(user) then AdminTitle else OrganizerTitle
  }

  /** What the list's effect starts: an error without a session, a request otherwise. */
  datatype LoadStart = AuthError(message: string) | FetchEvents(path: string)

  function StartLoad(token: Option<string>, user: Option<User>): (r: LoadStart)
    ensures r.AuthError? <==> !Truthy(token) || user.None?
    ensures r.AuthError? ==> r.message == AuthRequired
    ensures r.FetchEvents? ==> (r.path == AllEventsPath <==> IsAdmin(user))
    ensures r.FetchEvents? ==> r.path == AllEventsPath || r.path == OwnEventsPath
  {
    if !Truthy(token) || user.None? then AuthError(AuthRequired)
    else if IsAdmin(user) then FetchEvents(AllEventsPath)
    else FetchEvents(OwnEventsPath)
  }

  /** The page announces every event exactly when it asks for every event. */
  lemma TitleMatchesEndpoint(token: Option<string>, user: Option<User>)
    requires StartLoad(token, user).FetchEvents?
    ensures PageTitle(user) == AdminTitle <==> StartLoad(token, user).path == AllEventsPath
  {
  }
}
