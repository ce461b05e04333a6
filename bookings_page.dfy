/** The bookings page: hide externally billed bookings, label and colour the check-in statuses. */
module BookingsPage {
  import opened Js
  import opened Lists

  /** The page state: the bookings shown and the loading flag. */
  datatype BookingsState = BookingsState(bookings: seq<Record>, loading: bool)

  const Initial: BookingsState := BookingsState([], true)

  /** `b.billingMethod !== "external"`: a booking without a billing method is shown. */
  predicate Shown(b: Record)
  {
    Field(b, "billingMethod") != Str("external")
  }

  /** The load: every booking not billed externally, in order, then `loading` off. */
  function Load(s: BookingsState, data: seq<Record>): (r: BookingsState)
    ensures !r.loading
    ensures IsSubsequence(r.bookings, data)
    ensures forall b :: b in r.bookings <==> b in data && Shown(b)
    ensures forall b :: multiset(r.bookings)[b] == if Shown(b) then multiset(data)[b] else 0
  {
    FilterSpec(data, Shown);
    forall b | b in data && Shown(b) ensures b in Filter(data, Shown) {
      assert multiset(data)[b] > 0;
    }
    BookingsState(Filter(data, Shown), false)
  }

  /** The labels of the four known status codes. */
  const StatusLabels: map<string, string> := map[
    "notCheckedIn" := "Didn't CheckIn",
    "checkedIn" := "CheckedIn",
    "canceled" := "Canceled",
    "CanceledFirst" := "Canceled First"]

  /**
   * `statusTextMap[status || ""] || status || ""`: a known code shows its
   * label, any other status is shown as it is, a missing one as the empty string.
   */
  function StatusText(status: Value): (r: Value)
    ensures status.Str? && status.s in StatusLabels ==> r == Str(StatusLabels[status.s])
    ensures status.Str? && status.s !in StatusLabels ==> r == status
    ensures Nullish(status) ==> r == Str("")
    ensures (r.Str? && r.s in StatusLabels.Values) || r == status || r == Str("")
  {
    var key := ToStr(Or(status, Str("")));
    if key in StatusLabels then Str(StatusLabels[key]) else Or(status, Str(""))
  }

  const Alert: string := "text-red-600"
  const Fine: string := "text-green-700"

  /** The three codes shown in red. */
  predicate IsAlertStatus(status: Value)
  {
    status == Str("notCheckedIn") || status == Str("canceled") || status == Str("CanceledFirst")
  }

  /** The colour of a status column (host column in both views, guest column on mobile): red iff an alert status, else green. */
  function StatusColour(status: Value): (r: string)
    ensures r == Alert <==> IsAlertStatus(status)
    ensures r == Fine <==> !IsAlertStatus(status)
  {
    if IsAlertStatus(status) then Alert else Fine
  }

  /** The desktop guest column as the page writes it: its fallback is another red, not green. */
  function DesktopGuestColourAsWritten(status: Value): (r: string)
    ensures IsAlertStatus(status) ==> r == Alert
    ensures !IsAlertStatus(status) ==> r == "text-red-700"
  {
    if IsAlertStatus(status) then Alert else "text-red-700"
  }

  /** A checked-in guest is shown green on mobile but red on the desktop table. */
  lemma DesktopGuestColourDisagrees(status: Value)
    requires !IsAlertStatus(status)
    ensures DesktopGuestColourAsWritten(status) != StatusColour(status)
    ensures DesktopGuestColourAsWritten(Str("checkedIn")) == "text-red-700" && StatusColour(Str("checkedIn")) == Fine
  {
  }

  /** What one booking shows: the two status texts and their colours. */
  datatype StatusCells = StatusCells(hostText: Value, guestText: Value, hostColour: string, guestColour: string)

  /**
   * The status cells of one booking as the mobile view shows them, which is
   * also the colouring the desktop view evidently intends: both columns are
   * red exactly for the alert statuses and green otherwise. The desktop
   * guest column as written is `DesktopGuestColourAsWritten`.
   */
  function Cells(b: Record): (r: StatusCells)
    ensures r.hostText == StatusText(Field(b, "hostStatus")) && r.guestText == StatusText(Field(b, "guestStatus"))
    ensures r.hostColour == Alert <==> IsAlertStatus(Field(b, "hostStatus"))
    ensures r.hostColour == Fine <==> !IsAlertStatus(Field(b, "hostStatus"))
    ensures r.guestColour == Alert <==> IsAlertStatus(Field(b, "guestStatus"))
    ensures r.guestColour == Fine <==> !IsAlertStatus(Field(b, "guestStatus"))
  {
    var host := Field(b, "hostStatus");
    var guest := Field(b, "guestStatus");
    StatusCells(StatusText(host), StatusText(guest), StatusColour(host), StatusColour(guest))
  }
}
