/** The dashboard overview: property, user and booking counts and the total earnings. */
module DashboardPage {
  import opened Wrappers
  import opened Js
  import opened Lists
  import opened Service
  import BookingsPage

  /** The page state, as its setters leave it. */
  datatype DashboardState = DashboardState(
    totalProperties: int, recentProperties: seq<Record>, totalUsers: int, loading: bool,
    userEmail: string, totalBookings: int, totalEarnings: Value)

  const Initial: DashboardState := DashboardState(0, [], 0, true, "", 0, Num(0))

  /** A value `+` can meet here: never `undefined`, because every operand went through `|| 0`. */
  predicate Addable(v: Value)
  {
    !v.Undefined?
  }

  /** `ToNumber` for the operands that are not strings, arrays or objects. */
  function NumberOf(v: Value): int
  {
    match v
    case Bool(b) => if b then 1 else 0
    case Num(n) => n
    case _ => 0
  }

  /** Whether `+` turns this operand into text: strings, and arrays and objects through their text form. */
  predicate Textual(v: Value)
  {
    v.Str? || v.Arr? || v.Obj?
  }

  /** JavaScript `a + b`: concatenation as soon as one side is textual, numeric addition otherwise. */
  function JsAdd(a: Value, b: Value): (r: Value)
    requires Addable(a) && Addable(b)
    ensures Textual(a) || Textual(b) ==> r == Str(ToStr(a) + ToStr(b))
    ensures !Textual(a) && !Textual(b) ==> r.Num?
    ensures a.Num? && b.Num? ==> r == Num(a.n + b.n)
  {
    if Textual(a) || Textual(b) then Str(ToStr(a) + ToStr(b)) else Num(NumberOf(a) + NumberOf(b))
  }

  /** `b.paid || 0` */
  function Paid(b: Record): (r: Value)
    ensures Addable(r)
    ensures Truthy(Field(b, "paid")) ==> r == Field(b, "paid")
    ensures !Truthy(Field(b, "paid")) ==> r == Num(0)
  {
    Or(Field(b, "paid"), Num(0))
  }

  /** `bookings.reduce((sum, b) => sum + (b.paid || 0), 0)`, folded from the left. */
  function Earnings(bookings: seq<Record>): (r: Value)
    ensures Addable(r)
  {
    if bookings == [] then Num(0)
    else JsAdd(Earnings(bookings[..|bookings| - 1]), Paid(bookings[|bookings| - 1]))
  }

  /** A booking whose `paid`, after `|| 0`, is a number or `true`. */
  predicate NumericPaid(b: Record)
  {
    !Textual(Paid(b))
  }

  /** The integer sum of the paid amounts. */
  function PaidSum(bookings: seq<Record>): int
  {
    if bookings == [] then 0
    else PaidSum(bookings[..|bookings| - 1]) + NumberOf(Paid(bookings[|bookings| - 1]))
  }

  /** With every `paid` numeric or falsy, the earnings are the number that sums them. */
  lemma {:induction false} EarningsIsSum(bookings: seq<Record>)
    requires forall i :: 0 <= i < |bookings| ==> NumericPaid(bookings[i])
    ensures Earnings(bookings) == Num(PaidSum(bookings))
  {
    if bookings != [] {
      EarningsIsSum(bookings[..|bookings| - 1]);
    }
  }

  /** A single textual `paid` turns the total into text from that booking on. */
  lemma {:induction false} TextualPaidMakesText(bookings: seq<Record>, k: nat)
    requires k < |bookings| && Textual(Paid(bookings[k]))
    ensures Earnings(bookings).Str?
  {
    if k < |bookings| - 1 {
      var prefix := bookings[..|bookings| - 1];
      assert prefix[k] == bookings[k];
      TextualPaidMakesText(prefix, k);
    }
  }

  /** What the overview shows for a booking list: how many are not external, and what they earned. */
  function BookingTotals(bookings: seq<Record>): (r: (int, Value))
    ensures bookings == [] ==> r == (0, Num(0))
    ensures r.0 == |Filter(bookings, BookingsPage.Shown)|
    ensures r.0 <= |bookings|
    ensures r.1 == Earnings(Filter(bookings, BookingsPage.Shown))
  {
    var shown := Filter(bookings, BookingsPage.Shown);
    (|shown|, Earnings(shown))
  }

  /** The booking count is exactly the number of bookings not billed externally. */
  lemma {:induction false} BookingCount(bookings: seq<Record>)
    ensures BookingTotals(bookings).0 == |bookings| - |Filter(bookings, (b: Record) => !BookingsPage.Shown(b))|
  {
    if bookings != [] {
      BookingCount(bookings[1..]);
    }
  }

  /**
   * `loadStats()`: the three reads run in turn; only when all three succeed
   * are the totals set and `loading` turned off. A rejected read leaves the
   * page as it was, still loading.
   */
  function LoadStats(s: DashboardState, stats: Option<PropertyStats>, users: Option<nat>, bookings: Option<seq<Record>>): (r: DashboardState)
    ensures !r.loading <==> !s.loading || (stats.Some? && users.Some? && bookings.Some?)
    ensures stats.None? || users.None? || bookings.None? ==> r == s
    ensures stats.Some? && users.Some? && bookings.Some? ==>
      && r.totalProperties == stats.value.totalProperties
      && r.recentProperties == stats.value.recentProperties
      && r.totalUsers == users.value
      && (r.totalBookings, r.totalEarnings) == BookingTotals(bookings.value)
      && r.userEmail == s.userEmail
  {
    if stats.None? || users.None? || bookings.None? then s
    else
      var totals := BookingTotals(bookings.value);
      s.(totalBookings := totals.0, totalEarnings := totals.1,
         totalProperties := stats.value.totalProperties, recentProperties := stats.value.recentProperties,
         totalUsers := users.value, loading := false)
  }

  /** The sign-in listener: the user's email, or the empty string when signed out or without one. */
  function AuthChanged(s: DashboardState, user: Option<Option<string>>): (r: DashboardState)
    ensures r.userEmail == (if user.Some? && user.value.Some? then user.value.value else "")
    ensures r.loading == s.loading && r.totalEarnings == s.totalEarnings
    // Only the email changes.
    ensures r == s.(userEmail := r.userEmail)
  {
    var email := match user
      case None => ""
      case Some(address) => Or(if address.Some? then Str(address.value) else Null, Str("")).s;
    s.(userEmail := email)
  }
}
