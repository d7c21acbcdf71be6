/** The customer dashboard (src/pages/CustomerDashboard.tsx): loading the
    three queries, choosing the active membership and the benefit label. */
module CustomerDashboard {
  import opened Wrappers
  import opened Types

  /** A query's outcome: an error, or data (`None` when the data is null). */
  datatype Query<T> = QueryFailed(message: string) | QueryOk(data: Option<T>)

  datatype DashboardData = DashboardData(
    customer: Option<Customer>,
    memberships: seq<CustomerMembership>,
    services: seq<ServiceCompleted>)

  const InitialData := DashboardData(None, [], [])

  /** `fetchDashboardData`, run on the state `prior` (the initial empty
      state on the first load, the previous data when the user changes):
      every error is checked before anything is stored, so one failed query
      leaves `prior` as it was; null membership or service data becomes an
      empty list. */
  function Load(prior: DashboardData, customer: Query<Customer>, memberships: Query<seq<CustomerMembership>>,
                services: Query<seq<ServiceCompleted>>): (d: DashboardData)
    ensures customer.QueryFailed? || memberships.QueryFailed? || services.QueryFailed? ==> d == prior
    ensures customer.QueryOk? && memberships.QueryOk? && services.QueryOk? ==>
              d.customer == customer.data
              && d.memberships == memberships.data.GetOr([])
              && d.services == services.data.GetOr([])
  {
    if customer.QueryFailed? || memberships.QueryFailed? || services.QueryFailed? then prior
    else DashboardData(customer.data, memberships.data.GetOr([]), services.data.GetOr([]))
  }

  /** `memberships.find(m => m.status === 'active')`. */
  function ActiveMembership(ms: seq<CustomerMembership>): (r: Option<CustomerMembership>)
    ensures r.None? <==> forall i :: 0 <= i < |ms| ==> ms[i].status != Active
    ensures r.Some? ==> r.value.status == Active
                        && exists i :: 0 <= i < |ms| && ms[i] == r.value
                                       && forall j :: 0 <= j < i ==> ms[j].status != Active
  {
    if ms == [] then None
    else if ms[0].status == Active then Some(ms[0])
    else
      assert forall j :: 0 < j < |ms| ==> ms[j] == ms[1..][j - 1];
      ActiveMembership(ms[1..])
  }

  /** The list as the query orders it: newest `created_at` first. */
  predicate NewestFirst(ms: seq<CustomerMembership>) {
    forall i, j :: 0 <= i < j < |ms| ==> ms[i].createdAt >= ms[j].createdAt
  }

  /** With the list newest first, the membership chosen is the most
      recently created active one. */
  lemma {:induction false} NewestActiveChosen(ms: seq<CustomerMembership>)
    requires NewestFirst(ms)
    ensures ActiveMembership(ms).Some? ==>
              forall m :: m in ms && m.status == Active ==> m.createdAt <= ActiveMembership(ms).value.createdAt
  {
    if ms != [] && ms[0].status != Active {
      NewestActiveChosen(ms[1..]);
    }
  }

  /** What the membership section shows. */
  datatype MembershipView = NoActiveMembership | CurrentMembership(membership: CustomerMembership, benefitLabel: string)

  /** "Tune-Up Remaining" for exactly one, "Tune-Ups Remaining" otherwise. */
  function TuneUpsLabel(remaining: int): (text: string)
    ensures text == "Tune-Up Remaining" <==> remaining == 1
    ensures text == "Tune-Ups Remaining" <==> remaining != 1
  {
    "Tune-Up" + (if remaining != 1 then "s" else "") + " Remaining"
  }

  /** The "No Active Membership" panel is shown exactly when no membership
      is active; otherwise the first active membership of the list with the
      label for its remaining tune-ups. */
  function View(ms: seq<CustomerMembership>): (v: MembershipView)
    ensures v.NoActiveMembership? <==> forall m :: m in ms ==> m.status != Active
    ensures v.CurrentMembership? ==> v.membership in ms && v.membership.status == Active
    ensures v.CurrentMembership? ==>
              (exists i :: 0 <= i < |ms| && ms[i] == v.membership
                           && forall j :: 0 <= j < i ==> ms[j].status != Active)
              && (v.benefitLabel == "Tune-Up Remaining" <==> v.membership.tuneUpsRemaining == 1)
              && (v.benefitLabel == "Tune-Ups Remaining" <==> v.membership.tuneUpsRemaining != 1)
  {
    match ActiveMembership(ms)
    case None => NoActiveMembership
    case Some(m) => CurrentMembership(m, TuneUpsLabel(m.tuneUpsRemaining))
  }

  /** The greeting's name: the customer's full name, or "Customer" when
      there is no row or the name is empty. */
  function WelcomeName(customer: Option<Customer>): (name: string)
    ensures name != ""
    ensures customer.Some? && customer.value.fullName != "" ==> name == customer.value.fullName
    ensures customer.None? || customer.value.fullName == "" ==> name == "Customer"
  {
    if customer.Some? && customer.value.fullName != "" then customer.value.fullName else "Customer"
  }
}
