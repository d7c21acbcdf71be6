/** The records of the hosted database as the pages see them
    (src/types/index.ts). Timestamps are abstract instants (`int`), calendar
    dates are (year, month, day). Where a page defends against a column that
    may be missing or null although the declared type says otherwise, the
    field is an `Option` so that the defence can be modelled. */
module Types {
  import opened Wrappers

  datatype Date = Date(year: int, month: int, day: int)

  datatype MembershipStatus = Active | Expired | Cancelled

  /** A row of `customers`, keyed by the application user id. */
  datatype Customer = Customer(
    id: string,
    email: string,
    fullName: string,
    phone: Option<string>,
    serviceAddress: string,
    city: string,
    state: string,
    zipCode: string,
    stripeCustomerId: Option<string>)

  /** A row of `maintenance_plans`. `features` is `None` when the stored
      value is not an array; `billingFrequency`, `tuneUpsPerYear` and
      `discountPercentage` are `None` when null or missing. */
  datatype MaintenancePlan = MaintenancePlan(
    id: string,
    name: string,
    description: Option<string>,
    price: real,
    billingFrequency: Option<string>,
    tuneUpsPerYear: Option<int>,
    priorityService: bool,
    discountPercentage: Option<real>,
    features: Option<seq<string>>,
    stripePriceId: Option<string>,
    isActive: bool)

  /** A row of `customer_memberships`. */
  datatype CustomerMembership = CustomerMembership(
    id: string,
    customerId: string,
    planId: string,
    startDate: Date,
    endDate: Date,
    status: MembershipStatus,
    tuneUpsRemaining: int,
    stripeSubscriptionId: Option<string>,
    agreementSignedAt: int,
    createdAt: int)

  /** A row of `services_completed` (work items and recommendations omitted). */
  datatype ServiceCompleted = ServiceCompleted(
    id: string,
    customerId: string,
    membershipId: Option<string>,
    serviceDate: Date,
    serviceType: string)
}
