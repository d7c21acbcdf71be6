/** The direct-insert checkout page (src/pages/CheckoutPage.tsx): the form
    state, `handleChange`, and `handleSubmit`, which upserts the customer row
    and then inserts an active one-year membership.

    The hosted database is the `Datastore` class below. Whether a write is
    rejected, and the id and creation time the database gives a new
    membership row, come from outside and are parameters (`Backend`); so is
    the clock (`Clock`). */
module CheckoutPage {
  import opened Wrappers
  import opened Types

  // ---------- Form ----------

  /** The `name` attributes of the form's inputs. */
  datatype FormField = FullName | Email | Phone | ServiceAddressField | City | State | ZipCode
                     | CardNumber | Expiry | Cvv

  datatype FormData = FormData(
    fullName: string, email: string, phone: string, serviceAddress: string,
    city: string, state: string, zipCode: string,
    cardNumber: string, expiry: string, cvv: string)

  const EmptyForm := FormData("", "", "", "", "", "", "", "", "", "")

  function FieldValue(form: FormData, field: FormField): string {
    match field
    case FullName => form.fullName
    case Email => form.email
    case Phone => form.phone
    case ServiceAddressField => form.serviceAddress
    case City => form.city
    case State => form.state
    case ZipCode => form.zipCode
    case CardNumber => form.cardNumber
    case Expiry => form.expiry
    case Cvv => form.cvv
  }

  /** `{...formData, [name]: value}`: the named field takes the new value and
      every other field keeps its old one. */
  function WithField(form: FormData, field: FormField, value: string): (r: FormData)
    ensures FieldValue(r, field) == value
    ensures forall other :: other != field ==> FieldValue(r, other) == FieldValue(form, other)
  {
    match field
    case FullName => form.(fullName := value)
    case Email => form.(email := value)
    case Phone => form.(phone := value)
    case ServiceAddressField => form.(serviceAddress := value)
    case City => form.(city := value)
    case State => form.(state := value)
    case ZipCode => form.(zipCode := value)
    case CardNumber => form.(cardNumber := value)
    case Expiry => form.(expiry := value)
    case Cvv => form.(cvv := value)
  }

  /** Setting a field to the value it already has changes nothing, and
      setting it twice keeps only the second value. */
  lemma WithFieldLaws(form: FormData, field: FormField, v1: string, v2: string)
    ensures WithField(form, field, FieldValue(form, field)) == form
    ensures WithField(WithField(form, field, v1), field, v2) == WithField(form, field, v2)
  {
  }

  // ---------- Records written ----------

  datatype User = User(id: string)

  datatype Clock = Clock(today: Date, now: int)

  /** What the hosted database does with the two writes. */
  datatype Backend = Backend(upsertRejected: bool, insertRejected: bool, newMembershipId: string, createdAt: int)

  /** The `customers` upsert payload. */
  datatype CustomerData = CustomerData(
    id: string, email: string, fullName: string, phone: string,
    serviceAddress: string, city: string, state: string, zipCode: string)

  /** The `customer_memberships` insert payload. */
  datatype MembershipData = MembershipData(
    customerId: string, planId: string, startDate: Date, endDate: Date,
    status: MembershipStatus, tuneUpsRemaining: int, agreementSignedAt: int)

  /** The customer row is keyed by the logged-in user and copies the
      contact and address fields of the form. */
  function CustomerDataFor(user: User, form: FormData): (d: CustomerData)
    ensures d.id == user.id
    ensures d.email == FieldValue(form, Email) && d.fullName == FieldValue(form, FullName)
    ensures d.phone == FieldValue(form, Phone) && d.serviceAddress == FieldValue(form, ServiceAddressField)
    ensures d.city == FieldValue(form, City) && d.state == FieldValue(form, State)
    ensures d.zipCode == FieldValue(form, ZipCode)
  {
    CustomerData(user.id, form.email, form.fullName, form.phone,
                 form.serviceAddress, form.city, form.state, form.zipCode)
  }

  /** The card fields never reach the database: forms that differ only in
      card number, expiry and CVV give the same customer row. */
  lemma CardFieldsNeverStored(user: User, f1: FormData, f2: FormData)
    requires forall k :: k !in {CardNumber, Expiry, Cvv} ==> FieldValue(f1, k) == FieldValue(f2, k)
    ensures CustomerDataFor(user, f1) == CustomerDataFor(user, f2)
  {
    assert FieldValue(f1, FullName) == FieldValue(f2, FullName);
    assert FieldValue(f1, Email) == FieldValue(f2, Email);
    assert FieldValue(f1, Phone) == FieldValue(f2, Phone);
    assert FieldValue(f1, ServiceAddressField) == FieldValue(f2, ServiceAddressField);
    assert FieldValue(f1, City) == FieldValue(f2, City);
    assert FieldValue(f1, State) == FieldValue(f2, State);
    assert FieldValue(f1, ZipCode) == FieldValue(f2, ZipCode);
  }

  /** `endDate.setFullYear(endDate.getFullYear() + 1)`: the same day one
      year later. */
  function OneYearLater(d: Date): Date {
    d.(year := d.year + 1)
  }

  /** `plan?.tune_ups_per_year || 2`: the plan's yearly tune-ups unless
      that is missing or 0, in which case 2. */
  function TuneUpAllowance(plan: Option<MaintenancePlan>): (n: int)
    ensures n != 0
    ensures n == 2 <==> plan.None? || plan.value.tuneUpsPerYear.None?
                        || plan.value.tuneUpsPerYear.value in {0, 2}
    ensures n != 2 ==> plan.Some? && plan.value.tuneUpsPerYear == Some(n)
  {
    if plan.Some? && plan.value.tuneUpsPerYear.Some? && plan.value.tuneUpsPerYear.value != 0
    then plan.value.tuneUpsPerYear.value
    else 2
  }

  /** The membership row for a purchase: the user's, for the plan in the
      route, active, running from today to the same day a year later, signed
      now, with the plan's tune-up allowance. */
  function MembershipDataFor(user: User, planId: string, plan: Option<MaintenancePlan>, clock: Clock): (m: MembershipData)
    ensures m.customerId == user.id && m.planId == planId && m.status == Active
    ensures m.startDate == clock.today && m.agreementSignedAt == clock.now
    ensures m.endDate.year == m.startDate.year + 1
            && m.endDate.month == m.startDate.month && m.endDate.day == m.startDate.day
    ensures m.tuneUpsRemaining == TuneUpAllowance(plan)
  {
    MembershipData(user.id, planId, clock.today, OneYearLater(clock.today),
                   Active, TuneUpAllowance(plan), clock.now)
  }

  /** The row an upsert leaves: the payload's columns, and the columns the
      payload does not name (the Stripe customer id) kept from the old row. */
  function Upserted(existing: Option<Customer>, d: CustomerData): (c: Customer)
    ensures c.id == d.id && c.email == d.email && c.fullName == d.fullName
    ensures c.phone == Some(d.phone) && c.serviceAddress == d.serviceAddress
    ensures c.city == d.city && c.state == d.state && c.zipCode == d.zipCode
    ensures existing.Some? ==> c.stripeCustomerId == existing.value.stripeCustomerId
    ensures existing.None? ==> c.stripeCustomerId.None?
  {
    Customer(d.id, d.email, d.fullName, Some(d.phone), d.serviceAddress, d.city, d.state, d.zipCode,
             if existing.Some? then existing.value.stripeCustomerId else None)
  }

  /** The row an insert adds, with the id and creation time the database gives it. */
  function Inserted(m: MembershipData, id: string, createdAt: int): CustomerMembership {
    CustomerMembership(id, m.customerId, m.planId, m.startDate, m.endDate, m.status,
                       m.tuneUpsRemaining, None, m.agreementSignedAt, createdAt)
  }

  // ---------- The database ----------

  /** The `customers` table (by id) and the `customer_memberships` table. */
  class Datastore {
    var customers: map<string, Customer>
    var memberships: seq<CustomerMembership>

    /** Every customer row is stored under its own id. */
    ghost predicate Valid()
      reads this
    {
      forall id :: id in customers ==> customers[id].id == id
    }

    constructor ()
      ensures Valid() && customers == map[] && memberships == []
    {
      customers := map[];
      memberships := [];
    }

    function Existing(id: string): Option<Customer>
      reads this
    {
      if id in customers then Some(customers[id]) else None
    }

    /** `.from('customers').upsert(d)`: insert or overwrite the row with
        `d.id`; never a second row for one id. */
    method Upsert(d: CustomerData, rejected: bool) returns (ok: bool)
      requires Valid()
      modifies this
      ensures Valid()
      ensures ok == !rejected
      ensures ok ==> customers == old(customers)[d.id := Upserted(old(Existing(d.id)), d)]
      ensures !ok ==> customers == old(customers)
      ensures memberships == old(memberships)
    {
      if rejected {
        return false;
      }
      customers := customers[d.id := Upserted(Existing(d.id), d)];
      return true;
    }

    /** `.from('customer_memberships').insert(m)`: append one row. */
    method Insert(m: MembershipData, id: string, createdAt: int, rejected: bool) returns (ok: bool)
      requires Valid()
      modifies this
      ensures Valid()
      ensures ok == !rejected
      ensures ok ==> memberships == old(memberships) + [Inserted(m, id, createdAt)]
      ensures !ok ==> memberships == old(memberships)
      ensures customers == old(customers)
    {
      if rejected {
        return false;
      }
      memberships := memberships + [Inserted(m, id, createdAt)];
      return true;
    }
  }

  // ---------- The page ----------

  /** How a submission ends: an alert asking to accept the terms, a
      redirect to /login, a redirect to /dashboard after the purchase, or an
      alert that the purchase failed. */
  datatype SubmitOutcome = TermsNotAccepted | LoginRequired | Purchased | Failed

  class CheckoutForm {
    const planId: string
    var plan: Option<MaintenancePlan>
    var form: FormData
    var agreedToTerms: bool
    var processing: bool

    constructor (planId: string, plan: Option<MaintenancePlan>)
      ensures this.planId == planId && this.plan == plan
      ensures form == EmptyForm && !agreedToTerms && !processing
    {
      this.planId := planId;
      this.plan := plan;
      form := EmptyForm;
      agreedToTerms := false;
      processing := false;
    }

    /** `handleChange`: the input named `field` now holds `value`. */
    method HandleChange(field: FormField, value: string)
      modifies this`form
      ensures form == WithField(old(form), field, value)
    {
      form := WithField(form, field, value);
    }

    /** The terms checkbox. */
    method SetAgreedToTerms(checked: bool)
      modifies this`agreedToTerms
      ensures agreedToTerms == checked
    {
      agreedToTerms := checked;
    }

    /** `handleSubmit`: the terms are checked first, then the login; only
        then is the customer upserted, and only after a successful upsert is
        the membership inserted. */
    method HandleSubmit(user: Option<User>, store: Datastore, clock: Clock, backend: Backend)
      returns (outcome: SubmitOutcome)
      requires store.Valid()
      modifies this`processing, store
      ensures store.Valid()
      ensures agreedToTerms && user.Some? ==> !processing
      ensures !agreedToTerms ==>
                outcome == TermsNotAccepted && unchanged(store) && processing == old(processing)
      ensures agreedToTerms && user.None? ==>
                outcome == LoginRequired && unchanged(store) && processing == old(processing)
      ensures agreedToTerms && user.Some? ==>
                var customer := CustomerDataFor(user.value, form);
                var membership := MembershipDataFor(user.value, planId, plan, clock);
                && (outcome == Purchased <==> !backend.upsertRejected && !backend.insertRejected)
                && (outcome != Purchased ==> outcome == Failed)
                && store.customers == (if backend.upsertRejected then old(store.customers)
                                       else old(store.customers)[user.value.id := Upserted(old(store.Existing(user.value.id)), customer)])
                && store.memberships == (if backend.upsertRejected || backend.insertRejected then old(store.memberships)
                                         else old(store.memberships) + [Inserted(membership, backend.newMembershipId, backend.createdAt)])
    {
      if !agreedToTerms {
        return TermsNotAccepted;
      }
      if user.None? {
        return LoginRequired;
      }
      processing := true;
      var endDate := clock.today;
      endDate := endDate.(year := endDate.year + 1);
      var customerData := CustomerDataFor(user.value, form);
      var ok := store.Upsert(customerData, backend.upsertRejected);
      if !ok {
        processing := false;
        return Failed;
      }
      var membershipData := MembershipData(user.value.id, planId, clock.today, endDate,
                                           Active, TuneUpAllowance(plan), clock.now);
      assert membershipData == MembershipDataFor(user.value, planId, plan, clock);
      ok := store.Insert(membershipData, backend.newMembershipId, backend.createdAt, backend.insertRejected);
      processing := false;
      if !ok {
        return Failed;
      }
      return Purchased;
    }
  }

  /** The membership a completed purchase appends is active, for the buyer
      and the plan in the route, and ends one year after it starts; it
      carries at least one tune-up unless the plan stores a negative count. */
  lemma PurchasedMembershipShape(user: User, planId: string, plan: Option<MaintenancePlan>, clock: Clock,
                                 id: string, createdAt: int)
    ensures var m := Inserted(MembershipDataFor(user, planId, plan, clock), id, createdAt);
            && m.customerId == user.id && m.planId == planId && m.status == Active
            && m.endDate.year == m.startDate.year + 1
            && m.endDate.month == m.startDate.month && m.endDate.day == m.startDate.day
            && ((plan.Some? && plan.value.tuneUpsPerYear.Some? && plan.value.tuneUpsPerYear.value > 0)
                ==> m.tuneUpsRemaining == plan.value.tuneUpsPerYear.value)
            && (plan.Some? && plan.value.tuneUpsPerYear == Some(0) ==> m.tuneUpsRemaining == 2)
            && ((plan.None? || plan.value.tuneUpsPerYear.None? || plan.value.tuneUpsPerYear.value >= 0)
                ==> m.tuneUpsRemaining >= 1)
  {
  }
}
