/** The admin customer list (src/pages/admin/CustomersPanel.tsx): the
    search filter and the active-membership badge. */
module CustomersPanel {
  import opened Wrappers
  import opened Strings
  import opened Types

  /** A fetched customer with its joined memberships (absent when the join
      returned nothing). */
  datatype CustomerRow = CustomerRow(customer: Customer, memberships: Option<seq<CustomerMembership>>)

  /** The lower-cased name or e-mail contains the lower-cased search term.
      Every customer matches the empty term. */
  predicate MatchesSearch(c: Customer, term: string)
    ensures term == "" ==> MatchesSearch(c, term)
  {
    ContainsEmpty(Lower(c.fullName));
    Contains(Lower(c.fullName), Lower(term)) || Contains(Lower(c.email), Lower(term))
  }

  /** `s` is `t` with some elements left out, the rest in their order. */
  predicate IsSubsequence<T(==)>(s: seq<T>, t: seq<T>)
    decreases |t|
  {
    if s == [] then true
    else if t == [] then false
    else if s[0] == t[0] then IsSubsequence(s[1..], t[1..])
    else IsSubsequence(s, t[1..])
  }

  /** `customers.filter(...)`: the matching rows, in their fetched order,
      each as often as it was fetched. */
  function FilterCustomers(rows: seq<CustomerRow>, term: string): (r: seq<CustomerRow>)
    ensures IsSubsequence(r, rows)
    ensures forall x :: x in r <==> x in rows && MatchesSearch(x.customer, term)
    ensures forall x :: multiset(r)[x] == if MatchesSearch(x.customer, term) then multiset(rows)[x] else 0
  {
    if rows == [] then []
    else
      var rest := FilterCustomers(rows[1..], term);
      assert rows == [rows[0]] + rows[1..];
      if MatchesSearch(rows[0].customer, term) then
        assert ([rows[0]] + rest)[1..] == rest;
        [rows[0]] + rest
      else
        assert rest != [] ==> rest[0] in rest && rest[0] != rows[0];
        rest
  }

  /** An empty search keeps every customer. */
  lemma {:induction false} EmptySearchKeepsAll(rows: seq<CustomerRow>)
    ensures FilterCustomers(rows, "") == rows
  {
    if rows != [] {
      ContainsEmpty(Lower(rows[0].customer.fullName));
      EmptySearchKeepsAll(rows[1..]);
    }
  }

  /** The case of the search term does not matter. */
  lemma {:induction false} SearchIgnoresTermCase(rows: seq<CustomerRow>, term: string)
    ensures FilterCustomers(rows, term) == FilterCustomers(rows, Lower(term))
  {
    LowerIdempotent(term);
    if rows != [] {
      SearchIgnoresTermCase(rows[1..], term);
    }
  }

  /** `memberships.filter(m => m.status === 'active')`: the active
      memberships in their order, each as often as it occurs. */
  function ActiveMemberships(ms: seq<CustomerMembership>): (r: seq<CustomerMembership>)
    ensures |r| <= |ms|
    ensures IsSubsequence(r, ms)
    ensures forall m :: multiset(r)[m] == if m.status == Active then multiset(ms)[m] else 0
  {
    if ms == [] then []
    else
      var rest := ActiveMemberships(ms[1..]);
      assert ms == [ms[0]] + ms[1..];
      if ms[0].status == Active then
        assert ([ms[0]] + rest)[1..] == rest;
        [ms[0]] + rest
      else
        assert rest != [] ==> rest[0] in multiset(rest) && rest[0] != ms[0];
        rest
  }

  /** The number of active memberships of a row: 0 when the join is absent,
      otherwise the size of the active part of the membership multiset,
      never more than the memberships there are, and positive exactly when
      one is active. */
  function ActiveCount(row: CustomerRow): (n: nat)
    ensures row.memberships.None? ==> n == 0
    ensures row.memberships.Some? ==>
              n == |ActiveMemberships(row.memberships.value)|
              && n == |multiset(ActiveMemberships(row.memberships.value))|
              && n <= |row.memberships.value|
    ensures n > 0 <==> row.memberships.Some? && exists m :: m in row.memberships.value && m.status == Active
  {
    var active := ActiveMemberships(row.memberships.GetOr([]));
    assert |active| > 0 ==> active[0] in multiset(active);
    |active|
  }

  /** The badge: "<n> active" when n > 0, "None" otherwise. */
  function Badge(n: nat): (text: string)
    ensures text == "None" <==> n == 0
    ensures n > 0 ==> text == NatToDecimal(n) + " active"
  {
    if n > 0 then NatToDecimal(n) + " active" else "None"
  }
}
