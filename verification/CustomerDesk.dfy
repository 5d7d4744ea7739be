// The customer service in the form the program has: loops that save one row at
// a time, under unique indexes that must hold after every save.
module CustomerService {
  import opened Common
  import opened Customers
  import opened CustomerMerges

  ghost predicate Answers(
    before: Registry, after: Registry, r: Result<(), CustomerError>, spec: Result<Registry, CustomerError>) {
    match spec
    case Ok(registry) => r == Ok(()) && after == registry
    case Err(error) => r == Err(error) && after == before
  }

  // An enumeration of a set of row numbers in any order, as a query returns them.
  ghost predicate Lists(order: seq<nat>, rows: set<nat>) {
    && (forall i, j :: 0 <= i < j < |order| ==> order[i] != order[j])
    && (forall i :: i in order <==> i in rows)
  }

  // The rows already handled look merged, the others are as they were.
  ghost predicate ContactsSoFar(now: seq<Contact>, before: seq<Contact>, done: seq<nat>, s: nat, t: nat) {
    && |now| == |before|
    && (forall i :: 0 <= i < |now| ==> now[i] == if i in done then MergedContact(before, before[i], s, t)
        else before[i])
  }

  ghost predicate AddressesSoFar(now: seq<Address>, before: seq<Address>, done: seq<nat>, s: nat, t: nat) {
    && |now| == |before|
    && (forall i :: 0 <= i < |now| ==> now[i] == if i in done then MergedAddress(before, before[i], s, t)
        else before[i])
  }

  // What was handled before does not change what the queries about the next
  // contact answer: the source's values are distinct, its primary is single.
  lemma NextDuplicateIsTheSame(now: seq<Contact>, before: seq<Contact>, done: seq<nat>, s: nat, t: nat, c: nat)
    requires ContactsValid(before) && s != t && ContactsSoFar(now, before, done, s, t)
    requires c in ActiveContacts(before, s) && c !in done
    ensures Holds(now, t, before[c].kind, before[c].value) == Holds(before, t, before[c].kind, before[c].value)
  {
    var contact := before[c];
    forall i | 0 <= i < |now|
      ensures Same(now[i], t, contact.kind, contact.value) == Same(before[i], t, contact.kind, contact.value)
    {
      assert i == c || !Same(before[i], s, contact.kind, contact.value);
    }
  }

  lemma NextPrimaryIsTheSame(now: seq<Contact>, before: seq<Contact>, done: seq<nat>, s: nat, t: nat, c: nat)
    requires ContactsValid(before) && s != t && ContactsSoFar(now, before, done, s, t)
    requires c in ActiveContacts(before, s) && c !in done && before[c].primary
    ensures HasPrimary(now, t, before[c].kind) == HasPrimary(before, t, before[c].kind)
  {
    forall i | 0 <= i < |now|
      ensures PrimaryOf(now[i], t, before[c].kind) == PrimaryOf(before[i], t, before[c].kind)
    {
      assert i == c || !PrimaryOf(before[i], s, before[c].kind);
    }
  }

  lemma NextContact(now: seq<Contact>, before: seq<Contact>, done: seq<nat>, s: nat, t: nat, c: nat)
    requires ContactsValid(before) && s != t && ContactsSoFar(now, before, done, s, t)
    requires c in ActiveContacts(before, s) && c !in done
    ensures now[c] == before[c] && MergedContact(now, now[c], s, t) == MergedContact(before, before[c], s, t)
    ensures ContactsSoFar(now[c := MergedContact(now, now[c], s, t)], before, done + [c], s, t)
  {
    NextDuplicateIsTheSame(now, before, done, s, t, c);
    if before[c].primary {
      NextPrimaryIsTheSame(now, before, done, s, t, c);
    }
  }

  lemma NextAddress(now: seq<Address>, before: seq<Address>, done: seq<nat>, s: nat, t: nat, a: nat)
    requires AddressesValid(before) && s != t && AddressesSoFar(now, before, done, s, t)
    requires a in ActiveAddresses(before, s) && a !in done
    ensures now[a] == before[a] && MergedAddress(now, now[a], s, t) == MergedAddress(before, before[a], s, t)
    ensures AddressesSoFar(now[a := MergedAddress(now, now[a], s, t)], before, done + [a], s, t)
  {
    if before[a].shipping {
      forall i | 0 <= i < |now|
        ensures ShippingOf(now[i], t) == ShippingOf(before[i], t)
      {
        assert i == a || !ShippingOf(before[i], s);
      }
    }
    if before[a].billing {
      forall i | 0 <= i < |now|
        ensures BillingOf(now[i], t) == BillingOf(before[i], t)
      {
        assert i == a || !BillingOf(before[i], s);
      }
    }
  }

  // No save along the way breaks a unique index, so the loop never raises.
  lemma ContactsSoFarValid(now: seq<Contact>, before: seq<Contact>, done: seq<nat>, s: nat, t: nat)
    requires ContactsValid(before) && s != t && ContactsSoFar(now, before, done, s, t)
    ensures ContactsValid(now)
  {
    forall i, j | 0 <= i < j < |now| && now[i].active && now[j].active && now[i].owner == now[j].owner
      && now[i].kind == now[j].kind
      ensures now[i].value != now[j].value && !(now[i].primary && now[j].primary)
    {
      if before[i].owner != before[j].owner {
        var (kept, moved) := if before[i].owner == t then (i, j) else (j, i);
        assert !Same(before[kept], t, before[moved].kind, before[moved].value);
        assert before[kept].primary ==> PrimaryOf(before[kept], t, before[moved].kind);
      }
    }
  }

  lemma AddressesSoFarValid(now: seq<Address>, before: seq<Address>, done: seq<nat>, s: nat, t: nat)
    requires AddressesValid(before) && s != t && AddressesSoFar(now, before, done, s, t)
    ensures AddressesValid(now)
  {
    forall i, j | 0 <= i < j < |now| && now[i].active && now[j].active && now[i].owner == now[j].owner
      ensures !(now[i].shipping && now[j].shipping) && !(now[i].billing && now[j].billing)
    {
      if before[i].owner != before[j].owner {
        var kept := if before[i].owner == t then i else j;
        assert before[kept].shipping ==> ShippingOf(before[kept], t);
        assert before[kept].billing ==> BillingOf(before[kept], t);
      }
    }
  }

  lemma AllAddressesDone(now: seq<Address>, before: seq<Address>, order: seq<nat>, s: nat, t: nat)
    requires AddressesSoFar(now, before, order, s, t) && Lists(order, ActiveAddresses(before, s))
    ensures now == MergedAddresses(before, s, t)
  {
    forall i | 0 <= i < |before|
      ensures now[i] == MergedAddress(before, before[i], s, t)
    {
      assert i in order <==> i in ActiveAddresses(before, s);
    }
  }

  lemma NextListed(order: seq<nat>, rows: set<nat>, k: nat)
    requires Lists(order, rows) && k < |order|
    ensures order[k] in rows && order[k] !in order[..k]
    ensures order[..k + 1] == order[..k] + [order[k]]
  {
  }

  lemma OneMoreCounted(done: set<nat>, twins: set<nat>, c: nat)
    requires c !in done
    ensures |(done + {c}) * twins| == |done * twins| + (if c in twins then 1 else 0)
    ensures |(done + {c}) - twins| == |done - twins| + (if c in twins then 0 else 1)
  {
    if c in twins {
      assert (done + {c}) * twins == done * twins + {c} && (done + {c}) - twins == done - twins;
    } else {
      assert (done + {c}) * twins == done * twins && (done + {c}) - twins == (done - twins) + {c};
    }
  }

  // How many of the listed rows are among the given ones.
  function Among(order: seq<nat>, rows: set<nat>): nat {
    if order == [] then 0
    else Among(order[..|order| - 1], rows) + if order[|order| - 1] in rows then 1 else 0
  }

  ghost function Elements(order: seq<nat>): set<nat> {
    set i | i in order
  }

  lemma {:induction false} AmongIsSize(order: seq<nat>, rows: set<nat>)
    requires forall i, j :: 0 <= i < j < |order| ==> order[i] != order[j]
    ensures Among(order, rows) == |Elements(order) * rows|
    ensures |order| == |Elements(order)|
  {
    if order == [] {
      assert Elements(order) * rows == {};
    } else {
      var before := order[..|order| - 1];
      var last := order[|order| - 1];
      AmongIsSize(before, rows);
      assert Elements(order) == Elements(before) + {last};
      OneMoreCounted(Elements(before), rows, last);
    }
  }

  lemma AllCounted(order: seq<nat>, rows: set<nat>, twins: set<nat>)
    requires Lists(order, rows) && twins <= rows
    ensures Among(order, twins) == |twins| && |order| - |twins| == |rows - twins|
  {
    AmongIsSize(order, twins);
    assert Elements(order) == rows;
    assert rows * twins == twins;
    assert rows == (rows - twins) + twins;
  }

  lemma AllContactsDone(now: seq<Contact>, before: seq<Contact>, order: seq<nat>, s: nat, t: nat)
    requires ContactsSoFar(now, before, order, s, t) && Lists(order, ActiveContacts(before, s))
    ensures now == MergedContacts(before, s, t)
  {
    forall i | 0 <= i < |before|
      ensures now[i] == MergedContact(before, before[i], s, t)
    {
      assert i in order <==> i in ActiveContacts(before, s);
    }
  }

  // One turn of the contact loop.
  lemma ContactTurn(now: seq<Contact>, before: seq<Contact>, order: seq<nat>, k: nat, s: nat, t: nat)
    requires ContactsValid(before) && s != t && Lists(order, ActiveContacts(before, s)) && k < |order|
    requires ContactsSoFar(now, before, order[..k], s, t)
    ensures var c := order[k];
            && c < |now| && now[c].active && now[c].owner == s
            && ContactsSoFar(now[c := MergedContact(now, now[c], s, t)], before, order[..k + 1], s, t)
            && (Holds(now, t, now[c].kind, now[c].value) <==> c in DuplicateContacts(before, s, t))
  {
    NextListed(order, ActiveContacts(before, s), k);
    NextContact(now, before, order[..k], s, t, order[k]);
    NextDuplicateIsTheSame(now, before, order[..k], s, t, order[k]);
  }

  class CustomerDesk {
    var customers: seq<Customer>
    var contacts: seq<Contact>
    var addresses: seq<Address>
    var notes: seq<nat>
    var merges: seq<Merge>

    function Snapshot(): Registry
      reads this
    {
      Registry(customers, contacts, addresses, notes, merges)
    }

    constructor ()
      ensures Snapshot() == NewRegistry
    {
      customers, contacts, addresses, notes, merges := [], [], [], [], [];
    }

    method Require(member: bool, org: nat, customer: nat) returns (problem: Option<CustomerError>)
      ensures problem == Problem(Snapshot(), member, org, customer)
    {
      if !member {
        return Some(PermissionDenied);
      }
      if |customers| <= customer || customers[customer].org != org {
        return Some(OrganizationMismatch);
      }
      if customers[customer].mergedInto.Some? {
        return Some(CustomerMerged);
      }
      problem := None;
    }

    method Register(member: bool, org: nat, customer: nat, kind: Kind, value: string, primary: bool)
      returns (r: Result<(), CustomerError>)
      modifies this
      ensures Answers(old(Snapshot()), Snapshot(), r,
                      Apply(old(Snapshot()), AddContact(member, org, customer, kind, value, primary)))
    {
      var problem := Require(member, org, customer);
      if problem.Some? {
        return Err(problem.value);
      }
      if !Holds(contacts, customer, kind, value) {
        if primary {
          contacts := Demoted(contacts, customer, kind);
        }
        contacts := contacts + [Contact(customer, kind, value, primary, true)];
      }
      r := Ok(());
    }

    // --- the merge loops ---

    // The save must pass the unique indexes, or the database would raise.
    method MergeContactRow(c: nat, s: nat, t: nat) returns (duplicate: bool)
      requires c < |contacts| && contacts[c].active && contacts[c].owner == s
      requires ContactsValid(contacts[c := MergedContact(contacts, contacts[c], s, t)])
      modifies this`contacts
      ensures contacts == old(contacts)[c := MergedContact(old(contacts), old(contacts)[c], s, t)]
      ensures duplicate == Holds(old(contacts), t, old(contacts)[c].kind, old(contacts)[c].value)
    {
      var contact := contacts[c];
      duplicate := Holds(contacts, t, contact.kind, contact.value);
      if duplicate {
        contact := contact.(active := false, primary := false);
      } else {
        if contact.primary && HasPrimary(contacts, t, contact.kind) {
          contact := contact.(primary := false);
        }
        contact := contact.(owner := t);
      }
      contacts := contacts[c := contact];
    }

    method MergeContactRows(s: nat, t: nat, order: seq<nat>) returns (moved: nat, deactivated: nat)
      requires ContactsValid(contacts) && s != t && Lists(order, ActiveContacts(contacts, s))
      modifies this`contacts
      ensures contacts == MergedContacts(old(contacts), s, t)
      ensures deactivated == |DuplicateContacts(old(contacts), s, t)|
      ensures moved == |ActiveContacts(old(contacts), s) - DuplicateContacts(old(contacts), s, t)|
    {
      ghost var before := contacts;
      ghost var twins := DuplicateContacts(before, s, t);
      moved, deactivated := 0, 0;
      for k := 0 to |order|
        invariant ContactsSoFar(contacts, before, order[..k], s, t)
        invariant deactivated == Among(order[..k], twins) && moved + deactivated == k
      {
        ContactTurn(contacts, before, order, k, s, t);
        assert order[..k + 1][..k] == order[..k];
        ContactsSoFarValid(contacts[order[k] := MergedContact(contacts, contacts[order[k]], s, t)], before,
                           order[..k + 1], s, t);
        var duplicate := MergeContactRow(order[k], s, t);
        if duplicate {
          deactivated := deactivated + 1;
        } else {
          moved := moved + 1;
        }
      }
      assert order[..|order|] == order;
      AllContactsDone(contacts, before, order, s, t);
      AllCounted(order, ActiveContacts(before, s), twins);
    }

    method MergeAddressRow(a: nat, s: nat, t: nat)
      requires a < |addresses| && addresses[a].active && addresses[a].owner == s
      requires AddressesValid(addresses[a := MergedAddress(addresses, addresses[a], s, t)])
      modifies this`addresses
      ensures addresses == old(addresses)[a := MergedAddress(old(addresses), old(addresses)[a], s, t)]
    {
      var address := addresses[a];
      if address.shipping && HasShipping(addresses, t) {
        address := address.(shipping := false);
      }
      if address.billing && HasBilling(addresses, t) {
        address := address.(billing := false);
      }
      address := address.(owner := t);
      addresses := addresses[a := address];
    }

    method MergeAddressRows(s: nat, t: nat, order: seq<nat>) returns (moved: nat)
      requires AddressesValid(addresses) && s != t && Lists(order, ActiveAddresses(addresses, s))
      modifies this`addresses
      ensures addresses == MergedAddresses(old(addresses), s, t)
      ensures moved == |ActiveAddresses(old(addresses), s)|
    {
      ghost var before := addresses;
      ghost var done: set<nat> := {};
      moved := 0;
      for k := 0 to |order|
        invariant AddressesSoFar(addresses, before, order[..k], s, t)
        invariant forall i :: i in done <==> i in order[..k]
        invariant moved == |done|
      {
        var a := order[k];
        NextListed(order, ActiveAddresses(before, s), k);
        NextAddress(addresses, before, order[..k], s, t, a);
        AddressesSoFarValid(addresses[a := MergedAddress(addresses, addresses[a], s, t)], before, order[..k + 1], s, t);
        MergeAddressRow(a, s, t);
        moved := moved + 1;
        done := done + {a};
      }
      assert order[..|order|] == order;
      AllAddressesDone(addresses, before, order, s, t);
      assert done == ActiveAddresses(before, s);
    }

    // Whatever order the two queries return their rows in, the outcome is the
    // same.
    method FoldInto(s: nat, t: nat, contactRows: seq<nat>, addressRows: seq<nat>)
      requires ContactsValid(contacts) && AddressesValid(addresses) && s != t && s < |customers|
      requires Lists(contactRows, ActiveContacts(contacts, s)) && Lists(addressRows, ActiveAddresses(addresses, s))
      modifies this
      ensures Snapshot() == Merged(old(Snapshot()), s, t)
    {
      var moved, deactivated := MergeContactRows(s, t, contactRows);
      var resettled := MergeAddressRows(s, t, addressRows);
      var noted := |NotesOf(notes, s)|;
      notes := MergedNotes(notes, s, t);
      customers := customers[s := customers[s].(status := Inactive, mergedInto := Some(t))];
      merges := merges + [Merge(s, t, Rules(moved, deactivated, resettled, noted))];
    }

    method MergeCustomers(manager: bool, org: nat, s: nat, t: nat, contactRows: seq<nat>, addressRows: seq<nat>)
      returns (r: Result<(), CustomerError>)
      requires ContactsValid(contacts) && AddressesValid(addresses)
      requires Lists(contactRows, ActiveContacts(contacts, s)) && Lists(addressRows, ActiveAddresses(addresses, s))
      modifies this
      ensures Answers(old(Snapshot()), Snapshot(), r, Apply(old(Snapshot()), MergeInto(manager, org, s, t)))
    {
      if !manager {
        return Err(PermissionDenied);
      }
      if s == t || |customers| <= s || |customers| <= t {
        return Err(InvalidMerge);
      }
      if customers[s].org != org || customers[t].org != org {
        return Err(InvalidMerge);
      }
      if customers[s].mergedInto.Some? || customers[t].mergedInto.Some? {
        return Err(InvalidMerge);
      }
      FoldInto(s, t, contactRows, addressRows);
      r := Ok(());
    }

    // --- resolve_canonical ---

    method Lookup(org: nat, id: nat) returns (found: Option<nat>)
      ensures found == if id < |customers| && customers[id].org == org then Some(id) else None
    {
      if id < |customers| && customers[id].org == org {
        return Some(id);
      }
      found := None;
    }

    // The seen guard never ends the walk: merge numbers rise along the links.
    method ResolveCanonical(org: nat, id: nat) returns (r: Option<nat>)
      requires Inv(Snapshot())
      ensures r == Resolved(Snapshot(), org, id)
      ensures r.Some? ==> r.value < |customers| && customers[r.value].mergedInto.None? && customers[r.value].org == org
    {
      var current: Option<nat> := Lookup(org, id);
      var seen: set<nat> := {};
      while current.Some? && customers[current.value].mergedInto.Some? && current.value !in seen
        invariant current.Some? <==> id < |customers| && customers[id].org == org
        invariant current.Some? ==> current.value < |customers| && customers[current.value].org == org
        invariant current.Some? ==> Canon(merges, current.value) == Canon(merges, id)
        invariant current.Some? ==> forall y :: y in seen ==>
                  MergeNumber(merges, y) < MergeNumber(merges, current.value)
        decreases if current.Some? then |merges| - MergeNumber(merges, current.value) else 0
      {
        ghost var k := MergeNumber(merges, current.value);
        assert MergedAway(merges, current.value);
        assert merges[k].source == current.value && customers[current.value].mergedInto == Some(merges[k].target);
        CanonFollows(merges, k);
        MergeNumbersRise(merges, k);
        seen := seen + {current.value};
        current := Lookup(org, customers[current.value].mergedInto.value);
      }
      if current.Some? {
        assert current.value !in seen;
        assert !MergedAway(merges, current.value);
        CanonUnmerged(merges, current.value);
      }
      r := current;
    }
  }
}
