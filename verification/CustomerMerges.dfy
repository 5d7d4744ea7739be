// Merging conserves contacts and addresses, keeps every uniqueness rule, and
// makes the merged customers a forest that resolve_canonical walks to its root.
module CustomerMerges {
  import opened Common
  import opened Customers

  // --- contacts ---

  lemma AddKeepsContactsValid(contacts: seq<Contact>, owner: nat, kind: Kind, value: string, primary: bool)
    requires ContactsValid(contacts)
    ensures ContactsValid(WithContact(contacts, owner, kind, value, primary))
  {
    var after := WithContact(contacts, owner, kind, value, primary);
    if !Holds(contacts, owner, kind, value) {
      var n := |contacts|;
      forall i | 0 <= i < n && after[i].active && after[i].owner == owner && after[i].kind == kind
        ensures after[i].value != value && !(after[i].primary && primary)
      {
        assert contacts[i].value == after[i].value;
        assert !Same(contacts[i], owner, kind, value);
      }
    }
  }

  predicate HeldAsPrimary(contacts: seq<Contact>, owner: nat, kind: Kind, value: string) {
    exists i :: 0 <= i < |contacts| && Same(contacts[i], owner, kind, value) && contacts[i].primary
  }

  // The value is held afterwards and nobody gains or loses another.  It is
  // primary exactly when it was already held as primary, or was new and asked
  // to be: a value held without being primary is not promoted.
  lemma AddHolds(contacts: seq<Contact>, owner: nat, kind: Kind, value: string, primary: bool)
    requires ContactsValid(contacts)
    ensures var after := WithContact(contacts, owner, kind, value, primary);
            && (forall o, k, v ::
                  Holds(after, o, k, v) <==> Holds(contacts, o, k, v) || (o == owner && k == kind && v == value))
            && (HeldAsPrimary(after, owner, kind, value) <==>
                  if Holds(contacts, owner, kind, value) then HeldAsPrimary(contacts, owner, kind, value) else primary)
  {
    var after := WithContact(contacts, owner, kind, value, primary);
    forall o, k, v
      ensures Holds(after, o, k, v) <==> Holds(contacts, o, k, v) || (o == owner && k == kind && v == value)
    {
      if Holds(contacts, o, k, v) {
        var i :| 0 <= i < |contacts| && Same(contacts[i], o, k, v);
        assert Same(after[i], o, k, v);
      }
      if Holds(after, o, k, v) {
        var i :| 0 <= i < |after| && Same(after[i], o, k, v);
        assert i < |contacts| ==> Same(contacts[i], o, k, v);
      }
      if !Holds(contacts, owner, kind, value) {
        assert Same(after[|contacts|], owner, kind, value);
      }
    }
    if !Holds(contacts, owner, kind, value) {
      NewValueIsPrimary(contacts, owner, kind, value, primary);
    }
  }

  lemma NewValueIsPrimary(contacts: seq<Contact>, owner: nat, kind: Kind, value: string, primary: bool)
    requires !Holds(contacts, owner, kind, value)
    ensures HeldAsPrimary(WithContact(contacts, owner, kind, value, primary), owner, kind, value) <==> primary
  {
    var after := WithContact(contacts, owner, kind, value, primary);
    var n := |contacts|;
    assert Same(after[n], owner, kind, value) && after[n].primary == primary;
    forall i | 0 <= i < n
      ensures !Same(after[i], owner, kind, value)
    {
      assert !Same(contacts[i], owner, kind, value);
    }
  }

  lemma MergeKeepsContactsValid(contacts: seq<Contact>, s: nat, t: nat)
    requires ContactsValid(contacts) && s != t
    ensures ContactsValid(MergedContacts(contacts, s, t))
  {
    var after := MergedContacts(contacts, s, t);
    forall i, j | 0 <= i < j < |after| && after[i].active && after[j].active
                  && after[i].owner == after[j].owner && after[i].kind == after[j].kind
      ensures after[i].value != after[j].value && !(after[i].primary && after[j].primary)
    {
      if contacts[i].owner != contacts[j].owner {
        var (kept, moved) := if contacts[i].owner == t then (i, j) else (j, i);
        assert contacts[moved].owner == s && contacts[kept].owner == t;
        assert !Same(contacts[kept], t, contacts[moved].kind, contacts[moved].value);
        assert contacts[kept].primary ==> PrimaryOf(contacts[kept], t, contacts[moved].kind);
      }
    }
  }

  // The target ends up with the union of both value sets, the source with none,
  // everybody else with what they had.
  lemma MergeUnitesContacts(contacts: seq<Contact>, s: nat, t: nat, owner: nat, kind: Kind, value: string)
    requires s != t
    ensures var after := MergedContacts(contacts, s, t);
            Holds(after, owner, kind, value) <==>
            if owner == t then Holds(contacts, s, kind, value) || Holds(contacts, t, kind, value)
            else owner != s && Holds(contacts, owner, kind, value)
  {
    var after := MergedContacts(contacts, s, t);
    if Holds(after, owner, kind, value) {
      var i :| 0 <= i < |after| && Same(after[i], owner, kind, value);
      assert Same(contacts[i], contacts[i].owner, kind, value);
    }
    if Holds(contacts, t, kind, value) {
      var i :| 0 <= i < |contacts| && Same(contacts[i], t, kind, value);
      assert Same(after[i], t, kind, value);
    } else if Holds(contacts, s, kind, value) {
      var i :| 0 <= i < |contacts| && Same(contacts[i], s, kind, value);
      assert Same(after[i], t, kind, value);
    }
    if owner != s && owner != t && Holds(contacts, owner, kind, value) {
      var i :| 0 <= i < |contacts| && Same(contacts[i], owner, kind, value);
      assert Same(after[i], owner, kind, value);
    }
  }

  // Every active contact of the source is either moved or deactivated, and the
  // two counters add up to their number.
  lemma MergeConservesContacts(contacts: seq<Contact>, s: nat, t: nat)
    requires s != t
    ensures var after := MergedContacts(contacts, s, t);
            var mine := ActiveContacts(contacts, s);
            var dropped := DuplicateContacts(contacts, s, t);
            && ActiveContacts(after, s) == {}
            && ActiveContacts(after, t) == ActiveContacts(contacts, t) + (mine - dropped)
            && |mine - dropped| + |dropped| == |mine|
            && (forall i :: i in dropped ==> !after[i].active && after[i].owner == s)
  {
    var after := MergedContacts(contacts, s, t);
    var mine := ActiveContacts(contacts, s);
    var dropped := DuplicateContacts(contacts, s, t);
    assert ActiveContacts(after, t) == ActiveContacts(contacts, t) + (mine - dropped);
    assert (mine - dropped) + dropped == mine;
    assert (mine - dropped) !! dropped;
  }

  // Contacts that change hands, and contacts that are switched off.
  function HandedOver(before: seq<Contact>, after: seq<Contact>, s: nat, t: nat): set<nat> {
    set i: nat | i < |before| && i < |after| && before[i].owner == s && before[i].active && after[i].owner == t
                 && after[i].active
  }

  function SwitchedOff(before: seq<Contact>, after: seq<Contact>): set<nat> {
    set i: nat | i < |before| && i < |after| && before[i].active && !after[i].active
  }

  // The merge record counts what the merge did to the rows.
  lemma MergeCountsItsWork(registry: Registry, org: nat, s: nat, t: nat)
    requires Mergeable(registry.customers, org, s, t)
    ensures var r := Apply(registry, MergeInto(true, org, s, t));
            && r.Ok?
            && r.value.merges == registry.merges
                                 + [Merge(s, t,
                                          Rules(|HandedOver(registry.contacts, r.value.contacts, s, t)|,
                                                |SwitchedOff(registry.contacts, r.value.contacts)|,
                                                |ActiveAddresses(registry.addresses, s)|,
                                                |NotesOf(registry.notes, s)|))]
  {
    var after := MergedContacts(registry.contacts, s, t);
    assert HandedOver(registry.contacts, after, s, t)
           == ActiveContacts(registry.contacts, s) - DuplicateContacts(registry.contacts, s, t);
    assert SwitchedOff(registry.contacts, after) == DuplicateContacts(registry.contacts, s, t);
  }

  // A primary survives unless the source's was a duplicate: then the contact
  // goes and its twin is not promoted.
  lemma PrimarySurvivesExactly(contacts: seq<Contact>, s: nat, t: nat, kind: Kind)
    requires s != t
    ensures HasPrimary(MergedContacts(contacts, s, t), t, kind) <==>
            || HasPrimary(contacts, t, kind)
            || (exists i ::
                  && 0 <= i < |contacts|
                  && PrimaryOf(contacts[i], s, kind)
                  && !Holds(contacts, t, kind, contacts[i].value))
  {
    var after := MergedContacts(contacts, s, t);
    if HasPrimary(after, t, kind) {
      var i :| 0 <= i < |after| && PrimaryOf(after[i], t, kind);
      assert if contacts[i].owner == t then PrimaryOf(contacts[i], t, kind) else PrimaryOf(contacts[i], s, kind);
    }
    if HasPrimary(contacts, t, kind) {
      var i :| 0 <= i < |contacts| && PrimaryOf(contacts[i], t, kind);
      assert PrimaryOf(after[i], t, kind);
    } else if i :|
        && 0 <= i < |contacts|
        && PrimaryOf(contacts[i], s, kind)
        && !Holds(contacts, t, kind, contacts[i].value)
    {
      assert PrimaryOf(after[i], t, kind);
    }
  }

  // Two customers share a number; it is the source's primary and not the
  // target's: after the merge the target has no primary at all.
  lemma PrimaryCanBeLost()
    ensures var contacts := [Contact(0, Phone, "55", true, true), Contact(1, Phone, "55", false, true)];
            ContactsValid(contacts) && HasPrimary(contacts, 0, Phone)
            && !HasPrimary(MergedContacts(contacts, 0, 1), 1, Phone)
  {
    var contacts := [Contact(0, Phone, "55", true, true), Contact(1, Phone, "55", false, true)];
    assert PrimaryOf(contacts[0], 0, Phone);
    assert Same(contacts[1], 1, Phone, "55");
    PrimarySurvivesExactly(contacts, 0, 1, Phone);
  }

  // --- addresses ---

  lemma AddKeepsAddressesValid(addresses: seq<Address>, owner: nat, shipping: bool, billing: bool)
    requires AddressesValid(addresses)
    ensures AddressesValid(Yielded(addresses, owner, shipping, billing) + [Address(owner, shipping, billing, true)])
  {
  }

  lemma MergeKeepsAddressesValid(addresses: seq<Address>, s: nat, t: nat)
    requires AddressesValid(addresses) && s != t
    ensures AddressesValid(MergedAddresses(addresses, s, t))
  {
    var after := MergedAddresses(addresses, s, t);
    forall i, j | 0 <= i < j < |after| && after[i].active && after[j].active && after[i].owner == after[j].owner
      ensures !(after[i].shipping && after[j].shipping) && !(after[i].billing && after[j].billing)
    {
      if addresses[i].owner != addresses[j].owner {
        var kept := if addresses[i].owner == t then i else j;
        assert addresses[kept].shipping ==> ShippingOf(addresses[kept], t);
        assert addresses[kept].billing ==> BillingOf(addresses[kept], t);
      }
    }
  }

  // Every active address of the source becomes the target's, and a default of
  // either customer leaves the target with one.
  lemma MergeConservesAddresses(addresses: seq<Address>, s: nat, t: nat)
    requires s != t
    ensures var after := MergedAddresses(addresses, s, t);
            && ActiveAddresses(after, s) == {}
            && ActiveAddresses(after, t) == ActiveAddresses(addresses, t) + ActiveAddresses(addresses, s)
            && (HasShipping(after, t) <==> HasShipping(addresses, t) || HasShipping(addresses, s))
            && (HasBilling(after, t) <==> HasBilling(addresses, t) || HasBilling(addresses, s))
  {
    var after := MergedAddresses(addresses, s, t);
    if i :| 0 <= i < |addresses| && ShippingOf(addresses[i], t) {
      assert ShippingOf(after[i], t);
    } else if i :| 0 <= i < |addresses| && ShippingOf(addresses[i], s) {
      assert ShippingOf(after[i], t);
    }
    if i :| 0 <= i < |addresses| && BillingOf(addresses[i], t) {
      assert BillingOf(after[i], t);
    } else if i :| 0 <= i < |addresses| && BillingOf(addresses[i], s) {
      assert BillingOf(after[i], t);
    }
  }

  // --- the forest ---

  predicate MergedAway(merges: seq<Merge>, x: nat) {
    exists k :: 0 <= k < |merges| && merges[k].source == x
  }

  // Whoever takes part in a merge was not merged away before it.
  predicate Ordered(merges: seq<Merge>) {
    forall k :: 0 <= k < |merges| ==>
                  && merges[k].source != merges[k].target
                  && !MergedAway(merges[..k], merges[k].source)
                  && !MergedAway(merges[..k], merges[k].target)
  }

  // The merged_into column and the merge records say the same.
  predicate Recorded(customers: seq<Customer>, merges: seq<Merge>) {
    && (forall k :: 0 <= k < |merges| ==>
          && merges[k].source < |customers| && merges[k].target < |customers|
          && customers[merges[k].source].mergedInto == Some(merges[k].target)
          && customers[merges[k].source].org == customers[merges[k].target].org)
    && (forall x :: 0 <= x < |customers| && customers[x].mergedInto.Some? ==> MergedAway(merges, x))
  }

  lemma OrderedPrefix(merges: seq<Merge>, n: nat)
    requires Ordered(merges) && n <= |merges|
    ensures Ordered(merges[..n])
  {
    forall k | 0 <= k < n
      ensures merges[..n][..k] == merges[..k]
    {
    }
  }

  lemma {:induction false} CanonUnmerged(merges: seq<Merge>, x: nat)
    requires !MergedAway(merges, x)
    ensures Canon(merges, x) == x
    decreases |merges|
  {
    if merges != [] {
      var before := merges[..|merges| - 1];
      assert merges[|merges| - 1].source != x;
      forall k | 0 <= k < |before|
        ensures before[k].source != x
      {
        assert merges[k].source != x;
      }
      CanonUnmerged(before, x);
    }
  }

  // A merged customer has the root of the customer it was merged into.
  lemma {:induction false} CanonFollows(merges: seq<Merge>, k: nat)
    requires Ordered(merges) && k < |merges|
    ensures Canon(merges, merges[k].source) == Canon(merges, merges[k].target)
    decreases |merges|
  {
    var n := |merges| - 1;
    OrderedPrefix(merges, n);
    if k == n {
      CanonUnmerged(merges[..n], merges[n].source);
      CanonUnmerged(merges[..n], merges[n].target);
    } else {
      CanonFollows(merges[..n], k);
    }
  }

  lemma {:induction false} CanonIsUnmerged(merges: seq<Merge>, x: nat)
    requires Ordered(merges)
    ensures !MergedAway(merges, Canon(merges, x))
    decreases |merges|
  {
    if merges != [] {
      var n := |merges| - 1;
      OrderedPrefix(merges, n);
      CanonIsUnmerged(merges[..n], x);
      var root := Canon(merges, x);
      assert !MergedAway(merges[..n], root) && merges[n].source != root;
      forall k | 0 <= k < |merges|
        ensures merges[k].source != root
      {
        if k < n {
          assert merges[..n][k].source != root;
        }
      }
    }
  }

  // The number of the merge that took x away, or the number of merges if none did.
  function MergeNumber(merges: seq<Merge>, x: nat): (k: nat)
    ensures k <= |merges|
    ensures k < |merges| <==> MergedAway(merges, x)
    ensures k < |merges| ==> merges[k].source == x
    decreases |merges|
  {
    if merges == [] then 0
    else
      var n := |merges| - 1;
      var earlier := MergeNumber(merges[..n], x);
      assert earlier < n ==> merges[earlier].source == x;
      assert MergedAway(merges[..n], x) ==> earlier < n;
      if earlier < n then earlier else if merges[n].source == x then n else n + 1
  }

  lemma NotMergedBefore(merges: seq<Merge>, m: nat, k: nat)
    requires Ordered(merges) && m < k < |merges|
    ensures merges[m].source != merges[k].source && merges[m].source != merges[k].target
  {
    assert merges[..k][m].source == merges[m].source;
  }

  // Along merged_into the merge numbers rise.
  lemma MergeNumbersRise(merges: seq<Merge>, k: nat)
    requires Ordered(merges) && k < |merges|
    ensures k < MergeNumber(merges, merges[k].target)
  {
    forall m | 0 <= m < k
      ensures merges[m].source != merges[k].target
    {
      NotMergedBefore(merges, m, k);
    }
  }

  // A chain of merged_into links, oldest first.
  predicate Chain(customers: seq<Customer>, path: seq<nat>) {
    && (forall i :: 0 <= i < |path| ==> path[i] < |customers|)
    && (forall i :: 0 <= i < |path| - 1 ==> customers[path[i]].mergedInto == Some(path[i + 1]))
  }

  lemma {:induction false} ChainRises(customers: seq<Customer>, merges: seq<Merge>, path: seq<nat>)
    requires Ordered(merges) && Recorded(customers, merges) && Chain(customers, path) && 2 <= |path|
    ensures MergeNumber(merges, path[0]) < MergeNumber(merges, path[|path| - 1])
    decreases |path|
  {
    var n := |path|;
    var k := MergeNumber(merges, path[n - 2]);
    assert customers[path[n - 2]].mergedInto == Some(path[(n - 2) + 1]);
    assert MergedAway(merges, path[n - 2]);
    assert merges[k].target == path[n - 1];
    MergeNumbersRise(merges, k);
    if 2 < n {
      assert path[..n - 1][n - 2] == path[n - 2];
      ChainRises(customers, merges, path[..n - 1]);
    }
  }

  // --- every registry ---

  lemma MergeKeepsOrder(registry: Registry, org: nat, s: nat, t: nat)
    requires Ordered(registry.merges) && Recorded(registry.customers, registry.merges)
    requires Mergeable(registry.customers, org, s, t)
    ensures Ordered(Merged(registry, s, t).merges)
  {
    var after := Merged(registry, s, t).merges;
    var n := |registry.merges|;
    assert !MergedAway(registry.merges, s) && !MergedAway(registry.merges, t);
    forall k | 0 <= k < |after|
      ensures after[..k] == if k < n then registry.merges[..k] else registry.merges
    {
    }
  }

  lemma MergeKeepsRecords(registry: Registry, org: nat, s: nat, t: nat)
    requires Recorded(registry.customers, registry.merges) && Mergeable(registry.customers, org, s, t)
    ensures Recorded(Merged(registry, s, t).customers, Merged(registry, s, t).merges)
  {
    var after := Merged(registry, s, t);
    var n := |registry.merges|;
    assert after.merges[n].source == s;
    forall x | 0 <= x < |after.customers| && after.customers[x].mergedInto.Some?
      ensures MergedAway(after.merges, x)
    {
      if x != s {
        var k :| 0 <= k < n && registry.merges[k].source == x;
        assert after.merges[k].source == x;
      }
    }
  }

  // Active rows belong to customers that were not merged away.
  predicate OwnersCurrent(registry: Registry) {
    && (forall i :: 0 <= i < |registry.contacts| && registry.contacts[i].active ==>
          registry.contacts[i].owner < |registry.customers|
          && registry.customers[registry.contacts[i].owner].mergedInto.None?)
    && (forall i :: 0 <= i < |registry.addresses| && registry.addresses[i].active ==>
          registry.addresses[i].owner < |registry.customers|
          && registry.customers[registry.addresses[i].owner].mergedInto.None?)
  }

  predicate Inv(registry: Registry) {
    && ContactsValid(registry.contacts)
    && AddressesValid(registry.addresses)
    && Ordered(registry.merges)
    && Recorded(registry.customers, registry.merges)
    && OwnersCurrent(registry)
  }

  lemma MergeKeepsOwnersCurrent(registry: Registry, org: nat, s: nat, t: nat)
    requires OwnersCurrent(registry) && Mergeable(registry.customers, org, s, t)
    ensures OwnersCurrent(Merged(registry, s, t))
  {
    var after := Merged(registry, s, t);
    forall i | 0 <= i < |after.contacts| && after.contacts[i].active
      ensures after.contacts[i].owner == t || (registry.contacts[i].active && after.contacts[i].owner != s)
      ensures after.contacts[i].owner != t ==> after.contacts[i].owner == registry.contacts[i].owner
    {
    }
    forall i | 0 <= i < |after.addresses| && after.addresses[i].active
      ensures after.addresses[i].owner == t || (registry.addresses[i].active && after.addresses[i].owner != s)
      ensures after.addresses[i].owner != t ==> after.addresses[i].owner == registry.addresses[i].owner
    {
    }
  }

  lemma MergeKeepsInv(registry: Registry, org: nat, s: nat, t: nat)
    requires Inv(registry) && Mergeable(registry.customers, org, s, t)
    ensures Inv(Merged(registry, s, t))
  {
    MergeKeepsContactsValid(registry.contacts, s, t);
    MergeKeepsAddressesValid(registry.addresses, s, t);
    MergeKeepsOrder(registry, org, s, t);
    MergeKeepsRecords(registry, org, s, t);
    MergeKeepsOwnersCurrent(registry, org, s, t);
  }

  lemma AddContactKeepsInv(registry: Registry, owner: nat, kind: Kind, value: string, primary: bool)
    requires Inv(registry) && owner < |registry.customers| && registry.customers[owner].mergedInto.None?
    ensures Inv(registry.(contacts := WithContact(registry.contacts, owner, kind, value, primary)))
  {
    AddKeepsContactsValid(registry.contacts, owner, kind, value, primary);
  }

  lemma AddAddressKeepsInv(registry: Registry, owner: nat, shipping: bool, billing: bool)
    requires Inv(registry) && owner < |registry.customers| && registry.customers[owner].mergedInto.None?
    ensures Inv(registry.(addresses := Yielded(registry.addresses, owner, shipping, billing)
                          + [Address(owner, shipping, billing, true)]))
  {
    AddKeepsAddressesValid(registry.addresses, owner, shipping, billing);
  }

  lemma CreateKeepsInv(registry: Registry, org: nat)
    requires Inv(registry)
    ensures Inv(registry.(customers := registry.customers + [Customer(org, Active, None)]))
  {
  }

  lemma StepKeepsInv(registry: Registry, command: Command)
    requires Inv(registry)
    ensures Inv(Next(registry, command))
  {
    if Apply(registry, command).Ok? {
      match command
      case Create(_, org) => CreateKeepsInv(registry, org);
      case AddContact(_, _, customer, kind, value, primary) => AddContactKeepsInv(registry, customer, kind, value,
          primary);
      case AddAddress(_, _, customer, shipping, billing) => AddAddressKeepsInv(registry, customer, shipping, billing);
      case AddNote(_, _, _) =>
      case MergeInto(_, org, s, t) => MergeKeepsInv(registry, org, s, t);
    }
  }

  function Run(commands: seq<Command>): Registry {
    if commands == [] then NewRegistry else Next(Run(commands[..|commands| - 1]), commands[|commands| - 1])
  }

  lemma {:induction false} RunInv(commands: seq<Command>)
    ensures Inv(Run(commands))
  {
    if commands != [] {
      RunInv(commands[..|commands| - 1]);
      StepKeepsInv(Run(commands[..|commands| - 1]), commands[|commands| - 1]);
    }
  }

  // After any commands the links have no cycle.
  lemma LinksAreAcyclic(commands: seq<Command>, path: seq<nat>)
    requires Chain(Run(commands).customers, path) && 2 <= |path|
    ensures path[0] != path[|path| - 1]
  {
    RunInv(commands);
    ChainRises(Run(commands).customers, Run(commands).merges, path);
  }

  // The root of a customer is unmerged and in the same organisation.
  lemma {:induction false} RootIsInOrganisation(customers: seq<Customer>, merges: seq<Merge>, x: nat)
    requires x < |customers|
    requires forall k :: 0 <= k < |merges| ==>
               && merges[k].source < |customers| && merges[k].target < |customers|
               && customers[merges[k].source].org == customers[merges[k].target].org
    ensures Canon(merges, x) < |customers| && customers[Canon(merges, x)].org == customers[x].org
    decreases |merges|
  {
    if merges != [] {
      var before := merges[..|merges| - 1];
      forall k | 0 <= k < |before|
        ensures before[k] == merges[k]
      {
      }
      RootIsInOrganisation(customers, before, x);
    }
  }

  // A merge makes the target the root of exactly those customers whose root
  // was the source, and changes nobody else's.
  lemma MergeRedirectsOneClass(registry: Registry, org: nat, s: nat, t: nat, x: nat)
    requires Inv(registry) && Mergeable(registry.customers, org, s, t) && x < |registry.customers|
    ensures var after := Next(registry, MergeInto(true, org, s, t));
            && Canon(after.merges, x) == (if Canon(registry.merges, x) == s then t else Canon(registry.merges, x))
            && Canon(after.merges, x) < |after.customers|
            && x < |after.customers|
            && after.customers[Canon(after.merges, x)].mergedInto.None?
            && after.customers[Canon(after.merges, x)].org == after.customers[x].org
  {
    var after := Next(registry, MergeInto(true, org, s, t));
    assert after.merges[..|registry.merges|] == registry.merges;
    StepKeepsInv(registry, MergeInto(true, org, s, t));
    CanonIsUnmerged(after.merges, x);
    RootIsInOrganisation(after.customers, after.merges, x);
  }

  // What resolve_canonical computes.
  function Resolved(registry: Registry, org: nat, x: nat): Option<nat> {
    if x < |registry.customers| && registry.customers[x].org == org then Some(Canon(registry.merges, x)) else None
  }
}
