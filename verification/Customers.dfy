// Customers, their contacts and addresses, and the merge that folds one
// customer into another.
module Customers {
  import opened Common

  datatype Kind = Phone | WhatsApp | Email

  datatype Status = Active | Inactive | Blocked

  datatype Customer = Customer(org: nat, status: Status, mergedInto: Option<nat>)

  // value is the normalised value.
  datatype Contact = Contact(owner: nat, kind: Kind, value: string, primary: bool, active: bool)

  datatype Address = Address(owner: nat, shipping: bool, billing: bool, active: bool)

  datatype Rules = Rules(contactsMoved: nat, contactsDeactivated: nat, addressesMoved: nat, notesMoved: nat)

  datatype Merge = Merge(source: nat, target: nat, rules: Rules)

  // Rows are identified by their position; a note is its owner.
  datatype Registry = Registry(
    customers: seq<Customer>,
    contacts: seq<Contact>,
    addresses: seq<Address>,
    notes: seq<nat>,
    merges: seq<Merge>)

  datatype CustomerError = PermissionDenied | OrganizationMismatch | CustomerMerged | InvalidMerge

  const NewRegistry := Registry([], [], [], [], [])

  datatype Command =
    | Create(member: bool, org: nat)
    | AddContact(member: bool, org: nat, customer: nat, kind: Kind, value: string, primary: bool)
    | AddAddress(member: bool, org: nat, customer: nat, shipping: bool, billing: bool)
    | AddNote(member: bool, org: nat, customer: nat)
    | MergeInto(manager: bool, org: nat, source: nat, target: nat)

  // --- contacts ---

  predicate Same(c: Contact, owner: nat, kind: Kind, value: string) {
    c.active && c.owner == owner && c.kind == kind && c.value == value
  }

  predicate Holds(contacts: seq<Contact>, owner: nat, kind: Kind, value: string) {
    exists i :: 0 <= i < |contacts| && Same(contacts[i], owner, kind, value)
  }

  predicate PrimaryOf(c: Contact, owner: nat, kind: Kind) {
    c.active && c.primary && c.owner == owner && c.kind == kind
  }

  predicate HasPrimary(contacts: seq<Contact>, owner: nat, kind: Kind) {
    exists i :: 0 <= i < |contacts| && PrimaryOf(contacts[i], owner, kind)
  }

  // The two partial unique indexes on contacts.
  predicate ContactsValid(contacts: seq<Contact>) {
    forall i, j :: 0 <= i < j < |contacts| && contacts[i].active && contacts[j].active
                   && contacts[i].owner == contacts[j].owner && contacts[i].kind == contacts[j].kind ==>
                     contacts[i].value != contacts[j].value && !(contacts[i].primary && contacts[j].primary)
  }

  function Demoted(contacts: seq<Contact>, owner: nat, kind: Kind): (r: seq<Contact>)
    ensures |r| == |contacts|
    ensures forall i :: 0 <= i < |r| ==>
              r[i] == if PrimaryOf(contacts[i], owner, kind) then contacts[i].(primary := false) else contacts[i]
  {
    seq(|contacts|, i requires 0 <= i < |contacts| =>
      if PrimaryOf(contacts[i], owner, kind) then contacts[i].(primary := false) else contacts[i])
  }

  // An active contact with the same value is kept as it is, primary or not.
  function WithContact(contacts: seq<Contact>, owner: nat, kind: Kind, value: string, primary: bool): seq<Contact> {
    if Holds(contacts, owner, kind, value) then contacts
    else (if primary then Demoted(contacts, owner, kind) else contacts) + [Contact(owner, kind, value, primary, true)]
  }

  // What the merge does with one contact, looking only at the contacts before it.
  function MergedContact(contacts: seq<Contact>, c: Contact, s: nat, t: nat): Contact {
    if c.owner != s || !c.active then c
    else if Holds(contacts, t, c.kind, c.value) then c.(active := false, primary := false)
    else c.(owner := t, primary := c.primary && !HasPrimary(contacts, t, c.kind))
  }

  function MergedContacts(contacts: seq<Contact>, s: nat, t: nat): (r: seq<Contact>)
    ensures |r| == |contacts|
    ensures forall i :: 0 <= i < |r| ==> r[i] == MergedContact(contacts, contacts[i], s, t)
  {
    seq(|contacts|, i requires 0 <= i < |contacts| => MergedContact(contacts, contacts[i], s, t))
  }

  function ActiveContacts(contacts: seq<Contact>, owner: nat): set<nat> {
    set i: nat | i < |contacts| && contacts[i].active && contacts[i].owner == owner
  }

  function DuplicateContacts(contacts: seq<Contact>, s: nat, t: nat): set<nat> {
    set i | i in ActiveContacts(contacts, s) && Holds(contacts, t, contacts[i].kind, contacts[i].value)
  }

  // --- addresses ---

  predicate ShippingOf(a: Address, owner: nat) {
    a.active && a.shipping && a.owner == owner
  }

  predicate BillingOf(a: Address, owner: nat) {
    a.active && a.billing && a.owner == owner
  }

  predicate HasShipping(addresses: seq<Address>, owner: nat) {
    exists i :: 0 <= i < |addresses| && ShippingOf(addresses[i], owner)
  }

  predicate HasBilling(addresses: seq<Address>, owner: nat) {
    exists i :: 0 <= i < |addresses| && BillingOf(addresses[i], owner)
  }

  predicate AddressesValid(addresses: seq<Address>) {
    forall i, j :: 0 <= i < j < |addresses| && addresses[i].active && addresses[j].active
                   && addresses[i].owner == addresses[j].owner ==>
                     !(addresses[i].shipping && addresses[j].shipping)
                       && !(addresses[i].billing && addresses[j].billing)
  }

  // A new default takes the place of the old one.
  function Yielded(addresses: seq<Address>, owner: nat, shipping: bool, billing: bool): (r: seq<Address>)
    ensures |r| == |addresses|
    ensures forall i :: 0 <= i < |r| ==>
              r[i] == addresses[i].(
              shipping := addresses[i].shipping && !(shipping && ShippingOf(addresses[i], owner)),
              billing := addresses[i].billing && !(billing && BillingOf(addresses[i], owner)))
  {
    seq(|addresses|, i requires 0 <= i < |addresses| =>
      addresses[i].(
      shipping := addresses[i].shipping && !(shipping && ShippingOf(addresses[i], owner)),
      billing := addresses[i].billing && !(billing && BillingOf(addresses[i], owner))))
  }

  function MergedAddress(addresses: seq<Address>, a: Address, s: nat, t: nat): Address {
    if a.owner != s || !a.active then a
    else a.(
      owner := t,
      shipping := a.shipping && !HasShipping(addresses, t),
      billing := a.billing && !HasBilling(addresses, t))
  }

  function MergedAddresses(addresses: seq<Address>, s: nat, t: nat): (r: seq<Address>)
    ensures |r| == |addresses|
    ensures forall i :: 0 <= i < |r| ==> r[i] == MergedAddress(addresses, addresses[i], s, t)
  {
    seq(|addresses|, i requires 0 <= i < |addresses| => MergedAddress(addresses, addresses[i], s, t))
  }

  function ActiveAddresses(addresses: seq<Address>, owner: nat): set<nat> {
    set i: nat | i < |addresses| && addresses[i].active && addresses[i].owner == owner
  }

  // --- notes ---

  function MergedNotes(notes: seq<nat>, s: nat, t: nat): (r: seq<nat>)
    ensures |r| == |notes|
    ensures forall i :: 0 <= i < |r| ==> r[i] == if notes[i] == s then t else notes[i]
  {
    seq(|notes|, i requires 0 <= i < |notes| => if notes[i] == s then t else notes[i])
  }

  function NotesOf(notes: seq<nat>, owner: nat): set<nat> {
    set i: nat | i < |notes| && notes[i] == owner
  }

  // --- commands ---

  function Problem(registry: Registry, member: bool, org: nat, customer: nat): Option<CustomerError> {
    if !member then Some(PermissionDenied)
    else if |registry.customers| <= customer || registry.customers[customer].org != org then Some(OrganizationMismatch)
    else if registry.customers[customer].mergedInto.Some? then Some(CustomerMerged)
    else None
  }

  predicate Mergeable(customers: seq<Customer>, org: nat, source: nat, target: nat) {
    && source != target
    && source < |customers| && target < |customers|
    && customers[source].org == org && customers[target].org == org
    && customers[source].mergedInto.None? && customers[target].mergedInto.None?
  }

  function Counted(registry: Registry, s: nat, t: nat): Rules {
    Rules(
      |ActiveContacts(registry.contacts, s) - DuplicateContacts(registry.contacts, s, t)|,
      |DuplicateContacts(registry.contacts, s, t)|,
      |ActiveAddresses(registry.addresses, s)|,
      |NotesOf(registry.notes, s)|)
  }

  function Merged(registry: Registry, s: nat, t: nat): Registry
    requires s < |registry.customers|
  {
    Registry(
      registry.customers[s := registry.customers[s].(status := Inactive, mergedInto := Some(t))],
      MergedContacts(registry.contacts, s, t),
      MergedAddresses(registry.addresses, s, t),
      MergedNotes(registry.notes, s, t),
      registry.merges + [Merge(s, t, Counted(registry, s, t))])
  }

  function Apply(registry: Registry, command: Command): Result<Registry, CustomerError> {
    match command
    case Create(member, org) =>
      if !member then Err(PermissionDenied)
      else Ok(registry.(customers := registry.customers + [Customer(org, Active, None)]))
    case AddContact(member, org, customer, kind, value, primary) =>
      var problem := Problem(registry, member, org, customer);
      if problem.Some? then Err(problem.value)
      else Ok(registry.(contacts := WithContact(registry.contacts, customer, kind, value, primary)))
    case AddAddress(member, org, customer, shipping, billing) =>
      var problem := Problem(registry, member, org, customer);
      if problem.Some? then Err(problem.value)
      else
        Ok(registry.(
           addresses := Yielded(registry.addresses, customer, shipping, billing)
             + [Address(customer, shipping, billing, true)]))
    case AddNote(member, org, customer) =>
      var problem := Problem(registry, member, org, customer);
      if problem.Some? then Err(problem.value) else Ok(registry.(notes := registry.notes + [customer]))
    case MergeInto(manager, org, source, target) =>
      if !manager then Err(PermissionDenied)
      else if !Mergeable(registry.customers, org, source, target) then Err(InvalidMerge)
      else Ok(Merged(registry, source, target))
  }

  function Next(registry: Registry, command: Command): Registry {
    var r := Apply(registry, command);
    if r.Ok? then r.value else registry
  }

  // --- who a customer became ---

  // The root of x after the recorded merges: each one redirects a whole class.
  function Canon(merges: seq<Merge>, x: nat): nat
    decreases |merges|
  {
    if merges == [] then x
    else
      var earlier := Canon(merges[..|merges| - 1], x);
      var last := merges[|merges| - 1];
      if earlier == last.source then last.target else earlier
  }
}
