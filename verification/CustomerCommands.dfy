// Exactly when each customer command is accepted, and whose rows it touches.
module CustomerCommands {
  import opened Common
  import opened Customers
  import opened CustomerMerges

  // A current customer of the organisation, addressed by one of its members.
  predicate Addressed(registry: Registry, member: bool, org: nat, customer: nat) {
    && member
    && customer < |registry.customers|
    && registry.customers[customer].org == org
    && registry.customers[customer].mergedInto.None?
  }

  // An active contact row with exactly this owner, kind and value.
  predicate Listed(contacts: seq<Contact>, owner: nat, kind: Kind, value: string) {
    Contact(owner, kind, value, true, true) in contacts || Contact(owner, kind, value, false, true) in contacts
  }

  lemma ListedIsHeld(contacts: seq<Contact>, owner: nat, kind: Kind, value: string)
    ensures Listed(contacts, owner, kind, value) <==> Holds(contacts, owner, kind, value)
  {
    if i :| 0 <= i < |contacts| && Same(contacts[i], owner, kind, value) {
      assert contacts[i] == Contact(owner, kind, value, contacts[i].primary, true);
    }
    if Listed(contacts, owner, kind, value) {
      var contact := if Contact(owner, kind, value, true, true) in contacts
        then Contact(owner, kind, value, true, true) else Contact(owner, kind, value, false, true);
      var i :| 0 <= i < |contacts| && contacts[i] == contact;
      assert Same(contacts[i], owner, kind, value);
    }
  }

  lemma PrimaryIsListed(contacts: seq<Contact>, owner: nat, kind: Kind)
    ensures HasPrimary(contacts, owner, kind) <==> exists value :: Contact(owner, kind, value, true, true) in contacts
  {
    if i :| 0 <= i < |contacts| && PrimaryOf(contacts[i], owner, kind) {
      assert contacts[i] == Contact(owner, kind, contacts[i].value, true, true);
    }
    if value :| Contact(owner, kind, value, true, true) in contacts {
      var i :| 0 <= i < |contacts| && contacts[i] == Contact(owner, kind, value, true, true);
      assert PrimaryOf(contacts[i], owner, kind);
    }
  }

  lemma DefaultsAreListed(addresses: seq<Address>, owner: nat)
    ensures HasShipping(addresses, owner) <==>
            Address(owner, true, false, true) in addresses || Address(owner, true, true, true) in addresses
    ensures HasBilling(addresses, owner) <==>
            Address(owner, false, true, true) in addresses || Address(owner, true, true, true) in addresses
  {
    forall i | 0 <= i < |addresses|
      ensures ShippingOf(addresses[i], owner) <==>
              addresses[i] == Address(owner, true, false, true) || addresses[i] == Address(owner, true, true, true)
      ensures BillingOf(addresses[i], owner) <==>
              addresses[i] == Address(owner, false, true, true) || addresses[i] == Address(owner, true, true, true)
    {
    }
  }

  lemma CustomerCreatedExactly(registry: Registry, member: bool, org: nat)
    ensures var r := Apply(registry, Create(member, org));
            && (r.Ok? <==> member)
            && (r.Ok? ==> r.value == registry.(customers := registry.customers + [Customer(org, Active, None)]))
  {
  }

  // A value the customer has is left as it is.  A new one comes last; asked for
  // as primary it takes that from the customer's other contacts of its kind,
  // and from nobody else's.
  lemma ContactAddedExactly(
    registry: Registry, member: bool, org: nat, customer: nat, kind: Kind, value: string, primary: bool)
    ensures var r := Apply(registry, AddContact(member, org, customer, kind, value, primary));
            && (r.Ok? <==> Addressed(registry, member, org, customer))
            && (r.Ok? && Listed(registry.contacts, customer, kind, value) ==> r.value == registry)
            && (r.Ok? && !Listed(registry.contacts, customer, kind, value) ==>
                  var n := |registry.contacts|;
                  && r.value == registry.(contacts := r.value.contacts)
                  && |r.value.contacts| == n + 1
                  && r.value.contacts[n] == Contact(customer, kind, value, primary, true)
                  && forall i :: 0 <= i < n ==>
                       var contact := registry.contacts[i];
                       r.value.contacts[i] ==
                       if primary && contact.active && contact.owner == customer && contact.kind == kind
                       then contact.(primary := false) else contact)
  {
    ListedIsHeld(registry.contacts, customer, kind, value);
  }

  // A new default address takes the defaults it asks for from the customer's
  // other active addresses, and from nobody else's.
  lemma AddressAddedExactly(
    registry: Registry, member: bool, org: nat, customer: nat, shipping: bool, billing: bool)
    ensures var r := Apply(registry, AddAddress(member, org, customer, shipping, billing));
            && (r.Ok? <==> Addressed(registry, member, org, customer))
            && (r.Ok? ==>
                  var n := |registry.addresses|;
                  && r.value == registry.(addresses := r.value.addresses)
                  && |r.value.addresses| == n + 1
                  && r.value.addresses[n] == Address(customer, shipping, billing, true)
                  && forall i :: 0 <= i < n ==>
                       var address := registry.addresses[i];
                       r.value.addresses[i] ==
                       if address.active && address.owner == customer
                       then address.(shipping := address.shipping && !shipping, billing := address.billing && !billing)
                       else address)
  {
  }

  lemma NoteAddedExactly(registry: Registry, member: bool, org: nat, customer: nat)
    ensures var r := Apply(registry, AddNote(member, org, customer));
            && (r.Ok? <==> Addressed(registry, member, org, customer))
            && (r.Ok? ==> r.value == registry.(notes := registry.notes + [customer]))
  {
  }

  // Two different current customers of one organisation can be merged, by a
  // manager; the source ends inactive and refers to the target, and no other
  // customer changes.
  lemma MergedExactly(registry: Registry, manager: bool, org: nat, s: nat, t: nat)
    ensures var r := Apply(registry, MergeInto(manager, org, s, t));
            && (r.Ok? <==> s != t && Addressed(registry, manager, org, s) && Addressed(registry, manager, org, t))
            && (r.Ok? ==>
                  && r.value.customers ==
                     registry.customers[s := Customer(registry.customers[s].org, Inactive, Some(t))]
                  && |r.value.merges| == |registry.merges| + 1
                  && r.value.merges[..|registry.merges|] == registry.merges
                  && (r.value.merges[|registry.merges|].source, r.value.merges[|registry.merges|].target) == (s, t))
  {
  }

  // The merge moves the source's active contacts and no other.  A moved contact
  // keeps its value, and stays primary unless the target has a primary of the
  // kind; one the target has already is switched off and stays behind.
  lemma MergeMovesContact(registry: Registry, org: nat, s: nat, t: nat, i: nat)
    requires Mergeable(registry.customers, org, s, t) && i < |registry.contacts|
    ensures var r := Apply(registry, MergeInto(true, org, s, t));
            var contact := registry.contacts[i];
            && r.Ok? && |r.value.contacts| == |registry.contacts|
            && r.value.contacts[i] ==
               if contact.owner != s || !contact.active then contact
               else if Listed(registry.contacts, t, contact.kind, contact.value)
               then Contact(s, contact.kind, contact.value, false, false)
               else Contact(t, contact.kind, contact.value,
                            contact.primary && forall value ::
                              Contact(t, contact.kind, value, true, true) !in registry.contacts, true)
  {
    var contact := registry.contacts[i];
    ListedIsHeld(registry.contacts, t, contact.kind, contact.value);
    PrimaryIsListed(registry.contacts, t, contact.kind);
  }

  // A moved address stays a default unless the target has one.
  lemma MergeMovesAddress(registry: Registry, org: nat, s: nat, t: nat, i: nat)
    requires Mergeable(registry.customers, org, s, t) && i < |registry.addresses|
    ensures var r := Apply(registry, MergeInto(true, org, s, t));
            var address := registry.addresses[i];
            var both := Address(t, true, true, true) in registry.addresses;
            && r.Ok? && |r.value.addresses| == |registry.addresses|
            && r.value.addresses[i] ==
               if address.owner != s || !address.active then address
               else Address(t,
                            address.shipping && !both && Address(t, true, false, true) !in registry.addresses,
                            address.billing && !both && Address(t, false, true, true) !in registry.addresses, true)
  {
    DefaultsAreListed(registry.addresses, t);
  }

  lemma MergeMovesNotes(registry: Registry, org: nat, s: nat, t: nat)
    requires Mergeable(registry.customers, org, s, t)
    ensures var r := Apply(registry, MergeInto(true, org, s, t));
            && r.Ok? && |r.value.notes| == |registry.notes|
            && forall i :: 0 <= i < |registry.notes| ==>
                 r.value.notes[i] == if registry.notes[i] == s then t else registry.notes[i]
  {
  }

  // --- refusals ---

  // What the named error says is wrong with the command.
  predicate Explains(registry: Registry, command: Command, error: CustomerError) {
    match error
    case PermissionDenied => if command.MergeInto? then !command.manager else !command.member
    case OrganizationMismatch =>
      (command.AddContact? || command.AddAddress? || command.AddNote?)
      && (|registry.customers| <= command.customer || registry.customers[command.customer].org != command.org)
    case CustomerMerged =>
      (command.AddContact? || command.AddAddress? || command.AddNote?)
      && command.customer < |registry.customers| && registry.customers[command.customer].mergedInto.Some?
    case InvalidMerge =>
      command.MergeInto?
      && !(command.source != command.target
           && Addressed(registry, true, command.org, command.source)
           && Addressed(registry, true, command.org, command.target))
  }

  // A refusal names something that is wrong.
  lemma RefusalIsTruthful(registry: Registry, command: Command)
    requires Apply(registry, command).Err?
    ensures Explains(registry, command, Apply(registry, command).error)
  {
  }
}
