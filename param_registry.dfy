/**
 * The parameter registry: addresses get 0-based, consecutive ids in
 * order of first registration, and each id has an entry that is pending
 * until a descriptor is registered for it. The shared output value of an
 * output parameter is an opaque cell, identified by the value it was
 * initialised with.
 */
module ParamRegistry {
  import opened Common
  import opened Param

  /** A shared, atomic output value, as created. */
  datatype SharedValue = SharedValue(initial: Value)

  datatype RegistryEntry =
    | Pending(address: Address)
    | Ready(address: Address, descriptor: Descriptor, outputValue: Option<SharedValue>)

  datatype RegisterError = AddressOccupied

  datatype RegistrationStatus = NewlyRegistered | AlreadyRegistered

  datatype RegistrationHeader = RegistrationHeader(status: RegistrationStatus, id: nat, address: Address)

  datatype RegisteredDescriptor = RegisteredDescriptor(descriptor: Descriptor, outputValue: Option<SharedValue>)

  datatype DescriptorRegistration = DescriptorRegistration(header: RegistrationHeader, descriptor: RegisteredDescriptor)

  datatype Registration = Registration(header: RegistrationHeader, descriptor: Option<RegisteredDescriptor>)

  /** `RegistryEntry::registration`: the entry's address and, once ready, its descriptor. */
  function EntryRegistration(entry: RegistryEntry, status: RegistrationStatus, id: nat): (r: Registration)
    ensures r.header == RegistrationHeader(status, id, entry.address)
    ensures r.descriptor.Some? <==> entry.Ready?
    ensures entry.Ready? ==> r.descriptor.value == RegisteredDescriptor(entry.descriptor, entry.outputValue)
  {
    match entry
    case Pending(address) => Registration(RegistrationHeader(status, id, address), None)
    case Ready(address, descriptor, outputValue) =>
      Registration(RegistrationHeader(status, id, address), Some(RegisteredDescriptor(descriptor, outputValue)))
  }

  /** The shared value a descriptor's registration creates: only outputs have one. */
  function NewOutputValue(descriptor: Descriptor): (r: Option<SharedValue>)
    ensures r.Some? <==> descriptor.direction == Output
    ensures r.Some? ==> r.value.initial == descriptor.value.default
  {
    match descriptor.direction
    case Input => None
    case Output => Some(SharedValue(descriptor.value.default))
  }

  class AddressToIdMap {
    var inner: map<Address, nat>

    constructor ()
      ensures inner == map[]
    {
      inner := map[];
    }

    /** `get_or_add`: the id of a known address, or the next id for a new one. */
    method GetOrAdd(address: Address) returns (a: Address, id: nat)
      modifies this
      ensures a == address
      ensures address in old(inner) ==> id == old(inner)[address] && inner == old(inner)
      ensures address !in old(inner) ==> id == |old(inner)| && inner == old(inner)[address := id]
    {
      var nextId := |inner|;
      if address in inner {
        id := inner[address];
      } else {
        id := nextId;
        inner := inner[address := id];
      }
      a := address;
    }

    function Get(address: Address): (r: Option<nat>)
      reads this
      ensures r.Some? <==> address in inner
      ensures r.Some? ==> r.value == inner[address]
    {
      if address in inner then Some(inner[address]) else None
    }
  }

  class Registry {
    const addressToId: AddressToIdMap
    var entries: seq<RegistryEntry>

    /**
     * Ids and entries are in one-to-one correspondence: every registered
     * address has the id of the entry holding it.
     */
    ghost predicate Valid()
      reads this, addressToId
    {
      && |addressToId.inner| == |entries|
      && (forall a | a in addressToId.inner :: addressToId.inner[a] < |entries| && entries[addressToId.inner[a]].address == a)
      && (forall i | 0 <= i < |entries| :: entries[i].address in addressToId.inner && addressToId.inner[entries[i].address] == i)
    }

    /** `Registry::default`: nothing registered. */
    constructor ()
      ensures Valid() && entries == [] && fresh(addressToId)
    {
      addressToId := new AddressToIdMap();
      entries := [];
    }

    lemma NewAddressKeepsValid(address: Address)
      requires Valid() && address !in addressToId.inner
      ensures |addressToId.inner[address := |entries|]| == |entries + [Pending(address)]|
    {
      assert forall i | 0 <= i < |entries| :: entries[i].address != address;
      var keys := addressToId.inner.Keys;
      assert keys == set i | 0 <= i < |entries| :: entries[i].address;
      assert address !in keys;
    }

    /**
     * `register`: the id of the address, registering it with a pending
     * entry if it is new.
     */
    method Register(address: Address) returns (status: RegistrationStatus, id: nat)
      requires Valid()
      modifies this, addressToId
      ensures Valid()
      ensures status == NewlyRegistered <==> address !in old(addressToId.inner)
      ensures id < |entries| && entries[id].address == address && addressToId.inner[address] == id
      ensures status == AlreadyRegistered ==> entries == old(entries) && addressToId.inner == old(addressToId.inner)
      ensures status == NewlyRegistered ==> id == |old(entries)| && entries == old(entries) + [Pending(address)]
    {
      ghost var wasNew := address !in addressToId.inner;
      if wasNew {
        NewAddressKeepsValid(address);
      }
      var a;
      a, id := addressToId.GetOrAdd(address);
      if id < |entries| {
        // Occupied
        status := AlreadyRegistered;
      } else {
        // Vacant
        entries := entries + [Pending(a)];
        status := NewlyRegistered;
      }
    }

    /**
     * `register_descriptor`: a pending entry becomes ready with the
     * descriptor and, for an output, a new shared value initialised with
     * the default; a ready entry accepts only an equal descriptor and
     * keeps what it holds.
     */
    method RegisterDescriptor(address: Address, descriptor: Descriptor) returns (r: Result<DescriptorRegistration, RegisterError>)
      requires Valid()
      modifies this, addressToId
      ensures Valid()
      ensures address in addressToId.inner && addressToId.inner[address] < |entries|
      ensures var id := addressToId.inner[address];
              var wasPending := id >= |old(entries)| || old(entries)[id].Pending?;
              && (wasPending ==>
                    r == Ok(DescriptorRegistration(
                           RegistrationHeader(if address in old(addressToId.inner) then AlreadyRegistered else NewlyRegistered, id, address),
                           RegisteredDescriptor(descriptor, NewOutputValue(descriptor)))) &&
                    entries[id] == Ready(address, descriptor, NewOutputValue(descriptor)))
              && (!wasPending && !DescriptorEq(old(entries)[id].descriptor, descriptor) ==>
                    r == Err(AddressOccupied) && entries == old(entries))
              && (!wasPending && DescriptorEq(old(entries)[id].descriptor, descriptor) ==>
                    r == Ok(DescriptorRegistration(RegistrationHeader(AlreadyRegistered, id, address),
                                                   RegisteredDescriptor(old(entries)[id].descriptor, old(entries)[id].outputValue))) &&
                    entries == old(entries))
      ensures |entries| >= |old(entries)|
      ensures address !in old(addressToId.inner) ==>
                addressToId.inner[address] == |old(entries)| && |entries| == |old(entries)| + 1
      ensures address in old(addressToId.inner) ==>
                addressToId.inner[address] == old(addressToId.inner)[address] && |entries| == |old(entries)|
      ensures forall i | 0 <= i < |old(entries)| && i != addressToId.inner[address] :: entries[i] == old(entries)[i]
    {
      var status, id := Register(address);
      var entry := entries[id];
      match entry
      case Pending(a) =>
        var outputValue := NewOutputValue(descriptor);
        entries := entries[id := Ready(a, descriptor, outputValue)];
        r := Ok(DescriptorRegistration(RegistrationHeader(status, id, a), RegisteredDescriptor(descriptor, outputValue)));
      case Ready(a, registeredDescriptor, registeredOutputValue) =>
        if !DescriptorEq(registeredDescriptor, descriptor) {
          return Err(AddressOccupied);
        }
        r := Ok(DescriptorRegistration(RegistrationHeader(status, id, a),
                                       RegisteredDescriptor(registeredDescriptor, registeredOutputValue)));
    }

    /** `register_address`: registers the address and reports its entry, never changing an existing one. */
    method RegisterAddress(address: Address) returns (r: Registration)
      requires Valid()
      modifies this, addressToId
      ensures Valid()
      ensures address in old(addressToId.inner) ==>
                entries == old(entries) &&
                r == EntryRegistration(old(entries)[old(addressToId.inner)[address]], AlreadyRegistered, old(addressToId.inner)[address])
      ensures address !in old(addressToId.inner) ==>
                entries == old(entries) + [Pending(address)] &&
                r == Registration(RegistrationHeader(NewlyRegistered, |old(entries)|, address), None)
    {
      var status, id := Register(address);
      r := EntryRegistration(entries[id], status, id);
    }

    /** `get_registered`: the registration of an id, if there is such an entry. */
    function GetRegistered(id: nat): (r: Option<Registration>)
      reads this
      ensures r.None? <==> id >= |entries|
      ensures r.Some? ==> r.value == EntryRegistration(entries[id], AlreadyRegistered, id)
    {
      if id < |entries| then Some(EntryRegistration(entries[id], AlreadyRegistered, id)) else None
    }

    /**
     * `find_registered`: the id of a registered address with its
     * descriptor and shared value, or no descriptor while pending.
     */
    function FindRegistered(address: Address): (r: Option<(nat, Option<(Descriptor, Option<SharedValue>)>)>)
      requires Valid()
      reads this, addressToId
      ensures r.None? <==> address !in addressToId.inner
      ensures r.Some? ==> r.value.0 == addressToId.inner[address] && entries[r.value.0].address == address
      ensures r.Some? ==> (r.value.1.None? <==> entries[r.value.0].Pending?)
      ensures r.Some? && r.value.1.Some? ==>
                r.value.1.value == (entries[r.value.0].descriptor, entries[r.value.0].outputValue)
    {
      var found := addressToId.Get(address);
      if found.None? then None
      else
        var id := found.value;
        match entries[id]
        case Pending(_) => Some((id, None))
        case Ready(_, descriptor, outputValue) => Some((id, Some((descriptor, outputValue))))
    }
  }

  /**
   * Ids are consecutive: registering new addresses yields 0, 1, 2, ...,
   * and registering a known address again yields its id and changes
   * nothing.
   */
  method RegisterTwoThenRepeat(registry: Registry, first: Address, second: Address)
    returns (r1: Registration, r2: Registration, r3: Registration)
    requires registry.Valid() && registry.entries == [] && first != second
    modifies registry, registry.addressToId
    ensures r1.header == RegistrationHeader(NewlyRegistered, 0, first)
    ensures r2.header == RegistrationHeader(NewlyRegistered, 1, second)
    ensures r3.header == RegistrationHeader(AlreadyRegistered, 0, first)
    ensures registry.entries == [Pending(first), Pending(second)]
  {
    r1 := registry.RegisterAddress(first);
    r2 := registry.RegisterAddress(second);
    assert registry.entries[0].address == first;
    r3 := registry.RegisterAddress(first);
  }
}
