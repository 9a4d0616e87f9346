/** The CRM integration base: a provider holds credentials and a connected
    flag, reports its status, and (for the custom example provider) refuses
    to sync while disconnected; a registry maps provider ids to provider
    factories in registration order, with "custom" registered at load. */
module CrmBase {
  import opened Wrappers
  import JsMap

  /** Provider-specific credential fields, by name. */
  type Credentials = map<string, string>

  datatype SyncStatus = Idle | Syncing | SyncError

  /** `CRMStatus` as `getStatus` fills it. */
  datatype CrmStatus = CrmStatus(isConnected: bool, provider: string, syncStatus: Option<SyncStatus>)

  /** `SyncResult`; the clock is a parameter. */
  datatype SyncResult = SyncResult(success: bool, recordsSynced: nat, errors: Option<seq<string>>, timestamp: int)

  const CustomName := "Custom CRM"
  const NotConnected := "Not connected to CRM"

  /** The result of a sync attempt by the custom provider. */
  function CustomSync(connected: bool, now: int): (r: SyncResult)
    ensures r.success <==> connected
    ensures r.recordsSynced == 0 && r.timestamp == now
    ensures r.errors.Some? <==> !connected
    ensures !connected ==> r.errors == Some([NotConnected])
  {
    if !connected then SyncResult(false, 0, Some([NotConnected]), now)
    else SyncResult(true, 0, None, now)
  }

  /** `CustomCRMProvider`, with the state and behaviour of `BaseCRMProvider`. */
  class CustomCrmProvider {
    const name: string
    var credentials: Option<Credentials>
    var connectedFlag: bool

    constructor ()
      ensures name == CustomName && credentials.None? && !connectedFlag
    {
      name := CustomName;
      credentials := None;
      connectedFlag := false;
    }

    /** `isConnected()`: the flag is set and credentials are held. */
    function IsConnected(): bool
      reads this
    {
      connectedFlag && credentials.Some?
    }

    /** `connect`: stores the credentials and always succeeds. */
    method Connect(c: Credentials) returns (ok: bool)
      modifies this
      ensures ok && credentials == Some(c) && connectedFlag
      ensures IsConnected()
    {
      credentials := Some(c);
      connectedFlag := true;
      ok := true;
    }

    /** `disconnect`: forgets the credentials. */
    method Disconnect()
      modifies this
      ensures credentials.None? && !connectedFlag
      ensures !IsConnected()
    {
      credentials := None;
      connectedFlag := false;
    }

    /** `getStatus`: the connection state, the name, and an idle sync. */
    method GetStatus() returns (status: CrmStatus)
      ensures status.isConnected <==> connectedFlag && credentials.Some?
      ensures status.provider == name && status.syncStatus == Some(Idle)
    {
      status := CrmStatus(IsConnected(), name, Some(Idle));
    }

    /** `syncProperties` */
    method SyncProperties(now: int) returns (r: SyncResult)
      ensures r == CustomSync(connectedFlag && credentials.Some?, now)
    {
      r := CustomSync(IsConnected(), now);
    }

    /** `syncContacts` */
    method SyncContacts(now: int) returns (r: SyncResult)
      ensures r == CustomSync(connectedFlag && credentials.Some?, now)
    {
      r := CustomSync(IsConnected(), now);
    }
  }

  /** A registered factory: the custom provider's, or one defined elsewhere,
      known only by a tag. */
  datatype Factory = CustomFactory | OtherFactory(tag: string)

  /** `CRMProviderFactory`'s static registry. */
  class CrmProviderFactory {
    var providers: JsMap.Entries<string, Factory>

    predicate Valid()
      reads this
    {
      JsMap.Distinct(JsMap.Keys(providers))
    }

    /** The registry once the module has loaded: only "custom". */
    constructor ()
      ensures providers == [("custom", CustomFactory)]
      ensures Valid()
    {
      providers := [("custom", CustomFactory)];
    }

    /** `register`: a new id is added last, a known id gets the new factory
        in its old place. */
    method Register(providerId: string, factory: Factory)
      requires Valid()
      modifies this
      ensures Valid()
      ensures providers == JsMap.Set(old(providers), providerId, factory)
      ensures JsMap.Keys(providers) ==
        if providerId in JsMap.Keys(old(providers)) then JsMap.Keys(old(providers))
        else JsMap.Keys(old(providers)) + [providerId]
      ensures JsMap.Get(providers, providerId) == Some(factory)
      ensures forall id :: id != providerId ==> JsMap.Get(providers, id) == JsMap.Get(old(providers), id)
    {
      JsMap.SetKeepsKeysDistinct(providers, providerId, factory);
      JsMap.KeysSet(providers, providerId, factory);
      forall id
        ensures JsMap.Get(JsMap.Set(providers, providerId, factory), id) ==
          if id == providerId then Some(factory) else JsMap.Get(providers, id)
      {
        JsMap.GetSet(providers, providerId, factory, id);
      }
      providers := JsMap.Set(providers, providerId, factory);
    }

    /** `create`: the factory registered for the id, or null. */
    method Create(providerId: string) returns (factory: Option<Factory>)
      ensures factory.Some? <==> providerId in JsMap.Keys(providers)
      ensures factory == JsMap.Get(providers, providerId)
    {
      JsMap.GetIffKey(providers, providerId);
      factory := JsMap.Get(providers, providerId);
    }

    /** `getRegisteredProviders`: the ids in registration order. */
    method RegisteredProviders() returns (ids: seq<string>)
      ensures ids == JsMap.Keys(providers)
      ensures Valid() ==> JsMap.Distinct(ids)
    {
      ids := JsMap.Keys(providers);
    }
  }

  /** Calling the custom factory gives a new, disconnected provider. */
  method Instantiate() returns (p: CustomCrmProvider)
    ensures fresh(p) && p.name == CustomName && !p.IsConnected()
  {
    p := new CustomCrmProvider();
  }

  /** A freshly loaded registry offers "custom", and creating it gives the
      custom factory. */
  method LoadedRegistry() returns (factory: Option<Factory>, ids: seq<string>)
    ensures factory == Some(CustomFactory) && ids == ["custom"]
  {
    var registry := new CrmProviderFactory();
    factory := registry.Create("custom");
    ids := registry.RegisteredProviders();
  }
}
