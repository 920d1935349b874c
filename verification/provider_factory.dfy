/**
 * `NotificationProviderFactory`: the registry from notification type to the
 * provider that handles it, built once from the list of provider beans.
 */
module ProviderRegistry {
  import opened Common
  import opened Providers

  /** One provider bean; the three kinds stand for the implementations of the provider interface. */
  datatype Provider =
    | EmailChannel(email: EmailNotificationProvider)
    | SmsChannel(sms: SmsNotificationProvider)
    | PushChannel(push: PushNotificationProvider)

  /** `getType()` of a provider. */
  function TypeOf(p: Provider): NotificationType {
    match p
    case EmailChannel(e) => e.Type()
    case SmsChannel(s) => s.Type()
    case PushChannel(q) => q.Type()
  }

  /** The map the constructor's loop builds: one `put(getType(), provider)` per provider, in list order. */
  function Registry(ps: seq<Provider>): map<NotificationType, Provider> {
    if |ps| == 0 then map[]
    else Registry(ps[..|ps| - 1])[TypeOf(ps[|ps| - 1]) := ps[|ps| - 1]]
  }

  /**
   * A type is registered iff some provider in the list reports it, and it is
   * mapped to the LAST such provider: a later bean of the same type replaces
   * an earlier one.
   */
  lemma {:induction false} RegistryLastWins(ps: seq<Provider>, t: NotificationType)
    ensures t in Registry(ps) <==> exists i :: 0 <= i < |ps| && TypeOf(ps[i]) == t
    ensures t in Registry(ps) ==>
      exists i :: 0 <= i < |ps| && Registry(ps)[t] == ps[i] && TypeOf(ps[i]) == t
        && forall j :: i < j < |ps| ==> TypeOf(ps[j]) != t
  {
    if |ps| > 0 {
      var init := ps[..|ps| - 1];
      var last := |ps| - 1;
      RegistryLastWins(init, t);
      if TypeOf(ps[last]) == t {
        assert Registry(ps)[t] == ps[last];
      } else {
        assert Registry(ps) == Registry(init)[TypeOf(ps[last]) := ps[last]];
      }
    }
  }

  /** What `getProvider` ends with. */
  datatype Lookup = Found(provider: Provider) | IllegalArgument(message: string)

  class NotificationProviderFactory {
    const providerMap: map<NotificationType, Provider>

    /** The constructor: `put` each provider under its type, in list order. */
    constructor (providers: seq<Provider>)
      ensures providerMap == Registry(providers)
    {
      var m: map<NotificationType, Provider> := map[];
      var i := 0;
      while i < |providers|
        invariant 0 <= i <= |providers|
        invariant m == Registry(providers[..i])
      {
        assert providers[..i + 1][..i] == providers[..i];
        m := m[TypeOf(providers[i]) := providers[i]];
        i := i + 1;
      }
      assert providers[..i] == providers;
      providerMap := m;
    }

    /** `getProvider`: the registered provider, or an IllegalArgumentException naming the type. */
    function GetProvider(t: NotificationType): (r: Lookup)
      ensures r.Found? <==> t in providerMap
      ensures r.Found? ==> r.provider == providerMap[t]
      ensures r.IllegalArgument? ==> r.message == "Unsupported notification type: " + TypeName(t)
    {
      if t in providerMap then Found(providerMap[t])
      else IllegalArgument("Unsupported notification type: " + TypeName(t))
    }

    /** `hasProvider`: whether the type has an entry. */
    function HasProvider(t: NotificationType): (r: bool)
      ensures r <==> t in providerMap
    {
      t in providerMap
    }

    /**
     * `getAllProviders`: a copy of the registry. Maps are values here, so a
     * change the caller makes to the copy cannot reach the registry.
     */
    method GetAllProviders() returns (all: map<NotificationType, Provider>)
      ensures all == providerMap
    {
      all := map t | t in providerMap :: providerMap[t];
    }
  }

  /** `hasProvider(t)` holds exactly when `getProvider(t)` does not throw. */
  lemma HasProviderIffLookupSucceeds(f: NotificationProviderFactory, t: NotificationType)
    ensures f.HasProvider(t) <==> f.GetProvider(t).Found?
  {
  }

  /** Every provider the registry hands out handles the type it was asked for. */
  lemma {:induction false} RegisteredProvidersHandleTheirType(ps: seq<Provider>, t: NotificationType)
    requires t in Registry(ps)
    ensures TypeOf(Registry(ps)[t]) == t
  {
    RegistryLastWins(ps, t);
  }
}
