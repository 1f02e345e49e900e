/**
 * The registry of task providers: the registered providers in registration order, with no two
 * sharing an identifier, and the set of identifiers the user has enabled.
 */
module Plugins {
  import opened Wrappers

  /** A registered provider, as far as the registry looks at it. */
  datatype ProviderDescriptor = ProviderDescriptor(identifier: string, displayName: string)

  predicate Registered(ps: seq<ProviderDescriptor>, identifier: string) {
    exists k :: 0 <= k < |ps| && ps[k].identifier == identifier
  }

  predicate UniqueIdentifiers(ps: seq<ProviderDescriptor>) {
    forall i, j :: 0 <= i < j < |ps| ==> ps[i].identifier != ps[j].identifier
  }

  /** `first(where:)` on the identifier: the earliest provider carrying it, if any. */
  function FirstWith(ps: seq<ProviderDescriptor>, identifier: string): (r: Option<nat>)
    ensures r.None? <==> !Registered(ps, identifier)
    ensures r.Some? ==> r.value < |ps| && ps[r.value].identifier == identifier
    ensures r.Some? ==> forall j :: 0 <= j < r.value ==> ps[j].identifier != identifier
  {
    if ps == [] then None
    else if ps[0].identifier == identifier then Some(0)
    else
      match FirstWith(ps[1..], identifier)
      case None => None
      case Some(k) => Some(k + 1)
  }

  /** `getProvider`. */
  function ProviderWith(ps: seq<ProviderDescriptor>, identifier: string): (r: Option<ProviderDescriptor>)
    ensures r.None? <==> !Registered(ps, identifier)
    ensures r.Some? ==> r.value in ps && r.value.identifier == identifier
    ensures r.Some? ==> exists k :: 0 <= k < |ps| && ps[k] == r.value && forall j :: 0 <= j < k ==> ps[j].identifier != identifier
  {
    match FirstWith(ps, identifier)
    case None => None
    case Some(k) => Some(ps[k])
  }

  /** `getEnabledProviders`: the providers whose identifier is enabled, in registration order. */
  function EnabledAmong(ps: seq<ProviderDescriptor>, enabled: set<string>): (r: seq<ProviderDescriptor>)
    ensures forall p :: p in r <==> p in ps && p.identifier in enabled
    ensures |r| <= |ps|
  {
    if ps == [] then []
    else (if ps[0].identifier in enabled then [ps[0]] else []) + EnabledAmong(ps[1..], enabled)
  }

  /** Filtering follows registration: a provider registered later comes later in the result. */
  lemma {:induction false} EnabledAmongAppend(ps: seq<ProviderDescriptor>, p: ProviderDescriptor, enabled: set<string>)
    ensures EnabledAmong(ps + [p], enabled) == EnabledAmong(ps, enabled) + (if p.identifier in enabled then [p] else [])
  {
    if ps == [] {
      assert [] + [p] == [p];
    } else {
      assert (ps + [p])[1..] == ps[1..] + [p];
      EnabledAmongAppend(ps[1..], p, enabled);
    }
  }

  /** With unique identifiers, every enabled provider appears exactly once. */
  lemma {:induction false} EnabledAmongOnce(ps: seq<ProviderDescriptor>, enabled: set<string>)
    requires UniqueIdentifiers(ps)
    ensures UniqueIdentifiers(EnabledAmong(ps, enabled))
  {
    if ps != [] {
      EnabledAmongOnce(ps[1..], enabled);
      var rest := EnabledAmong(ps[1..], enabled);
      forall q | q in rest
        ensures q.identifier != ps[0].identifier
      {
        var k :| 0 <= k < |ps[1..]| && ps[1..][k] == q;
        assert ps[k + 1] == q;
      }
    }
  }

  /** The set `toggleProvider` leaves: the identifier's membership flipped, nothing else. */
  function Toggled(enabled: set<string>, identifier: string): (r: set<string>)
    ensures identifier in r <==> identifier !in enabled
    ensures forall other :: other != identifier ==> (other in r <==> other in enabled)
  {
    if identifier in enabled then enabled - {identifier} else enabled + {identifier}
  }

  /** Toggling twice restores the enabled set. */
  lemma ToggleTwice(enabled: set<string>, identifier: string)
    ensures Toggled(Toggled(enabled, identifier), identifier) == enabled
  {
  }

  /** Appending a provider changes a lookup only for an identifier not registered before. */
  lemma {:induction false} FirstWithAppend(ps: seq<ProviderDescriptor>, p: ProviderDescriptor, identifier: string)
    ensures FirstWith(ps + [p], identifier)
         == if Registered(ps, identifier) then FirstWith(ps, identifier)
            else if p.identifier == identifier then Some(|ps|)
            else None
  {
    if ps == [] {
      assert [] + [p] == [p];
    } else {
      assert (ps + [p])[1..] == ps[1..] + [p];
      FirstWithAppend(ps[1..], p, identifier);
      if ps[0].identifier != identifier {
        assert Registered(ps, identifier) <==> Registered(ps[1..], identifier) by {
          if Registered(ps, identifier) {
            var k :| 0 <= k < |ps| && ps[k].identifier == identifier;
            assert ps[1..][k - 1] == ps[k];
          }
          if Registered(ps[1..], identifier) {
            var k :| 0 <= k < |ps[1..]| && ps[1..][k].identifier == identifier;
            assert ps[k + 1] == ps[1..][k];
          }
        }
      }
    }
  }

  /** After registering a provider with a new identifier, looking that identifier up finds it. */
  lemma RegisteredIsFound(ps: seq<ProviderDescriptor>, p: ProviderDescriptor)
    requires !Registered(ps, p.identifier)
    ensures ProviderWith(ps + [p], p.identifier) == Some(p)
    ensures forall id :: id != p.identifier ==> ProviderWith(ps + [p], id) == ProviderWith(ps, id)
  {
    FirstWithAppend(ps, p, p.identifier);
    assert (ps + [p])[|ps|] == p;
    forall id | id != p.identifier
      ensures ProviderWith(ps + [p], id) == ProviderWith(ps, id)
    {
      FirstWithAppend(ps, p, id);
      var k := FirstWith(ps, id);
      if k.Some? {
        assert (ps + [p])[k.value] == ps[k.value];
      }
    }
  }

  class PluginManager {
    /** The registered providers, in registration order. */
    var availableProviders: seq<ProviderDescriptor>
    /** The identifiers of the enabled providers. */
    var enabledProviders: set<string>

    ghost predicate Valid()
      reads this
    {
      UniqueIdentifiers(availableProviders)
    }

    /** `saved` is the list of identifiers remembered from the last run, if any. */
    constructor(saved: Option<seq<string>>)
      ensures Valid()
      ensures availableProviders == []
      ensures enabledProviders == (if saved.Some? then set id | id in saved.value else {})
    {
      enabledProviders := if saved.Some? then set id | id in saved.value else {};
      availableProviders := [];
      new;
      RegisterBuiltInProviders();
    }

    /** No provider ships with the app yet. */
    method RegisterBuiltInProviders()
      modifies this
      ensures availableProviders == [] && enabledProviders == old(enabledProviders)
      ensures Valid()
    {
      availableProviders := [];
    }

    /** Adds the provider unless one with its identifier is already registered. */
    method RegisterProvider(provider: ProviderDescriptor)
      requires Valid()
      modifies this
      ensures Valid()
      ensures Registered(old(availableProviders), provider.identifier) ==> availableProviders == old(availableProviders)
      ensures !Registered(old(availableProviders), provider.identifier) ==>
        availableProviders == old(availableProviders) + [provider]
      ensures Registered(availableProviders, provider.identifier)
      ensures enabledProviders == old(enabledProviders)
    {
      if !Registered(availableProviders, provider.identifier) {
        availableProviders := availableProviders + [provider];
        assert availableProviders[|availableProviders| - 1] == provider;
      }
    }

    method EnableProvider(identifier: string)
      modifies this
      ensures enabledProviders == old(enabledProviders) + {identifier}
      ensures availableProviders == old(availableProviders)
    {
      enabledProviders := enabledProviders + {identifier};
    }

    method DisableProvider(identifier: string)
      modifies this
      ensures enabledProviders == old(enabledProviders) - {identifier}
      ensures availableProviders == old(availableProviders)
    {
      enabledProviders := enabledProviders - {identifier};
    }

    method ToggleProvider(identifier: string)
      modifies this
      ensures enabledProviders == Toggled(old(enabledProviders), identifier)
      ensures availableProviders == old(availableProviders)
    {
      if identifier in enabledProviders {
        DisableProvider(identifier);
      } else {
        EnableProvider(identifier);
      }
    }

    function GetProvider(identifier: string): (r: Option<ProviderDescriptor>)
      reads this
      ensures r == ProviderWith(availableProviders, identifier)
    {
      ProviderWith(availableProviders, identifier)
    }

    function GetEnabledProviders(): (r: seq<ProviderDescriptor>)
      reads this
      ensures r == EnabledAmong(availableProviders, enabledProviders)
    {
      EnabledAmong(availableProviders, enabledProviders)
    }
  }
}
