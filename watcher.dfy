/** The StatusNotifierWatcher both agents (src/bin/server.rs and
    src/bin/sni-agent.rs) run inside the guest: two sets of names, updated by
    registrations and by NameOwnerChanged signals. The D-Bus signals it emits
    are recorded, in order, in `emitted`. */
module AgentWatcher {

  datatype WatcherSignal =
    | ItemRegistered(service: string)
    | ItemUnregistered(service: string)
    | HostRegistered
    | ItemsInvalidated   // PropertiesChanged invalidating RegisteredStatusNotifierItems

  class Watcher {
    var items: set<string>
    var hosts: set<string>
    var emitted: seq<WatcherSignal>

    constructor ()
      ensures items == {} && hosts == {} && emitted == []
    {
      items, hosts, emitted := {}, {}, [];
    }

    /** RegisterStatusNotifierItem: the service string is stored as given. */
    method RegisterStatusNotifierItem(service: string)
      modifies this
      ensures items == old(items) + {service} && hosts == old(hosts)
      ensures emitted == old(emitted) + [ItemRegistered(service), ItemsInvalidated]
    {
      items := items + {service};
      emitted := emitted + [ItemRegistered(service), ItemsInvalidated];
    }

    method RegisterStatusNotifierHost(service: string)
      modifies this
      ensures hosts == old(hosts) + {service} && items == old(items)
      ensures emitted == old(emitted) + [HostRegistered]
    {
      hosts := hosts + {service};
      emitted := emitted + [HostRegistered];
    }

    /** The RegisteredStatusNotifierItems property: every item once, in the
        set's iteration order. */
    method RegisteredStatusNotifierItems() returns (r: seq<string>)
      ensures forall s :: s in r <==> s in items
      ensures forall i, j | 0 <= i < j < |r| :: r[i] != r[j]
    {
      r := [];
      var rest := items;
      while rest != {}
        invariant rest <= items
        invariant forall s :: s in r <==> s in items - rest
        invariant forall i, j | 0 <= i < j < |r| :: r[i] != r[j]
        decreases rest
      {
        var s :| s in rest;
        assert s !in r;
        assert forall i | 0 <= i < |r| :: r[i] != s;
        r := r + [s];
        rest := rest - {s};
      }
    }

    method IsStatusNotifierHostRegistered() returns (b: bool)
      ensures b <==> hosts != {}
    {
      b := hosts != {};
    }

    method ProtocolVersion() returns (v: int)
      ensures v == 1
    {
      v := 1;
    }

    /** NameOwnerChanged(name, _, newOwner): a name is always dropped from the
        hosts, and from the items only when it has no new owner; the item is
        announced as unregistered exactly when it was removed. */
    method NameOwnerChanged(name: string, newOwner: string) returns (unregistered: bool)
      modifies this
      ensures hosts == old(hosts) - {name}
      ensures unregistered <==> newOwner == "" && name in old(items)
      ensures items == if unregistered then old(items) - {name} else old(items)
      ensures emitted == old(emitted) + (if unregistered then [ItemUnregistered(name), ItemsInvalidated] else [])
    {
      hosts := hosts - {name};
      unregistered := newOwner == "" && name in items;
      if unregistered {
        items := items - {name};
        emitted := emitted + [ItemUnregistered(name), ItemsInvalidated];
      }
    }
  }
}
