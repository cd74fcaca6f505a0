/**
 * The MongoDB collections the core reads and writes, with the unique indexes of
 * models/index.js as the store's invariant: an insert or update that would
 * break an index fails with a duplicate-key error and changes nothing.
 */
module Database {
  import opened Wrappers
  import opened Models
  import opened Constants
  import opened JsonValue

  /** The plugin of type `ptype` of the app `app`, if there is one. */
  ghost function PluginOf(plugins: map<Id, Plugin>, app: Id, ptype: PluginType): Option<Plugin>
  {
    if exists k :: k in plugins && plugins[k].app == app && plugins[k].ptype == ptype then
      var k :| k in plugins && plugins[k].app == app && plugins[k].ptype == ptype;
      Some(plugins[k])
    else None
  }

  /** Under the (app, type) index, any plugin of that app and type is the one `PluginOf` names. */
  lemma PluginOfUnique(plugins: map<Id, Plugin>, app: Id, ptype: PluginType, k: Id)
    requires PluginsUnique(plugins)
    requires k in plugins && plugins[k].app == app && plugins[k].ptype == ptype
    ensures PluginOf(plugins, app, ptype) == Some(plugins[k])
  {
    var j :| j in plugins && plugins[j].app == app && plugins[j].ptype == ptype && PluginOf(plugins, app, ptype) == Some(plugins[j]);
    assert PluginKey(plugins[j]) == PluginKey(plugins[k]);
  }

  // Every document is stored under its own id, drawn below the id counter;
  // a device belongs to a stored user.

  ghost predicate AppsKeyed(apps: map<Id, App>, nextId: nat)
  {
    forall k :: k in apps ==> k < nextId && apps[k].id == k
  }

  ghost predicate UsersKeyed(users: map<Id, User>, nextId: nat)
  {
    forall k :: k in users ==> k < nextId && users[k].id == k
  }

  ghost predicate DevicesKeyed(devices: map<Id, Device>, users: map<Id, User>, nextId: nat)
  {
    forall k :: k in devices ==> k < nextId && devices[k].id == k && devices[k].user in users
  }

  ghost predicate IntegrationsKeyed(integrations: map<Id, Integration>, nextId: nat)
  {
    forall k :: k in integrations ==> k < nextId && integrations[k].id == k
  }

  ghost predicate PluginsKeyed(plugins: map<Id, Plugin>, nextId: nat)
  {
    forall k :: k in plugins ==> k < nextId && plugins[k].id == k
  }

  // Each unique index survives storing a document at a key when no other
  // document shares the document's index fields.

  /** Under the (app, uid) index no other user shares a stored user's app and uid. */
  lemma UsersUniqueOthers(users: map<Id, User>, id: Id)
    requires UsersUnique(users) && id in users
    ensures forall j :: j in users && j != id ==> !(users[j].app == users[id].app && users[j].uid == users[id].uid)
  {
    forall j | j in users && j != id
      ensures !(users[j].app == users[id].app && users[j].uid == users[id].uid)
    {
      assert UserKey(users[j]) != UserKey(users[id]);
    }
  }

  /** Under the (app, type) index no other plugin shares a stored plugin's app and type. */
  lemma PluginsUniqueOthers(plugins: map<Id, Plugin>, id: Id)
    requires PluginsUnique(plugins) && id in plugins
    ensures forall j :: j in plugins && j != id ==> !(plugins[j].app == plugins[id].app && plugins[j].ptype == plugins[id].ptype)
  {
    forall j | j in plugins && j != id
      ensures !(plugins[j].app == plugins[id].app && plugins[j].ptype == plugins[id].ptype)
    {
      assert PluginKey(plugins[j]) != PluginKey(plugins[id]);
    }
  }

  lemma UsersUniqueSet(users: map<Id, User>, k: Id, u: User)
    requires UsersUnique(users)
    requires forall j :: j in users && j != k ==> !(users[j].app == u.app && users[j].uid == u.uid)
    ensures UsersUnique(users[k := u])
  {
    var after := users[k := u];
    forall a, b | a in after && b in after && UserKey(after[a]) == UserKey(after[b])
      ensures a == b
    {
      if a != k && b != k {
        assert UserKey(users[a]) == UserKey(users[b]);
      }
    }
  }

  lemma DevicesUniqueSet(devices: map<Id, Device>, k: Id, d: Device)
    requires DevicesUnique(devices)
    requires forall j :: j in devices && j != k ==>
               !(devices[j].user == d.user && (devices[j].uid == d.uid || devices[j].channel == d.channel))
    ensures DevicesUnique(devices[k := d])
  {
    var after := devices[k := d];
    forall a, b | a in after && b in after && DeviceUidKey(after[a]) == DeviceUidKey(after[b])
      ensures a == b
    {
      if a != k && b != k {
        assert DeviceUidKey(devices[a]) == DeviceUidKey(devices[b]);
      }
    }
    forall a, b | a in after && b in after && DeviceChannelKey(after[a]) == DeviceChannelKey(after[b])
      ensures a == b
    {
      if a != k && b != k {
        assert DeviceChannelKey(devices[a]) == DeviceChannelKey(devices[b]);
      }
    }
  }

  lemma IntegrationsUniqueSet(integrations: map<Id, Integration>, k: Id, i: Integration)
    requires IntegrationsUnique(integrations)
    requires forall j :: j in integrations && j != k ==>
               !(integrations[j].channel == i.channel
                 && (integrations[j].app == i.app
                     || (PageId(i).Some? && PageId(integrations[j]) == PageId(i))
                     || (TeamId(i).Some? && TeamId(integrations[j]) == TeamId(i))))
    ensures IntegrationsUnique(integrations[k := i])
  {
    var after := integrations[k := i];
    forall a, b | a in after && b in after && IntegrationKey(after[a]) == IntegrationKey(after[b])
      ensures a == b
    {
      if a != k && b != k {
        assert IntegrationKey(integrations[a]) == IntegrationKey(integrations[b]);
      }
    }
    forall a, b | a in after && b in after && PageId(after[a]).Some? && PageKey(after[a]) == PageKey(after[b])
      ensures a == b
    {
      if a != k && b != k {
        assert PageKey(integrations[a]) == PageKey(integrations[b]);
      }
    }
    forall a, b | a in after && b in after && TeamId(after[a]).Some? && TeamKey(after[a]) == TeamKey(after[b])
      ensures a == b
    {
      if a != k && b != k {
        assert TeamKey(integrations[a]) == TeamKey(integrations[b]);
      }
    }
  }

  lemma PluginsUniqueSet(plugins: map<Id, Plugin>, k: Id, p: Plugin)
    requires PluginsUnique(plugins)
    requires forall j :: j in plugins && j != k ==> !(plugins[j].app == p.app && plugins[j].ptype == p.ptype)
    ensures PluginsUnique(plugins[k := p])
  {
    var after := plugins[k := p];
    forall a, b | a in after && b in after && PluginKey(after[a]) == PluginKey(after[b])
      ensures a == b
    {
      if a != k && b != k {
        assert PluginKey(plugins[a]) == PluginKey(plugins[b]);
      }
    }
  }

  /**
   * The store's invariant: every document keyed by its own id below the id
   * counter, every device owned by a stored user, and every unique index.
   */
  ghost predicate Inv(apps: map<Id, App>, users: map<Id, User>, devices: map<Id, Device>,
    integrations: map<Id, Integration>, plugins: map<Id, Plugin>, nextId: nat)
  {
    && AppsKeyed(apps, nextId)
    && UsersKeyed(users, nextId)
    && DevicesKeyed(devices, users, nextId)
    && IntegrationsKeyed(integrations, nextId)
    && PluginsKeyed(plugins, nextId)
    && UsersUnique(users)
    && DevicesUnique(devices)
    && IntegrationsUnique(integrations)
    && PluginsUnique(plugins)
  }

  // Each write below keeps the invariant, given the index check that guards it.

  lemma InsertAppKeepsInv(apps: map<Id, App>, users: map<Id, User>, devices: map<Id, Device>,
    integrations: map<Id, Integration>, plugins: map<Id, Plugin>, nextId: nat, x: App)
    requires Inv(apps, users, devices, integrations, plugins, nextId) && x.id == nextId
    ensures Inv(apps[nextId := x], users, devices, integrations, plugins, nextId + 1)
  {
  }

  lemma InsertUserKeepsInv(apps: map<Id, App>, users: map<Id, User>, devices: map<Id, Device>,
    integrations: map<Id, Integration>, plugins: map<Id, Plugin>, nextId: nat, u: User)
    requires Inv(apps, users, devices, integrations, plugins, nextId) && u.id == nextId
    requires forall j :: j in users ==> !(users[j].app == u.app && users[j].uid == u.uid)
    ensures Inv(apps, users[nextId := u], devices, integrations, plugins, nextId + 1)
  {
    UsersUniqueSet(users, nextId, u);
  }

  lemma UpdateUserKeepsInv(apps: map<Id, App>, users: map<Id, User>, devices: map<Id, Device>,
    integrations: map<Id, Integration>, plugins: map<Id, Plugin>, nextId: nat, u: User)
    requires Inv(apps, users, devices, integrations, plugins, nextId) && u.id in users
    requires forall j :: j in users && j != u.id ==> !(users[j].app == u.app && users[j].uid == u.uid)
    ensures Inv(apps, users[u.id := u], devices, integrations, plugins, nextId)
  {
    UsersUniqueSet(users, u.id, u);
  }

  lemma InsertDeviceKeepsInv(apps: map<Id, App>, users: map<Id, User>, devices: map<Id, Device>,
    integrations: map<Id, Integration>, plugins: map<Id, Plugin>, nextId: nat, d: Device)
    requires Inv(apps, users, devices, integrations, plugins, nextId) && d.id == nextId && d.user in users
    requires forall j :: j in devices ==>
               !(devices[j].user == d.user && (devices[j].uid == d.uid || devices[j].channel == d.channel))
    ensures Inv(apps, users, devices[nextId := d], integrations, plugins, nextId + 1)
  {
    DevicesUniqueSet(devices, nextId, d);
  }

  lemma UpdateDeviceKeepsInv(apps: map<Id, App>, users: map<Id, User>, devices: map<Id, Device>,
    integrations: map<Id, Integration>, plugins: map<Id, Plugin>, nextId: nat, d: Device)
    requires Inv(apps, users, devices, integrations, plugins, nextId) && d.id in devices && d.user in users
    requires forall j :: j in devices && j != d.id ==>
               !(devices[j].user == d.user && (devices[j].uid == d.uid || devices[j].channel == d.channel))
    ensures Inv(apps, users, devices[d.id := d], integrations, plugins, nextId)
  {
    DevicesUniqueSet(devices, d.id, d);
  }

  lemma InsertIntegrationKeepsInv(apps: map<Id, App>, users: map<Id, User>, devices: map<Id, Device>,
    integrations: map<Id, Integration>, plugins: map<Id, Plugin>, nextId: nat, x: Integration)
    requires Inv(apps, users, devices, integrations, plugins, nextId) && x.id == nextId
    requires forall j :: j in integrations ==>
               !(integrations[j].channel == x.channel
                 && (integrations[j].app == x.app
                     || (PageId(x).Some? && PageId(integrations[j]) == PageId(x))
                     || (TeamId(x).Some? && TeamId(integrations[j]) == TeamId(x))))
    ensures Inv(apps, users, devices, integrations[nextId := x], plugins, nextId + 1)
  {
    IntegrationsUniqueSet(integrations, nextId, x);
  }

  lemma UpdateIntegrationKeepsInv(apps: map<Id, App>, users: map<Id, User>, devices: map<Id, Device>,
    integrations: map<Id, Integration>, plugins: map<Id, Plugin>, nextId: nat, x: Integration)
    requires Inv(apps, users, devices, integrations, plugins, nextId) && x.id in integrations
    requires forall j :: j in integrations && j != x.id ==>
               !(integrations[j].channel == x.channel
                 && (integrations[j].app == x.app
                     || (PageId(x).Some? && PageId(integrations[j]) == PageId(x))
                     || (TeamId(x).Some? && TeamId(integrations[j]) == TeamId(x))))
    ensures Inv(apps, users, devices, integrations[x.id := x], plugins, nextId)
  {
    IntegrationsUniqueSet(integrations, x.id, x);
  }

  lemma InsertPluginKeepsInv(apps: map<Id, App>, users: map<Id, User>, devices: map<Id, Device>,
    integrations: map<Id, Integration>, plugins: map<Id, Plugin>, nextId: nat, p: Plugin)
    requires Inv(apps, users, devices, integrations, plugins, nextId) && p.id == nextId
    requires forall j :: j in plugins ==> !(plugins[j].app == p.app && plugins[j].ptype == p.ptype)
    ensures Inv(apps, users, devices, integrations, plugins[nextId := p], nextId + 1)
  {
    PluginsUniqueSet(plugins, nextId, p);
  }

  lemma UpdatePluginKeepsInv(apps: map<Id, App>, users: map<Id, User>, devices: map<Id, Device>,
    integrations: map<Id, Integration>, plugins: map<Id, Plugin>, nextId: nat, p: Plugin)
    requires Inv(apps, users, devices, integrations, plugins, nextId) && p.id in plugins
    requires forall j :: j in plugins && j != p.id ==> !(plugins[j].app == p.app && plugins[j].ptype == p.ptype)
    ensures Inv(apps, users, devices, integrations, plugins[p.id := p], nextId)
  {
    PluginsUniqueSet(plugins, p.id, p);
  }

  lemma RemovePluginKeepsInv(apps: map<Id, App>, users: map<Id, User>, devices: map<Id, Device>,
    integrations: map<Id, Integration>, plugins: map<Id, Plugin>, nextId: nat, id: Id)
    requires Inv(apps, users, devices, integrations, plugins, nextId)
    ensures Inv(apps, users, devices, integrations, plugins - {id}, nextId)
  {
  }

  class Store {
    var apps: map<Id, App>
    var users: map<Id, User>
    var devices: map<Id, Device>
    var integrations: map<Id, Integration>
    var plugins: map<Id, Plugin>
    /** Ids are drawn from a counter, so a new document's id is fresh. */
    var nextId: nat

    ghost predicate Valid()
      reads this
    {
      Inv(apps, users, devices, integrations, plugins, nextId)
    }

    constructor ()
      ensures Valid()
      ensures apps == map[] && users == map[] && devices == map[] && integrations == map[] && plugins == map[]
    {
      apps, users, devices, integrations, plugins := map[], map[], map[], map[], map[];
      nextId := 0;
    }

    method InsertApp(name: string) returns (a: App)
      requires Valid()
      modifies this`apps, this`nextId
      ensures Valid()
      ensures a == App(old(nextId), name) && a.id !in old(apps)
      ensures apps == old(apps)[a.id := a] && nextId == old(nextId) + 1
    {
      a := App(nextId, name);
      InsertAppKeepsInv(apps, users, devices, integrations, plugins, nextId, a);
      apps := apps[a.id := a];
      nextId := nextId + 1;
    }

    /** `user.save()` for a new user: it gets a fresh id unless (app, uid) is taken. */
    method InsertUser(u: User) returns (r: Result<User, Error>)
      requires Valid()
      modifies this`users, this`nextId
      ensures Valid()
      ensures r.Err? <==> exists k :: k in old(users) && old(users)[k].app == u.app && old(users)[k].uid == u.uid
      ensures r.Err? ==> r.error == DuplicateKey && users == old(users) && nextId == old(nextId)
      ensures r.Ok? ==> r.value == u.(id := old(nextId)) && r.value.id !in old(users)
      ensures r.Ok? ==> users == old(users)[r.value.id := r.value] && nextId == old(nextId) + 1
    {
      if exists k :: k in users && users[k].app == u.app && users[k].uid == u.uid {
        return Err(DuplicateKey);
      }
      var saved := u.(id := nextId);
      InsertUserKeepsInv(apps, users, devices, integrations, plugins, nextId, saved);
      users := users[saved.id := saved];
      nextId := nextId + 1;
      r := Ok(saved);
    }

    /** `loadedUser.update(...)`: replace a stored user unless another user holds its (app, uid). */
    method UpdateUser(u: User) returns (r: Result<User, Error>)
      requires Valid() && u.id in users
      modifies this`users
      ensures Valid()
      ensures r.Err? <==> exists k :: k in old(users) && k != u.id && old(users)[k].app == u.app && old(users)[k].uid == u.uid
      ensures r.Err? ==> r.error == DuplicateKey && users == old(users)
      ensures r.Ok? ==> r.value == u && users == old(users)[u.id := u]
    {
      if exists k :: k in users && k != u.id && users[k].app == u.app && users[k].uid == u.uid {
        return Err(DuplicateKey);
      }
      UpdateUserKeepsInv(apps, users, devices, integrations, plugins, nextId, u);
      users := users[u.id := u];
      r := Ok(u);
    }

    /** `user.update({'extra....': v})`: only the user's `extra` changes, so no index is affected. */
    method SetUserExtra(id: Id, extra: map<string, Json>)
      requires Valid() && id in users
      modifies this`users
      ensures Valid()
      ensures users == old(users)[id := old(users)[id].(extra := extra)]
    {
      UsersUniqueOthers(users, id);
      UpdateUserKeepsInv(apps, users, devices, integrations, plugins, nextId, users[id].(extra := extra));
      users := users[id := users[id].(extra := extra)];
    }

    /** Whether `d` would clash, on either device index, with a stored device other than `self`. */
    predicate DeviceClash(d: Device, self: Option<Id>)
      reads this
    {
      exists k :: k in devices && Some(k) != self && devices[k].user == d.user
                  && (devices[k].uid == d.uid || devices[k].channel == d.channel)
    }

    /** `device.save()` for a new device of a stored user. */
    method InsertDevice(d: Device) returns (r: Result<Device, Error>)
      requires Valid() && d.user in users
      modifies this`devices, this`nextId
      ensures Valid()
      ensures r.Err? <==> old(DeviceClash(d, None))
      ensures r.Err? ==> r.error == DuplicateKey && devices == old(devices) && nextId == old(nextId)
      ensures r.Ok? ==> r.value == d.(id := old(nextId)) && r.value.id !in old(devices)
      ensures r.Ok? ==> devices == old(devices)[r.value.id := r.value] && nextId == old(nextId) + 1
    {
      if DeviceClash(d, None) {
        return Err(DuplicateKey);
      }
      var saved := d.(id := nextId);
      InsertDeviceKeepsInv(apps, users, devices, integrations, plugins, nextId, saved);
      devices := devices[saved.id := saved];
      nextId := nextId + 1;
      r := Ok(saved);
    }

    /** `Device.findByIdAndUpdate(...)` on a stored device, keeping its owner. */
    method UpdateDevice(d: Device) returns (r: Result<Device, Error>)
      requires Valid() && d.id in devices && d.user == devices[d.id].user
      modifies this`devices
      ensures Valid()
      ensures r.Err? <==> old(DeviceClash(d, Some(d.id)))
      ensures r.Err? ==> r.error == DuplicateKey && devices == old(devices)
      ensures r.Ok? ==> r.value == d && devices == old(devices)[d.id := d]
    {
      if DeviceClash(d, Some(d.id)) {
        return Err(DuplicateKey);
      }
      UpdateDeviceKeepsInv(apps, users, devices, integrations, plugins, nextId, d);
      devices := devices[d.id := d];
      r := Ok(d);
    }

    /** Whether `i` would clash, on any of the three integration indexes, with a stored integration other than `self`. */
    predicate IntegrationClash(i: Integration, self: Option<Id>)
      reads this
    {
      exists k :: k in integrations && Some(k) != self && integrations[k].channel == i.channel
                  && (integrations[k].app == i.app
                      || (PageId(i).Some? && PageId(integrations[k]) == PageId(i))
                      || (TeamId(i).Some? && TeamId(integrations[k]) == TeamId(i)))
    }

    method InsertIntegration(i: Integration) returns (r: Result<Integration, Error>)
      requires Valid()
      modifies this`integrations, this`nextId
      ensures Valid()
      ensures r.Err? <==> old(IntegrationClash(i, None))
      ensures r.Err? ==> r.error == DuplicateKey && integrations == old(integrations) && nextId == old(nextId)
      ensures r.Ok? ==> r.value == i.(id := old(nextId))
      ensures r.Ok? ==> integrations == old(integrations)[r.value.id := r.value] && nextId == old(nextId) + 1
    {
      if IntegrationClash(i, None) {
        return Err(DuplicateKey);
      }

      var saved := i.(id := nextId);
      InsertIntegrationKeepsInv(apps, users, devices, integrations, plugins, nextId, saved);
      integrations := integrations[saved.id := saved];
      nextId := nextId + 1;
      r := Ok(saved);
    }

    /** Replacing a stored integration, as an update of its configuration does. */
    method UpdateIntegration(i: Integration) returns (r: Result<Integration, Error>)
      requires Valid() && i.id in integrations
      modifies this`integrations
      ensures Valid()
      ensures r.Err? <==> old(IntegrationClash(i, Some(i.id)))
      ensures r.Err? ==> r.error == DuplicateKey && integrations == old(integrations)
      ensures r.Ok? ==> r.value == i && integrations == old(integrations)[i.id := i]
    {
      if IntegrationClash(i, Some(i.id)) {
        return Err(DuplicateKey);
      }
      UpdateIntegrationKeepsInv(apps, users, devices, integrations, plugins, nextId, i);
      integrations := integrations[i.id := i];
      r := Ok(i);
    }

    /** `plugin.save()` for a new plugin; (app, type) is unique. */
    method InsertPlugin(p: Plugin) returns (r: Result<Plugin, Error>)
      requires Valid()
      modifies this`plugins, this`nextId
      ensures Valid()
      ensures r.Err? <==> exists k :: k in old(plugins) && old(plugins)[k].app == p.app && old(plugins)[k].ptype == p.ptype
      ensures r.Err? ==> r.error == DuplicateKey && plugins == old(plugins) && nextId == old(nextId)
      ensures r.Ok? ==> r.value == p.(id := old(nextId))
      ensures r.Ok? ==> plugins == old(plugins)[r.value.id := r.value] && nextId == old(nextId) + 1
    {
      if exists k :: k in plugins && plugins[k].app == p.app && plugins[k].ptype == p.ptype {
        return Err(DuplicateKey);
      }
      var saved := p.(id := nextId);
      InsertPluginKeepsInv(apps, users, devices, integrations, plugins, nextId, saved);
      plugins := plugins[saved.id := saved];
      nextId := nextId + 1;
      r := Ok(saved);
    }

    /** `plugin.update({configuration})`: app and type, hence the index, are unchanged. */
    method SetPluginConfiguration(id: Id, configuration: Json)
      requires Valid() && id in plugins
      modifies this`plugins
      ensures Valid()
      ensures plugins == old(plugins)[id := old(plugins)[id].(configuration := configuration)]
    {
      PluginsUniqueOthers(plugins, id);
      UpdatePluginKeepsInv(apps, users, devices, integrations, plugins, nextId, plugins[id].(configuration := configuration));
      plugins := plugins[id := plugins[id].(configuration := configuration)];
    }

    /** `plugin.remove()`. */
    method RemovePlugin(id: Id)
      requires Valid()
      modifies this`plugins
      ensures Valid()
      ensures plugins == old(plugins) - {id}
    {
      RemovePluginKeepsInv(apps, users, devices, integrations, plugins, nextId, id);
      plugins := plugins - {id};
    }

    /** `pluginQueries.getPlugin(app, type, {require: false})`: the app's plugin of that type, if any. */
    method FindPlugin(app: Id, ptype: PluginType) returns (r: Option<Plugin>)
      requires Valid()
      ensures r == PluginOf(plugins, app, ptype)
      ensures r.Some? ==> r.value.id in plugins && plugins[r.value.id] == r.value
      ensures r.Some? ==> r.value.app == app && r.value.ptype == ptype
      ensures r.None? <==> forall k :: k in plugins ==> !(plugins[k].app == app && plugins[k].ptype == ptype)
      ensures r.Some? ==> forall k :: k in plugins && k != r.value.id ==> !(plugins[k].app == app && plugins[k].ptype == ptype)
    {
      if exists k :: k in plugins && plugins[k].app == app && plugins[k].ptype == ptype {
        var k :| k in plugins && plugins[k].app == app && plugins[k].ptype == ptype;
        r := Some(plugins[k]);
        PluginOfUnique(plugins, app, ptype, k);
        PluginsUniqueOthers(plugins, k);
      } else {
        r := None;
      }
    }

    /** The integration of `channel` whose `configuration.page.id` is `pageId`, if any. */
    method FindIntegrationByPage(channel: Channel, pageId: Json) returns (r: Option<Integration>)
      requires Valid()
      ensures r.Some? ==> r.value.id in integrations && integrations[r.value.id] == r.value
      ensures r.Some? ==> r.value.channel == channel && PageId(r.value) == Some(pageId)
      ensures r.None? <==> forall k :: k in integrations ==> !(integrations[k].channel == channel && PageId(integrations[k]) == Some(pageId))
    {
      if exists k :: k in integrations && integrations[k].channel == channel && PageId(integrations[k]) == Some(pageId) {
        var k :| k in integrations && integrations[k].channel == channel && PageId(integrations[k]) == Some(pageId);
        r := Some(integrations[k]);
      } else {
        r := None;
      }
    }

    /** `integrationCommons.getIntegration(app, channel, {require: false})`. */
    method FindIntegration(app: Id, channel: Channel) returns (r: Option<Integration>)
      requires Valid()
      ensures r.Some? ==> r.value.id in integrations && integrations[r.value.id] == r.value
      ensures r.Some? ==> r.value.app == app && r.value.channel == channel
      ensures r.None? <==> forall k :: k in integrations ==> !(integrations[k].app == app && integrations[k].channel == channel)
    {
      if exists k :: k in integrations && integrations[k].app == app && integrations[k].channel == channel {
        var k :| k in integrations && integrations[k].app == app && integrations[k].channel == channel;
        r := Some(integrations[k]);
      } else {
        r := None;
      }
    }
  }
}
