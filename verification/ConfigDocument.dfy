/** The upgrade as the program runs it: loops over entries, table rows, list items and profiles that update one document. */
module ConfigDocument {
  import opened ConfigTree
  import opened ConfigDefaults
  import opened ConfigMigrate
  import opened ConfigTables
  import opened ConfigUpgrade
  import opened ConfigProviders

  method AddMissingMapping(rules: Rules<Key>, target: Entries, canonical: Node<Key>, path: Path) returns (es: Entries)
    ensures es == AddMissing(rules, target, canonical, path)
    decreases canonical
  {
    es := target;
    if !canonical.Mapping? {
      return;
    }
    var i := 0;
    while i < |canonical.entries|
      invariant 0 <= i <= |canonical.entries| && es == AddUpTo(rules, target, canonical, i, path)
    {
      var c := canonical.entries[i];
      var filled := AddMissingMapping(rules, EntriesOf(Get(es, c.key)), c.node, path + [c.key]);
      es := AddOne(rules, es, c, path, Mapping(filled));
      i := i + 1;
    }
  }

  method CollectCustom(names: Names, items: seq<Node<Key>>) returns (custom: Entries)
    ensures custom == CustomOf(names, items, |items|)
    ensures Unique(Sequence(items)) ==> Collects(names, items, custom)
  {
    custom := [];
    var i := 0;
    while i < |items|
      invariant 0 <= i <= |items| && custom == CustomOf(names, items, i)
    {
      var item := items[i];
      if item.Mapping? {
        var id := names.providerId(NameText(item.entries));
        if id.Some? && Get(custom, id.value).None? {
          custom := Set(custom, id.value, Mapping(Del(item.entries, Name)));
        }
      }
      i := i + 1;
    }
    if Unique(Sequence(items)) {
      CustomCollects(names, items);
    }
  }

  method FileProfiles(names: Names, providers: Entries, profiles: Entries) returns (r: Entries)
    ensures r == AddProfiles(names, providers, profiles, |profiles|)
  {
    r := providers;
    var i := 0;
    while i < |profiles|
      invariant 0 <= i <= |profiles| && r == AddProfiles(names, providers, profiles, i)
    {
      r := AddProfile(names, r, profiles[i]);
      i := i + 1;
    }
  }

  method ApplyRows(es: Entries, ms: seq<Migration<Key>>) returns (r: Entries)
    requires forall m :: m in ms ==> Proper(m)
    ensures r == MigrateAll(es, ms)
  {
    r := es;
    var i := 0;
    while i < |ms|
      invariant 0 <= i <= |ms| && r == MigrateAll(es, ms[..i])
    {
      assert ms[..i + 1][..i] == ms[..i];
      r := Migrate(r, ms[i]);
      i := i + 1;
    }
    assert ms[..i] == ms;
  }

  class Document {
    var root: Entries

    constructor (root: Entries)
      ensures this.root == root
    {
      this.root := root;
    }

    method AddMissingConfigDefaults(names: Names, canonical: Node<Key>)
      modifies this
      ensures root == WithDefaults(names, old(root), canonical)
    {
      root := AddMissingMapping(RulesOf(names), root, canonical, []);
      if HasKimi(names, root) && At(root, [Models, AUXILIARY]).None? {
        root := SetPath(root, [Models, AUXILIARY], KIMI_DEFAULT);
      }
    }

    method ApplyConfigMigrations(names: Names)
      modifies this
      ensures root == Migrated(names, old(root))
    {
      TablesAreTidy();
      root := ApplyRows(root, Migrations());
      TurnListIntoMapping(names);
      TurnProfilesIntoProviders(names);
      root := Prune(root, [Providers, Custom]);
      root := Prune(root, [Agent]);
      root := Prune(root, [Model]);
    }

    method TurnListIntoMapping(names: Names)
      modifies this
      ensures root == MigrateCustomList(names, old(root))
    {
      var legacy := Get(ProvidersOf(root), Custom);
      if legacy.Some? && legacy.value.Sequence? {
        var custom := CollectCustom(names, legacy.value.items);
        root := SetPath(root, [Providers, Custom], Mapping(custom));
      } else if Get(root, Providers).None? || !Get(root, Providers).value.Mapping? {
        root := Set(root, Providers, Mapping([]));
      }
    }

    method TurnProfilesIntoProviders(names: Names)
      modifies this
      ensures root == MigrateProfiles(names, old(root))
    {
      var profiles := Get(root, ProviderProfiles);
      if profiles.Some? && profiles.value.Mapping? {
        var providers := FileProfiles(names, ProvidersOf(root), profiles.value.entries);
        root := Del(Set(root, Providers, Mapping(providers)), ProviderProfiles);
      }
    }

    /** Defaults, then migrations: what the upgrade command writes back. */
    method Upgrade(names: Names, canonical: Node<Key>)
      modifies this
      ensures root == Upgraded(names, old(root), canonical)
      ensures Upgradable(names, old(root), canonical) ==> Clean(canonical, root)
    {
      ghost var was := root;
      AddMissingConfigDefaults(names, canonical);
      ApplyConfigMigrations(names);
      if Upgradable(names, was, canonical) {
        UpgradeIsClean(names, was, canonical);
      }
    }
  }
}
