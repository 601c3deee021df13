/** What the provider sections hold after the migration, in terms of the document's own list items and profiles. */
module ConfigProviders {
  import opened Basics
  import opened ConfigTree
  import opened ConfigDefaults
  import opened ConfigMigrate
  import opened ConfigTables
  import opened ConfigUpgrade

  // ----- the provider list -----

  /** The list item is a provider of this id: the id its name text has. */
  predicate ItemIs(names: Names, item: Node<Key>, id: Key) {
    item.Mapping? &&
    var name := Get(item.entries, Name);
    names.providerId(if name.Some? && name.value.Scalar? then name.value.text else "") == Some(id)
  }

  /** The entries of the first list item of this id. */
  function FirstItem(names: Names, items: seq<Node<Key>>, id: Key): Option<Entries> {
    if items == [] then None
    else if ItemIs(names, items[0], id) then Some(items[0].entries)
    else FirstItem(names, items[1..], id)
  }

  /** A mapping with the settings of `was`, name aside. */
  ghost predicate SettingsOf(was: Entries, now: Option<Node<Key>>) {
    && now.Some? && now.value.Mapping? && Get(now.value.entries, Name).None?
    && forall k :: k != Name ==> Get(now.value.entries, k) == Get(was, k)
  }

  lemma SettingsWithoutName(was: Entries)
    requires UniqueEntries(was)
    ensures SettingsOf(was, Some(Mapping(Del(was, Name))))
  {
    UniqueDel(was, Name);
    forall k | k != Name ensures Get(Del(was, Name), k) == Get(was, k) {
      GetDelOther(was, Name, k);
    }
  }

  lemma {:induction false} FirstItemPrefix(names: Names, items: seq<Node<Key>>, i: nat, id: Key)
    requires i < |items|
    ensures FirstItem(names, items[..i + 1], id) ==
              if FirstItem(names, items[..i], id).Some? then FirstItem(names, items[..i], id)
              else if ItemIs(names, items[i], id) then Some(items[i].entries) else None
  {
    if i > 0 {
      assert items[..i + 1][1..] == items[1..][..i] && items[..i][1..] == items[1..][..i - 1];
      FirstItemPrefix(names, items[1..], i - 1, id);
    }
  }

  /** One more item: a new id gets its settings, an old one keeps what it has. */
  lemma CustomNext(names: Names, items: seq<Node<Key>>, i: nat, id: Key)
    requires i < |items|
    ensures var was, item := Get(CustomOf(names, items, i), id), items[i];
            Get(CustomOf(names, items, i + 1), id) ==
              if was.Some? then was else if ItemIs(names, item, id) then Some(Mapping(Del(item.entries, Name))) else None
  {
    var custom, item := CustomOf(names, items, i), items[i];
    if item.Mapping? && names.providerId(NameText(item.entries)).Some? {
      GetSet(custom, names.providerId(NameText(item.entries)).value, Mapping(Del(item.entries, Name)), id);
    }
  }

  /** The collected mapping has an id exactly when some item does, and then the settings of the first. */
  lemma {:induction false} CustomHolds(names: Names, items: seq<Node<Key>>, i: nat, id: Key)
    requires i <= |items| && Unique(Sequence(items))
    ensures var first, now := FirstItem(names, items[..i], id), Get(CustomOf(names, items, i), id);
            if first.None? then now.None? else SettingsOf(first.value, now)
  {
    if i > 0 {
      CustomHolds(names, items, i - 1, id);
      FirstItemPrefix(names, items, i - 1, id);
      CustomNext(names, items, i - 1, id);
      var item := items[i - 1];
      if item.Mapping? {
        assert item == Mapping(item.entries) && Unique(item);
        SettingsWithoutName(item.entries);
      }
    }
  }

  /** The collected mapping holds, for every id, the settings of its first item and nothing else. */
  ghost predicate Collects(names: Names, items: seq<Node<Key>>, custom: Entries) {
    forall id :: if FirstItem(names, items, id).None? then Get(custom, id).None? else SettingsOf(FirstItem(names, items, id).value, Get(custom, id))
  }

  lemma CustomCollects(names: Names, items: seq<Node<Key>>)
    requires Unique(Sequence(items))
    ensures Collects(names, items, CustomOf(names, items, |items|))
  {
    assert items[..|items|] == items;
    forall id {
      CustomHolds(names, items, |items|, id);
    }
  }

  // ----- profiles -----

  /** The profile is filed under this built-in provider. */
  predicate FiledAs(names: Names, key: Key, k: Key) {
    var id := names.profileId(key);
    id.Some? && names.builtin(id.value) == Some(k)
  }

  /** The profile is filed under this custom id. */
  predicate FiledCustom(names: Names, key: Key, id: Key) { names.profileId(key) == Some(id) && names.builtin(id).None? }

  function FilesAs(names: Names, k: Key): Key -> bool { key => FiledAs(names, key, k) }
  function FilesCustom(names: Names, id: Key): Key -> bool { key => FiledCustom(names, key, id) }

  /** The node of the first profile whose key is wanted. */
  function FirstProfile(profiles: Entries, wanted: Key -> bool): Option<Node<Key>> {
    if profiles == [] then None
    else if wanted(profiles[0].key) then Some(profiles[0].node)
    else FirstProfile(profiles[1..], wanted)
  }

  lemma {:induction false} FirstProfilePrefix(profiles: Entries, wanted: Key -> bool, i: nat)
    requires i < |profiles|
    ensures FirstProfile(profiles[..i + 1], wanted) ==
              if FirstProfile(profiles[..i], wanted).Some? then FirstProfile(profiles[..i], wanted)
              else if wanted(profiles[i].key) then Some(profiles[i].node) else None
  {
    if i > 0 {
      assert profiles[..i + 1][1..] == profiles[1..][..i] && profiles[..i][1..] == profiles[1..][..i - 1];
      FirstProfilePrefix(profiles[1..], wanted, i - 1);
    }
  }

  lemma {:induction false} FirstProfileExists(profiles: Entries, wanted: Key -> bool)
    ensures FirstProfile(profiles, wanted).Some? <==> exists j :: 0 <= j < |profiles| && wanted(profiles[j].key)
  {
    if profiles != [] {
      FirstProfileExists(profiles[1..], wanted);
      if j :| 0 <= j < |profiles| && wanted(profiles[j].key) {
        assert j > 0 ==> profiles[1..][j - 1] == profiles[j];
      }
    }
  }

  lemma AddProfileBuiltin(names: Names, providers: Entries, e: Entry<Key>, k: Key)
    requires k != Custom
    ensures Get(AddProfile(names, providers, e), k) ==
              if Get(providers, k).Some? then Get(providers, k) else if FiledAs(names, e.key, k) then Some(e.node) else None
  {
    var id := names.profileId(e.key);
    if id.Some? {
      if names.builtin(id.value).Some? {
        GetSet(providers, names.builtin(id.value).value, e.node, k);
      } else {
        GetSet(providers, Custom, Mapping(Set(EntriesOf(Get(providers, Custom)), id.value, e.node)), k);
      }
    }
  }

  /** A built-in provider has its own entry, else the node of the first profile that resolves to it. */
  lemma {:induction false} AddProfilesBuiltin(names: Names, providers: Entries, profiles: Entries, i: nat, k: Key)
    requires k != Custom && i <= |profiles|
    ensures Get(AddProfiles(names, providers, profiles, i), k) ==
              if Get(providers, k).Some? then Get(providers, k) else FirstProfile(profiles[..i], FilesAs(names, k))
  {
    if i > 0 {
      AddProfilesBuiltin(names, providers, profiles, i - 1, k);
      FirstProfilePrefix(profiles, FilesAs(names, k), i - 1);
      AddProfileBuiltin(names, AddProfiles(names, providers, profiles, i - 1), profiles[i - 1], k);
    }
  }

  function CustomIn(providers: Entries, id: Key): Option<Node<Key>> { Get(EntriesOf(Get(providers, Custom)), id) }

  lemma AddProfileCustom(names: Names, providers: Entries, e: Entry<Key>, id: Key)
    requires Good(names)
    ensures CustomIn(AddProfile(names, providers, e), id) ==
              if CustomIn(providers, id).Some? then CustomIn(providers, id) else if FiledCustom(names, e.key, id) then Some(e.node) else None
  {
    var own := names.profileId(e.key);
    if own.Some? {
      if names.builtin(own.value).Some? {
        GetSet(providers, names.builtin(own.value).value, e.node, Custom);
      } else {
        var custom := EntriesOf(Get(providers, Custom));
        GetSet(providers, Custom, Mapping(Set(custom, own.value, e.node)), Custom);
        GetSet(custom, own.value, e.node, id);
      }
    }
  }

  /** A custom provider has its own entry, else the node of the first profile of that id. */
  lemma {:induction false} AddProfilesCustom(names: Names, providers: Entries, profiles: Entries, i: nat, id: Key)
    requires Good(names) && i <= |profiles|
    ensures CustomIn(AddProfiles(names, providers, profiles, i), id) ==
              if CustomIn(providers, id).Some? then CustomIn(providers, id) else FirstProfile(profiles[..i], FilesCustom(names, id))
  {
    if i > 0 {
      AddProfilesCustom(names, providers, profiles, i - 1, id);
      FirstProfilePrefix(profiles, FilesCustom(names, id), i - 1);
      AddProfileCustom(names, AddProfiles(names, providers, profiles, i - 1), profiles[i - 1], id);
    }
  }

  function ProfilesOf(es: Entries): Entries { EntriesOf(Get(es, ProviderProfiles)) }

  /** The profile stage on one provider entry. */
  lemma ProfilesFile(names: Names, es: Entries, k: Key, id: Key)
    requires Good(names) && k != Custom
    ensures var was, now := ProvidersOf(es), ProvidersOf(MigrateProfiles(names, es));
            && Get(now, k) == (if Get(was, k).Some? then Get(was, k) else FirstProfile(ProfilesOf(es), FilesAs(names, k)))
            && CustomIn(now, id) == if CustomIn(was, id).Some? then CustomIn(was, id) else FirstProfile(ProfilesOf(es), FilesCustom(names, id))
  {
    var ps := ProfilesOf(es);
    ProvidersAfterProfiles(names, es);
    if Get(es, ProviderProfiles).Some? && Get(es, ProviderProfiles).value.Mapping? {
      assert ps[..|ps|] == ps;
      AddProfilesBuiltin(names, ProvidersOf(es), ps, |ps|, k);
      AddProfilesCustom(names, ProvidersOf(es), ps, |ps|, id);
    }
  }

  // ----- the whole migration -----

  lemma RowsMissProviders(m: Migration<Key>, k: Key)
    requires IsRow(m) && (k.Other? || k == Custom)
    ensures Apart(m.from, [Providers, k]) && (m.Move? ==> Apart(m.to, [Providers, k]))
    ensures Apart(m.from, [ProviderProfiles]) && (m.Move? ==> Apart(m.to, [ProviderProfiles]))
  {
    PartEarly(m.from, [Providers, k]);
    if m.Move? {
      PartEarly(m.to, [Providers, k]);
    }
  }

  /** The moves touch neither the profiles, nor the custom providers, nor a provider the table does not name. */
  lemma MovesMissProviders(es: Entries, k: Key)
    requires k.Other? || k == Custom
    ensures Tidy(Migrations())
    ensures At(MigrateAll(es, Migrations()), [Providers, k]) == At(es, [Providers, k])
    ensures Get(MigrateAll(es, Migrations()), ProviderProfiles) == Get(es, ProviderProfiles)
  {
    TablesAreTidy();
    RowsAreRows();
    forall m | m in Migrations()
      ensures Proper(m) && Apart(m.from, [Providers, k]) && (m.Move? ==> Apart(m.to, [Providers, k]))
      ensures Apart(m.from, [ProviderProfiles]) && (m.Move? ==> Apart(m.to, [ProviderProfiles]))
    {
      RowsMissProviders(m, k);
    }
    AllApart(es, Migrations(), [Providers, k]);
    AllApart(es, Migrations(), [ProviderProfiles]);
    AtOne(es, ProviderProfiles);
    AtOne(MigrateAll(es, Migrations()), ProviderProfiles);
  }

  /** A provider the table does not name has its own entry after the migration, else the node of the first profile that resolves to it. */
  lemma BuiltinAfterMigration(names: Names, es: Entries, name: string)
    requires Good(names) && UniqueEntries(es)
    ensures At(Migrated(names, es), [Providers, Other(name)]) ==
              if At(es, [Providers, Other(name)]).Some? then At(es, [Providers, Other(name)])
              else FirstProfile(ProfilesOf(es), FilesAs(names, Other(name)))
  {
    var k := Other(name);
    MovesMissProviders(es, k);
    AllCleared(es, Migrations());
    var moved := MigrateAll(es, Migrations());
    var listed := MigrateCustomList(names, moved);
    var filed := MigrateProfiles(names, listed);
    CustomListDoes(names, moved, k);
    CustomListDoes(names, moved, ProviderProfiles);
    ProfilesFile(names, listed, k, k);
    AtTwo(moved, k);
    AtTwo(filed, k);
    PrunedApart(filed, [Providers, k]);
  }

  lemma AtCustom(es: Entries, id: Key)
    ensures At(es, [Providers, Custom, id]) == CustomIn(ProvidersOf(es), id)
  {
    AtTwo(es, Custom);
    var custom := Get(ProvidersOf(es), Custom);
    assert [Providers, Custom, id] == [Providers, Custom] + [id];
    LookupAppend(Mapping(es), [Providers, Custom], [id]);
    if custom.Some? && custom.value.Mapping? {
      AtOne(custom.value.entries, id);
      assert custom.value == Mapping(custom.value.entries);
    }
  }

  lemma PrunedCustom(es: Entries, id: Key)
    requires UniqueEntries(es)
    ensures At(Pruned(es), [Providers, Custom, id]) == At(es, [Providers, Custom, id])
  {
    var q, c := [Providers, Custom, id], [Providers, Custom];
    var one := Prune(es, c);
    assert q[..2] == c && c <= q;
    PruneKeepsNone(es, c, q);
    if At(es, c) == Some(Mapping([])) {
      AtCustom(es, id);
      AtTwo(es, Custom);
    }
    assert Apart([Agent], q) && Apart([Model], q);
    DelApart(one, [Agent], q);
    DelApart(Prune(one, [Agent]), [Model], q);
  }

  /** What the list stage leaves under a custom id. */
  lemma ListStage(names: Names, es: Entries, id: Key)
    requires UniqueEntries(es)
    ensures var custom, now := Get(ProvidersOf(es), Custom), CustomIn(ProvidersOf(MigrateCustomList(names, es)), id);
            if custom.Some? && custom.value.Sequence? then
              var first := FirstItem(names, custom.value.items, id);
              if first.None? then now.None? else SettingsOf(first.value, now)
            else now == CustomIn(ProvidersOf(es), id)
  {
    var providers := ProvidersOf(es);
    var custom := Get(providers, Custom);
    if custom.Some? && custom.value.Sequence? {
      var items := custom.value.items;
      UniqueGet(es, Providers);
      UniqueGet(providers, Custom);
      assert custom.value == Sequence(items) && items[..|items|] == items;
      CustomHolds(names, items, |items|, id);
      SetHere(es, [Providers, Custom], Mapping(CustomOf(names, items, |items|)));
      AtTwo(MigrateCustomList(names, es), Custom);
    } else if Get(es, Providers).None? || !Get(es, Providers).value.Mapping? {
      GetSet(es, Providers, Mapping([]), Providers);
    }
  }

  /**
   Every custom provider of the migrated document: the settings of the first list item of
   its id, or the entry it had where the section was a mapping, else the node of the first
   profile of its id that is no built-in provider, else nothing.
   */
  lemma CustomAfterMigration(names: Names, es: Entries, id: Key)
    requires Good(names) && UniqueEntries(es)
    ensures var custom, now := At(es, [Providers, Custom]), At(Migrated(names, es), [Providers, Custom, id]);
            var profile := FirstProfile(ProfilesOf(es), FilesCustom(names, id));
            if custom.Some? && custom.value.Sequence? then
              var first := FirstItem(names, custom.value.items, id);
              if first.Some? then SettingsOf(first.value, now) else now == profile
            else if At(es, [Providers, Custom, id]).Some? then now == At(es, [Providers, Custom, id])
            else now == profile
  {
    MovesMissProviders(es, Custom);
    AllCleared(es, Migrations());
    var moved := MigrateAll(es, Migrations());
    var listed := MigrateCustomList(names, moved);
    var filed := MigrateProfiles(names, listed);
    CustomListDoes(names, moved, ProviderProfiles);
    ListStage(names, moved, id);
    ProfilesFile(names, listed, Name, id);
    ProfilesDo(names, listed, Name);
    PrunedCustom(filed, id);
    AtCustom(filed, id);
    SameCustom(es, moved, id);
  }

  lemma SameCustom(es: Entries, moved: Entries, id: Key)
    requires At(moved, [Providers, Custom]) == At(es, [Providers, Custom])
    ensures Get(ProvidersOf(moved), Custom) == At(es, [Providers, Custom])
    ensures CustomIn(ProvidersOf(moved), id) == At(es, [Providers, Custom, id])
  {
    AtTwo(es, Custom);
    AtTwo(moved, Custom);
    AtCustom(es, id);
  }

  /** Through the whole upgrade: every provider of the user's list keeps all its settings. */
  lemma ListedProvidersKeepTheirSettings(names: Names, es: Entries, canonical: Node<Key>, items: seq<Node<Key>>, id: Key)
    requires Good(names) && UniqueEntries(es) && Unique(canonical) && At(es, [Providers, Custom]) == Some(Sequence(items))
    requires FirstItem(names, items, id).Some?
    ensures SettingsOf(FirstItem(names, items, id).value, At(Upgraded(names, es, canonical), [Providers, Custom, id]))
  {
    var q := [Providers, Custom];
    DefaultsKeep(RulesOf(names), es, canonical, [], q);
    KimiKeepsLeaf(names, AddMissing(RulesOf(names), es, canonical, []), q);
    DefaultsKeepUnique(names, es, canonical);
    CustomAfterMigration(names, WithDefaults(names, es, canonical), id);
  }
}
