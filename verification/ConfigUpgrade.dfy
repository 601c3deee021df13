/**
 The configuration upgrade: missing defaults are added, legacy paths move or go,
 provider lists and profiles become entries; the result reports nothing left to do
 and keeps every value of the user's.
 */
module ConfigUpgrade {
  import opened Basics
  import opened ConfigTree
  import opened ConfigDefaults
  import opened ConfigMigrate
  import opened ConfigTables

  const AUXILIARY := Other("auxiliary")
  const KIMI := Other("kimi-coding")

  function Literal(path: Path): Option<string> {
    if path == [Auth, CredentialsFile] then Some("~/.selfmind/auth.json") else None
  }

  /**
   Name classification: sensitive keys, the provider id of a list entry's name or of
   a profile key, the registry's built-in providers, and the Kimi provider name.
   */
  datatype Names = Names(sensitive: Key -> bool, providerId: string -> Option<Key>, profileId: Key -> Option<Key>,
                         builtin: Key -> Option<Key>, isKimi: string -> bool)

  function RulesOf(names: Names): Rules<Key> { Rules(names.sensitive, path => Literal(path)) }

  ghost predicate Insensitive(names: Names, p: Path) { forall k :: k in p ==> !names.sensitive(k) }

  /** The keys on the paths the Kimi default looks at. */
  const KIMI_KEYS: Path := [Models, Primary, Provider, Model, Providers, ProviderProfiles, AUXILIARY, KIMI]

  /** No reported default and no path to Kimi is under a sensitive key, and no built-in provider has a legacy name. */
  ghost predicate Good(names: Names) {
    && (forall i: nat :: i < 56 ==> Insensitive(names, DefaultPath(i))) && Insensitive(names, KIMI_KEYS)
    && (forall id :: names.builtin(id).Some? ==> !IsLegacyKey(names.builtin(id).value) && names.builtin(id).value != Custom)
  }

  // ----- the Kimi auxiliary default -----

  predicate IsKimiText(names: Names, n: Option<Node<Key>>) { n.Some? && n.value.Scalar? && names.isKimi(n.value.text) }

  predicate HasKimi(names: Names, es: Entries) {
    || IsKimiText(names, At(es, [Models, Primary, Provider])) || IsKimiText(names, At(es, [Model, Provider]))
    || At(es, [Providers, KIMI]).Some? || At(es, [ProviderProfiles, KIMI]).Some?
  }

  const KIMI_DEFAULT: Node<Key> :=
    Mapping([Entry(Provider, Scalar("kimi-coding")), Entry(Model, Scalar("kimi-for-coding"))])

  function AddKimi(names: Names, es: Entries): Entries {
    if !HasKimi(names, es) || At(es, [Models, AUXILIARY]).Some? then es else SetPath(es, [Models, AUXILIARY], KIMI_DEFAULT)
  }

  // ----- provider lists and profiles -----

  function ProvidersOf(es: Entries): Entries { EntriesOf(Get(es, Providers)) }

  function NameText(es: Entries): string {
    var n := Get(es, Name);
    if n.Some? && n.value.Scalar? then n.value.text else ""
  }

  /** The mapping built from the first i items of the list: the first item of each id, without its name. */
  function CustomOf(names: Names, items: seq<Node<Key>>, i: nat): Entries
    requires i <= |items|
  {
    if i == 0 then []
    else
      var custom, item := CustomOf(names, items, i - 1), items[i - 1];
      if !item.Mapping? then custom
      else
        var id := names.providerId(NameText(item.entries));
        if id.None? || Get(custom, id.value).Some? then custom
        else Set(custom, id.value, Mapping(Del(item.entries, Name)))
  }

  function MigrateCustomList(names: Names, es: Entries): Entries {
    var legacy := Get(ProvidersOf(es), Custom);
    if legacy.Some? && legacy.value.Sequence? then
      SetPath(es, [Providers, Custom], Mapping(CustomOf(names, legacy.value.items, |legacy.value.items|)))
    else if Get(es, Providers).Some? && Get(es, Providers).value.Mapping? then es
    else Set(es, Providers, Mapping([]))
  }

  /** One profile becomes a provider entry, or a custom one, unless that name is taken. */
  function AddProfile(names: Names, providers: Entries, e: Entry<Key>): Entries {
    var id := names.profileId(e.key);
    if id.None? then providers
    else if names.builtin(id.value).Some? then
      var b := names.builtin(id.value).value;
      if Get(providers, b).None? then Set(providers, b, e.node) else providers
    else
      var custom := Get(providers, Custom);
      if custom.Some? && custom.value.Mapping? && Get(custom.value.entries, id.value).Some? then providers
      else Set(providers, Custom, Mapping(Set(EntriesOf(custom), id.value, e.node)))
  }

  function AddProfiles(names: Names, providers: Entries, profiles: Entries, i: nat): Entries
    requires i <= |profiles|
  {
    if i == 0 then providers else AddProfile(names, AddProfiles(names, providers, profiles, i - 1), profiles[i - 1])
  }

  function MigrateProfiles(names: Names, es: Entries): Entries {
    var profiles := Get(es, ProviderProfiles);
    if profiles.Some? && profiles.value.Mapping? then
      var ps := profiles.value.entries;
      Del(Set(es, Providers, Mapping(AddProfiles(names, ProvidersOf(es), ps, |ps|))), ProviderProfiles)
    else es
  }

  function Prune(es: Entries, path: Path): Entries
    requires path != []
  {
    if At(es, path) == Some(Mapping([])) then DelPath(es, path) else es
  }

  // ----- the upgrade -----

  function WithDefaults(names: Names, es: Entries, canonical: Node<Key>): Entries {
    AddKimi(names, AddMissing(RulesOf(names), es, canonical, []))
  }

  function Pruned(es: Entries): Entries { Prune(Prune(Prune(es, [Providers, Custom]), [Agent]), [Model]) }

  function Migrated(names: Names, es: Entries): Entries
  {
    TablesAreTidy();
    Pruned(MigrateProfiles(names, MigrateCustomList(names, MigrateAll(es, Migrations()))))
  }

  function Upgraded(names: Names, es: Entries, canonical: Node<Key>): Entries
  {
    Migrated(names, WithDefaults(names, es, canonical))
  }

  // ----- each stage on providers -----

  lemma AtTwo(es: Entries, k: Key)
    ensures At(es, [Providers, k]) == Get(ProvidersOf(es), k)
  {
    AtStep(es, [Providers, k]);
    assert [Providers, k][1..] == [k];
    if Get(es, Providers).Some? && Get(es, Providers).value.Mapping? {
      AtStep(Get(es, Providers).value.entries, [k]);
      assert [k][1..] == [];
    }
  }

  lemma {:induction false} CustomUnique(names: Names, items: seq<Node<Key>>, i: nat)
    requires i <= |items| && Unique(Sequence(items))
    ensures UniqueEntries(CustomOf(names, items, i))
  {
    if i > 0 {
      CustomUnique(names, items, i - 1);
      var item := items[i - 1];
      if item.Mapping? {
        assert item == Mapping(item.entries);
        UniqueDel(item.entries, Name);
        var id := names.providerId(NameText(item.entries));
        if id.Some? {
          UniqueSet(CustomOf(names, items, i - 1), id.value, Mapping(Del(item.entries, Name)));
        }
      }
    }
  }

  /** The list stage: other keys and other providers as they were, no list left, keys unique. */
  lemma CustomListDoes(names: Names, es: Entries, k: Key)
    requires UniqueEntries(es)
    ensures var es' := MigrateCustomList(names, es);
            && UniqueEntries(es') && (k != Providers ==> Get(es', k) == Get(es, k))
            && (k != Custom ==> Get(ProvidersOf(es'), k) == Get(ProvidersOf(es), k))
            && !(Get(ProvidersOf(es'), Custom).Some? && Get(ProvidersOf(es'), Custom).value.Sequence?)
  {
    var providers := ProvidersOf(es);
    if Get(es, Providers).Some? {
      UniqueGet(es, Providers);
    }
    var legacy := Get(providers, Custom);
    if legacy.Some? && legacy.value.Sequence? {
      UniqueGet(providers, Custom);
      var custom := Mapping(CustomOf(names, legacy.value.items, |legacy.value.items|));
      assert legacy.value == Sequence(legacy.value.items);
      CustomUnique(names, legacy.value.items, |legacy.value.items|);
      UniqueSetPath(es, [Providers, Custom], custom);
      assert [Providers, Custom][1..] == [Custom];
      GetSet(es, Providers, Mapping(SetPath(providers, [Custom], custom)), k);
      GetSet(es, Providers, Mapping(SetPath(providers, [Custom], custom)), Providers);
      GetSet(providers, Custom, custom, k);
      GetSet(providers, Custom, custom, Custom);
    } else {
      UniqueSet(es, Providers, Mapping([]));
      GetSet(es, Providers, Mapping([]), k);
      GetSet(es, Providers, Mapping([]), Providers);
    }
  }

  lemma AddProfileDoes(names: Names, providers: Entries, e: Entry<Key>, k: Key)
    requires Good(names) && UniqueEntries(providers) && Unique(e.node)
    requires !(Get(providers, Custom).Some? && Get(providers, Custom).value.Sequence?)
    ensures var ps := AddProfile(names, providers, e);
            && UniqueEntries(ps) && (IsLegacyKey(k) ==> Get(ps, k) == Get(providers, k))
            && !(Get(ps, Custom).Some? && Get(ps, Custom).value.Sequence?)
  {
    var id := names.profileId(e.key);
    if id.Some? {
      if names.builtin(id.value).Some? {
        var b := names.builtin(id.value).value;
        UniqueSet(providers, b, e.node);
        GetSet(providers, b, e.node, k);
        GetSet(providers, b, e.node, Custom);
      } else {
        var custom := Get(providers, Custom);
        if custom.Some? {
          UniqueGet(providers, Custom);
        }
        UniqueSet(EntriesOf(custom), id.value, e.node);
        var custom' := Mapping(Set(EntriesOf(custom), id.value, e.node));
        UniqueSet(providers, Custom, custom');
        GetSet(providers, Custom, custom', k);
        GetSet(providers, Custom, custom', Custom);
      }
    }
  }

  lemma {:induction false} AddProfilesDo(names: Names, providers: Entries, profiles: Entries, i: nat, k: Key)
    requires Good(names) && UniqueEntries(providers) && UniqueEntries(profiles) && i <= |profiles|
    requires !(Get(providers, Custom).Some? && Get(providers, Custom).value.Sequence?)
    ensures var ps := AddProfiles(names, providers, profiles, i);
            && UniqueEntries(ps) && (IsLegacyKey(k) ==> Get(ps, k) == Get(providers, k))
            && !(Get(ps, Custom).Some? && Get(ps, Custom).value.Sequence?)
  {
    if i > 0 {
      AddProfilesDo(names, providers, profiles, i - 1, k);
      AddProfileDoes(names, AddProfiles(names, providers, profiles, i - 1), profiles[i - 1], k);
    }
  }

  /** What the profile stage makes of the providers. */
  lemma ProvidersAfterProfiles(names: Names, es: Entries)
    ensures var profiles, after := Get(es, ProviderProfiles), MigrateProfiles(names, es);
            if profiles.Some? && profiles.value.Mapping? then
              ProvidersOf(after) == AddProfiles(names, ProvidersOf(es), profiles.value.entries, |profiles.value.entries|)
            else after == es
  {
    var profiles := Get(es, ProviderProfiles);
    if profiles.Some? && profiles.value.Mapping? {
      var ps := profiles.value.entries;
      var providers' := Mapping(AddProfiles(names, ProvidersOf(es), ps, |ps|));
      GetSet(es, Providers, providers', Providers);
      GetDelOther(Set(es, Providers, providers'), ProviderProfiles, Providers);
    }
  }

  lemma ProfilesElsewhere(names: Names, es: Entries, k: Key)
    requires UniqueEntries(es)
    ensures var es' := MigrateProfiles(names, es);
            && (k != Providers && k != ProviderProfiles ==> Get(es', k) == Get(es, k))
            && (Get(es', ProviderProfiles).Some? ==> !Get(es', ProviderProfiles).value.Mapping?)
  {
    var profiles := Get(es, ProviderProfiles);
    if profiles.Some? && profiles.value.Mapping? {
      var ps := profiles.value.entries;
      var providers' := Mapping(AddProfiles(names, ProvidersOf(es), ps, |ps|));
      GetSet(es, Providers, providers', k);
      DelGone(es, Providers, providers', ProviderProfiles);
      if k != ProviderProfiles {
        GetDelOther(Set(es, Providers, providers'), ProviderProfiles, k);
      }
    }
  }

  lemma DelGone(es: Entries, a: Key, node: Node<Key>, b: Key)
    requires UniqueEntries(es) && a != b
    ensures Get(Del(Set(es, a, node), b), b) == None
  {
    DistinctSet(es, a, node);
    DistinctDel(Set(es, a, node), b);
  }

  /** The profile stage: other keys and legacy provider keys as they were, the profiles gone, keys unique. */
  lemma ProfilesDo(names: Names, es: Entries, k: Key)
    requires Good(names) && UniqueEntries(es)
    requires !(Get(ProvidersOf(es), Custom).Some? && Get(ProvidersOf(es), Custom).value.Sequence?)
    ensures var es' := MigrateProfiles(names, es);
            && UniqueEntries(es') && (k != Providers && k != ProviderProfiles ==> Get(es', k) == Get(es, k))
            && (IsLegacyKey(k) ==> Get(ProvidersOf(es'), k) == Get(ProvidersOf(es), k))
            && !(Get(ProvidersOf(es'), Custom).Some? && Get(ProvidersOf(es'), Custom).value.Sequence?)
            && (Get(es', ProviderProfiles).Some? ==> !Get(es', ProviderProfiles).value.Mapping?)
  {
    ProfilesElsewhere(names, es, k);
    ProvidersAfterProfiles(names, es);
    var profiles := Get(es, ProviderProfiles);
    if profiles.Some? && profiles.value.Mapping? {
      UniqueGet(es, ProviderProfiles);
      var ps := profiles.value.entries;
      assert profiles.value == Mapping(ps);
      if Get(es, Providers).Some? {
        UniqueGet(es, Providers);
      }
      AddProfilesDo(names, ProvidersOf(es), ps, |ps|, k);
      var providers' := Mapping(AddProfiles(names, ProvidersOf(es), ps, |ps|));
      UniqueSet(es, Providers, providers');
      UniqueDel(Set(es, Providers, providers'), ProviderProfiles);
    }
  }

  // ----- each stage on whole paths -----

  /** A path is outside the provider sections. */
  predicate Elsewhere(q: Path) { q != [] && q[0] != Providers && q[0] != ProviderProfiles }

  lemma ProvidersStagesElsewhere(names: Names, es: Entries, q: Path)
    requires Good(names) && UniqueEntries(es) && Elsewhere(q)
    ensures At(MigrateProfiles(names, MigrateCustomList(names, es)), q) == At(es, q)
  {
    CustomListDoes(names, es, q[0]);
    ProfilesDo(names, MigrateCustomList(names, es), q[0]);
    SameHead(es, MigrateProfiles(names, MigrateCustomList(names, es)), q);
  }

  lemma PruneKeepsSome(es: Entries, path: Path, q: Path)
    requires path != [] && At(es, q).Some? && q != path
    ensures At(Prune(es, path), q).Some?
  {
    if At(es, path) == Some(Mapping([])) {
      if path <= q {
        BelowEmpty(es, path, q);
      }
      DelKeepsSome(es, path, q);
    }
  }

  lemma PruneKeepsLeaf(es: Entries, path: Path, q: Path)
    requires path != [] && q != [] && IsLeaf(At(es, q))
    ensures At(Prune(es, path), q) == At(es, q)
  {
    if At(es, path) == Some(Mapping([])) {
      if path <= q && path != q {
        BelowEmpty(es, path, q);
      }
      DelKeepsLeaf(es, path, q);
    }
  }

  /** What is absent stays absent, and keys stay unique. */
  lemma PruneKeepsNone(es: Entries, path: Path, q: Path)
    requires path != [] && q != [] && UniqueEntries(es) && (path <= q || Apart(path, q))
    ensures UniqueEntries(Prune(es, path)) && (At(es, q).None? ==> At(Prune(es, path), q).None?)
    ensures Apart(path, q) ==> At(Prune(es, path), q) == At(es, q)
  {
    UniqueDelPath(es, path);
    if Apart(path, q) {
      DelApart(es, path, q);
    } else {
      DelHere(es, path);
      assert q[..|path|] == path;
      if At(DelPath(es, path), q).Some? {
        AtPrefix(DelPath(es, path), q, |path|);
      }
    }
  }

  // ----- the result is clean -----

  /** Exactly when the report lists nothing, the Kimi default aside. */
  ghost predicate Clean(canonical: Node<Key>, es: Entries) {
    NoneMissing(canonical, es, 56) && NoneLegacy(es, 16) && !HasProfiles(es) && !HasCustomList(es)
  }

  lemma PlainIsWritable(names: Names, p: Path)
    requires Plain(p) && Insensitive(names, p)
    ensures Writable(RulesOf(names), [], p)
  {
    forall k | 0 < k < |p| ensures RulesOf(names).literal([] + p[..k]).None? {
      assert [] + p[..k] == p[..k] && |p[..k]| == k && p[..k][0] == p[0];
    }
  }

  lemma DefaultsWritable(names: Names, i: nat)
    requires Good(names) && i < 56
    ensures Writable(RulesOf(names), [], DefaultPath(i)) && DefaultPath(i) != []
  {
    DefaultPathIsPlain(i);
    PlainIsWritable(names, DefaultPath(i));
  }

  lemma DefaultArrives(names: Names, es: Entries, canonical: Node<Key>, i: nat)
    requires Good(names) && i < 56 && canonical.Mapping? && Shaped(es, DefaultPath(i)) && Lookup(canonical, DefaultPath(i)).Some?
    ensures At(WithDefaults(names, es, canonical), DefaultPath(i)).Some?
  {
    DefaultsWritable(names, i);
    var p := DefaultPath(i);
    DefaultsArrive(RulesOf(names), es, canonical, [], p);
    var added := AddMissing(RulesOf(names), es, canonical, []);
    if HasKimi(names, added) && At(added, [Models, AUXILIARY]).None? {
      SetKeepsSome(added, [Models, AUXILIARY], KIMI_DEFAULT, p);
    }
  }

  lemma DefaultStays(names: Names, es: Entries, i: nat)
    requires Good(names) && UniqueEntries(es) && i < 56 && At(es, DefaultPath(i)).Some?
    ensures At(Migrated(names, es), DefaultPath(i)).Some?
  {
    TablesAreTidy();
    RowsAreRows();
    var p := DefaultPath(i);
    DefaultPathIsPlain(i);
    forall m | m in Migrations() ensures Proper(m) && Apart(m.from, p) && (m.Move? ==> Apart(m.to, p)) {
      PlainKeepsApart(m, p);
    }
    var moved := MigrateAll(es, Migrations());
    AllApart(es, Migrations(), p);
    AllCleared(es, Migrations());
    ProvidersStagesElsewhere(names, moved, p);
    PrunedKeepsSome(MigrateProfiles(names, MigrateCustomList(names, moved)), p);
  }

  lemma PrunedKeepsSome(es: Entries, p: Path)
    requires Plain(p) && At(es, p).Some?
    ensures At(Pruned(es), p).Some?
  {
    PruneKeepsSome(es, [Providers, Custom], p);
    PruneKeepsSome(Prune(es, [Providers, Custom]), [Agent], p);
    PruneKeepsSome(Prune(Prune(es, [Providers, Custom]), [Agent]), [Model], p);
  }

  lemma PrunedKeepsNone(es: Entries, q: Path)
    requires UniqueEntries(es) && |q| >= 2 && q != [Providers, Custom] && (q[0] == Providers ==> q[1] != Custom)
    ensures UniqueEntries(Pruned(es)) && (At(es, q).None? ==> At(Pruned(es), q).None?)
  {
    PartEarly([Providers, Custom], q);
    PruneKeepsNone(es, [Providers, Custom], q);
    var one := Prune(es, [Providers, Custom]);
    assert [Agent] <= q || Apart([Agent], q);
    PruneKeepsNone(one, [Agent], q);
    assert [Model] <= q || Apart([Model], q);
    PruneKeepsNone(Prune(one, [Agent]), [Model], q);
  }

  lemma LegacyStaysGone(names: Names, moved: Entries, m: Migration<Key>)
    requires Good(names) && UniqueEntries(moved) && IsRow(m) && At(moved, m.from).None?
    ensures At(Pruned(MigrateProfiles(names, MigrateCustomList(names, moved))), m.from).None?
  {
    var listed := MigrateCustomList(names, moved);
    var filed := MigrateProfiles(names, listed);
    CustomListDoes(names, moved, m.from[1]);
    ProfilesDo(names, listed, m.from[1]);
    if m.from[0] == Providers {
      assert m.from == [Providers, m.from[1]];
      AtTwo(moved, m.from[1]);
      AtTwo(filed, m.from[1]);
    } else {
      ProvidersStagesElsewhere(names, moved, m.from);
    }
    PrunedKeepsNone(filed, m.from);
  }

  lemma LegacyGone(names: Names, es: Entries, m: Migration<Key>)
    requires Good(names) && UniqueEntries(es) && m in Migrations()
    ensures At(Migrated(names, es), m.from).None?
  {
    TablesAreTidy();
    RowsAreRows();
    AllCleared(es, Migrations());
    LegacyStaysGone(names, MigrateAll(es, Migrations()), m);
  }

  lemma SectionsGone(names: Names, es: Entries)
    requires Good(names) && UniqueEntries(es)
    ensures var es' := Migrated(names, es);
            && (Get(es', ProviderProfiles).Some? ==> !Get(es', ProviderProfiles).value.Mapping?)
            && !(At(es', [Providers, Custom]).Some? && At(es', [Providers, Custom]).value.Sequence?)
  {
    TablesAreTidy();
    AllCleared(es, Migrations());
    var moved := MigrateAll(es, Migrations());
    var listed := MigrateCustomList(names, moved);
    var filed := MigrateProfiles(names, listed);
    CustomListDoes(names, moved, Custom);
    ProfilesDo(names, listed, Custom);
    AtTwo(filed, Custom);
    PrunedSections(filed);
  }

  lemma PrunedSections(es: Entries)
    requires UniqueEntries(es)
    ensures Get(Pruned(es), ProviderProfiles) == Get(es, ProviderProfiles)
    ensures At(Pruned(es), [Providers, Custom]) in {None, At(es, [Providers, Custom])}
  {
    var c, p := [Providers, Custom], [ProviderProfiles];
    PruneKeepsNone(es, c, p);
    DelHere(es, c);
    var one := Prune(es, c);
    PruneKeepsNone(one, [Agent], p);
    PruneKeepsNone(one, [Agent], c);
    var two := Prune(one, [Agent]);
    PruneKeepsNone(two, [Model], p);
    PruneKeepsNone(two, [Model], c);
    AtOne(es, ProviderProfiles);
    AtOne(Pruned(es), ProviderProfiles);
  }

  lemma AtOne(es: Entries, k: Key)
    ensures At(es, [k]) == Get(es, k)
  {
    AtStep(es, [k]);
    assert [k][1..] == [];
    if Get(es, k).Some? && Get(es, k).value.Mapping? {
      assert Get(es, k).value == Mapping(Get(es, k).value.entries);
    }
  }

  lemma DefaultsKeepUnique(names: Names, es: Entries, canonical: Node<Key>)
    requires UniqueEntries(es) && Unique(canonical)
    ensures UniqueEntries(WithDefaults(names, es, canonical))
  {
    DefaultsUnique(RulesOf(names), es, canonical, []);
    KimiUnique();
    UniqueSetPath(AddMissing(RulesOf(names), es, canonical, []), [Models, AUXILIARY], KIMI_DEFAULT);
  }

  lemma KimiUnique()
    ensures Unique(KIMI_DEFAULT)
  {
    UniqueCons(Entry(Model, Scalar("kimi-for-coding")), []);
    UniqueCons(Entry(Provider, Scalar("kimi-coding")), [Entry(Model, Scalar("kimi-for-coding"))]);
  }

  /** Unique keys, and mappings (or nothing) on the way to every reported path. */
  ghost predicate Upgradable(names: Names, es: Entries, canonical: Node<Key>) {
    && Good(names) && UniqueEntries(es) && Unique(canonical) && canonical.Mapping?
    && forall i: nat :: i < 56 ==> Shaped(es, DefaultPath(i))
  }

  /**
   Adding defaults and then migrating leaves nothing to report, for every tree with
   unique keys and mappings along the reported paths.
   */
  lemma UpgradeIsClean(names: Names, es: Entries, canonical: Node<Key>)
    requires Upgradable(names, es, canonical)
    ensures Clean(canonical, Upgraded(names, es, canonical))
  {
    DefaultsKeepUnique(names, es, canonical);
    var added := WithDefaults(names, es, canonical);
    forall i: nat | i < 56 && Lookup(canonical, DefaultPath(i)).Some? ensures At(Migrated(names, added), DefaultPath(i)).Some? {
      DefaultArrives(names, es, canonical, i);
      DefaultStays(names, added, i);
    }
    forall i: nat | i < 16 ensures At(Migrated(names, added), Row(i).from).None? {
      assert Migrations()[i] == Row(i);
      LegacyGone(names, added, Row(i));
    }
    SectionsGone(names, added);
  }

  // ----- user values stay -----

  /** A user value outside the legacy paths, the profiles and the custom provider list. */
  ghost predicate UserValue(es: Entries, q: Path) {
    && q != [] && IsLeaf(At(es, q)) && q[0] != ProviderProfiles && q != [Providers, Custom]
    && forall m :: m in Migrations() ==> !(m.from <= q)
  }

  /** Every new path has mappings, or nothing, on its way. */
  ghost predicate RoomToMove(es: Entries) { forall m :: m in Migrations() && m.Move? ==> Shaped(es, m.to) }

  lemma LeafNotOnTheWay(es: Entries, to: Path, q: Path)
    requires Shaped(es, to) && IsLeaf(At(es, q)) && q <= to
    ensures q == to
  {
    assert to[..|q|] == q;
  }

  lemma SectionIsMapping(es: Entries, i: nat, q: Path)
    requires RoomToMove(es) && i < 16 && Row(i).Move? && |Row(i).to| > 1 && IsLeaf(At(es, q)) && |q| == 1
    ensures q[0] != Row(i).to[0]
  {
    assert Migrations()[i] == Row(i) && Row(i) in Migrations();
    if q[0] == Row(i).to[0] {
      assert q <= Row(i).to;
      LeafNotOnTheWay(es, Row(i).to, q);
    }
  }

  lemma KimiKeepsLeaf(names: Names, es: Entries, q: Path)
    requires q != [] && q != [Models] && IsLeaf(At(es, q))
    ensures At(AddKimi(names, es), q) == At(es, q)
  {
    if At(es, [Models, AUXILIARY]).None? {
      assert q <= [Models, AUXILIARY] ==> q == [Models] || q == [Models, AUXILIARY] by {
        assert q <= [Models, AUXILIARY] ==> q == [Models, AUXILIARY][..|q|];
      }
      SetKeepsLeaf(es, [Models, AUXILIARY], KIMI_DEFAULT, q);
    }
  }

  lemma CustomListKeepsLeaf(names: Names, es: Entries, q: Path)
    requires q != [] && q != [Providers] && q != [Providers, Custom] && IsLeaf(At(es, q))
    ensures At(MigrateCustomList(names, es), q) == At(es, q)
  {
    AtStep(es, q);
    var legacy := Get(ProvidersOf(es), Custom);
    if legacy.Some? && legacy.value.Sequence? {
      if q[0] == Providers && q[1] == Custom {
        assert q[..2] == [Providers, Custom];
        AtTwo(es, Custom);
        AtPrefix(es, q, 2);
      } else if |q| == 1 {
        assert Apart([Providers, Custom], q);
      } else {
        PartEarly([Providers, Custom], q);
      }
      SetApart(es, [Providers, Custom], Mapping(CustomOf(names, legacy.value.items, |legacy.value.items|)), q);
    } else if q[0] != Providers {
      GetSet(es, Providers, Mapping([]), q[0]);
      SameHead(Set(es, Providers, Mapping([])), es, q);
    }
  }

  lemma AddProfileKeepsLeaf(names: Names, providers: Entries, e: Entry<Key>, r: Path)
    requires r != [] && r != [Custom] && IsLeaf(At(providers, r))
    ensures At(AddProfile(names, providers, e), r) == At(providers, r)
  {
    AtStep(providers, r);
    var id := names.profileId(e.key);
    if id.Some? && names.builtin(id.value).Some? {
      GetSet(providers, names.builtin(id.value).value, e.node, r[0]);
      if Get(providers, names.builtin(id.value).value).None? {
        SameHead(Set(providers, names.builtin(id.value).value, e.node), providers, r);
      }
    } else if id.Some? {
      CustomKeepsLeaf(providers, id.value, e.node, r);
    }
  }

  lemma CustomKeepsLeaf(providers: Entries, id: Key, node: Node<Key>, r: Path)
    requires r != [] && r != [Custom] && IsLeaf(At(providers, r))
    ensures var custom := Get(providers, Custom);
            Get(EntriesOf(custom), id).None? ==>
              At(Set(providers, Custom, Mapping(Set(EntriesOf(custom), id, node))), r) == At(providers, r)
  {
    var custom := Get(providers, Custom);
    var now := Set(providers, Custom, Mapping(Set(EntriesOf(custom), id, node)));
    GetSet(providers, Custom, Mapping(Set(EntriesOf(custom), id, node)), r[0]);
    AtStep(providers, r);
    AtStep(now, r);
    if r[0] == Custom && Get(EntriesOf(custom), id).None? {
      assert |r| > 1;
      AtStep(EntriesOf(custom), r[1..]);
      GetSet(EntriesOf(custom), id, node, r[1]);
      SameHead(EntriesOf(custom), Set(EntriesOf(custom), id, node), r[1..]);
    }
  }

  lemma {:induction false} AddProfilesKeepLeaf(names: Names, providers: Entries, profiles: Entries, i: nat, r: Path)
    requires r != [] && r != [Custom] && IsLeaf(At(providers, r)) && i <= |profiles|
    ensures At(AddProfiles(names, providers, profiles, i), r) == At(providers, r)
  {
    if i > 0 {
      AddProfilesKeepLeaf(names, providers, profiles, i - 1, r);
      AddProfileKeepsLeaf(names, AddProfiles(names, providers, profiles, i - 1), profiles[i - 1], r);
    }
  }

  lemma ProfilesKeepLeaf(names: Names, es: Entries, q: Path)
    requires q != [] && q[0] != ProviderProfiles && q != [Providers] && q != [Providers, Custom] && IsLeaf(At(es, q))
    ensures At(MigrateProfiles(names, es), q) == At(es, q)
  {
    var profiles := Get(es, ProviderProfiles);
    if profiles.Some? && profiles.value.Mapping? {
      var ps := profiles.value.entries;
      var providers' := AddProfiles(names, ProvidersOf(es), ps, |ps|);
      var filed := Set(es, Providers, Mapping(providers'));
      GetSet(es, Providers, Mapping(providers'), q[0]);
      GetDelOther(filed, ProviderProfiles, q[0]);
      AtStep(es, q);
      AtStep(Del(filed, ProviderProfiles), q);
      if q[0] == Providers {
        assert q == [Providers] + q[1..];
        AddProfilesKeepLeaf(names, ProvidersOf(es), ps, |ps|, q[1..]);
      }
    }
  }

  lemma PrunedKeepsLeaf(es: Entries, q: Path)
    requires q != [] && IsLeaf(At(es, q))
    ensures At(Pruned(es), q) == At(es, q)
  {
    PruneKeepsLeaf(es, [Providers, Custom], q);
    PruneKeepsLeaf(Prune(es, [Providers, Custom]), [Agent], q);
    PruneKeepsLeaf(Prune(Prune(es, [Providers, Custom]), [Agent]), [Model], q);
  }

  /** Every user value outside the legacy places is where it was, unchanged. */
  lemma UserValuesStay(names: Names, es: Entries, canonical: Node<Key>, q: Path)
    requires RoomToMove(es) && UserValue(es, q)
    ensures At(Upgraded(names, es, canonical), q) == At(es, q)
  {
    TablesAreTidy();
    if |q| == 1 {
      SectionIsMapping(es, 0, q);
      SectionIsMapping(es, 5, q);
    }
    DefaultsKeep(RulesOf(names), es, canonical, [], q);
    var added := AddMissing(RulesOf(names), es, canonical, []);
    KimiKeepsLeaf(names, added, q);
    var ready := AddKimi(names, added);
    forall m | m in Migrations() ensures OutOfTheWay(m, q) {
      if m.Move? && q <= m.to {
        LeafNotOnTheWay(es, m.to, q);
      }
    }
    AllKeepLeaf(ready, Migrations(), q);
    var moved := MigrateAll(ready, Migrations());
    CustomListKeepsLeaf(names, moved, q);
    ProfilesKeepLeaf(names, MigrateCustomList(names, moved), q);
    PrunedKeepsLeaf(MigrateProfiles(names, MigrateCustomList(names, moved)), q);
  }

  /** The pruning leaves alone whatever is outside the three prunable places. */
  lemma PrunedApart(es: Entries, q: Path)
    requires |q| >= 2 && q[0] != Agent && q[0] != Model && (q[0] == Providers ==> q[1] != Custom)
    ensures At(Pruned(es), q) == At(es, q)
  {
    var one := Prune(es, [Providers, Custom]);
    PartEarly([Providers, Custom], q);
    DelApart(es, [Providers, Custom], q);
    assert Apart([Agent], q) && Apart([Model], q);
    DelApart(one, [Agent], q);
    DelApart(Prune(one, [Agent]), [Model], q);
  }

  lemma AddProfileKeepsPresent(names: Names, providers: Entries, e: Entry<Key>, k: Key)
    requires k != Custom && Get(providers, k).Some?
    ensures Get(AddProfile(names, providers, e), k) == Get(providers, k)
  {
    var id := names.profileId(e.key);
    if id.Some? {
      if names.builtin(id.value).Some? {
        GetSet(providers, names.builtin(id.value).value, e.node, k);
      } else {
        GetSet(providers, Custom, Mapping(Set(EntriesOf(Get(providers, Custom)), id.value, e.node)), k);
      }
    }
  }

  lemma {:induction false} AddProfilesKeepPresent(names: Names, providers: Entries, profiles: Entries, i: nat, k: Key)
    requires k != Custom && Get(providers, k).Some? && i <= |profiles|
    ensures Get(AddProfiles(names, providers, profiles, i), k) == Get(providers, k)
  {
    if i > 0 {
      AddProfilesKeepPresent(names, providers, profiles, i - 1, k);
      AddProfileKeepsPresent(names, AddProfiles(names, providers, profiles, i - 1), profiles[i - 1], k);
    }
  }

  /** A provider that has an entry keeps it through the list and profile stages. */
  lemma ProviderStays(names: Names, es: Entries, k: Key)
    requires UniqueEntries(es) && k != Custom && Get(ProvidersOf(es), k).Some?
    ensures Get(ProvidersOf(MigrateProfiles(names, MigrateCustomList(names, es))), k) == Get(ProvidersOf(es), k)
  {
    CustomListDoes(names, es, k);
    var listed := MigrateCustomList(names, es);
    ProvidersAfterProfiles(names, listed);
    var profiles := Get(listed, ProviderProfiles);
    if profiles.Some? && profiles.value.Mapping? {
      AddProfilesKeepPresent(names, ProvidersOf(listed), profiles.value.entries, |profiles.value.entries|, k);
    }
  }

  lemma AtThree(es: Entries, q: Path)
    requires |q| >= 2 && q[0] == Providers
    ensures At(es, q) == var child := Get(ProvidersOf(es), q[1]); if child.None? then None else Lookup(child.value, q[2..])
  {
    AtTwo(es, q[1]);
    assert q == [Providers, q[1]] + q[2..];
    LookupAppend(Mapping(es), [Providers, q[1]], q[2..]);
  }

  lemma MovesDeliver(es: Entries, i: nat)
    requires i < 16 && Row(i).Move?
    ensures Tidy(Migrations()) && IsRow(Row(i))
    ensures At(MigrateAll(es, Migrations()), Row(i).to) == Source(es, Migrations(), Row(i).to)
  {
    TablesAreTidy();
    RowsAreRows();
    assert Migrations()[i] == Row(i) && Row(i) in Migrations();
    var to := Row(i).to;
    forall m | m in Migrations() ensures Apart(m.from, to) && (m.Move? ==> m.to == to || Apart(m.to, to)) {
      NewFromOld(m, Row(i));
      ApartSym(to, m.from);
      if m.Move? && m.to != to {
        SameLengthApart(m.to, to);
      }
    }
    AllDeliver(es, Migrations(), to);
  }

  /** Nothing after the moves takes a delivered value away; outside the providers nothing adds one either. */
  lemma DeliveredStays(names: Names, moved: Entries, to: Path)
    requires Good(names) && UniqueEntries(moved) && |to| == 3 && (to[0] == Models || (to[0] == Providers && to[1] != Custom))
    ensures var after := Pruned(MigrateProfiles(names, MigrateCustomList(names, moved)));
            (At(moved, to).Some? || to[0] == Models ==> At(after, to) == At(moved, to))
  {
    var filed := MigrateProfiles(names, MigrateCustomList(names, moved));
    PrunedApart(filed, to);
    if to[0] == Models {
      ProvidersStagesElsewhere(names, moved, to);
    } else if At(moved, to).Some? {
      AtThree(moved, to);
      AtThree(filed, to);
      ProviderStays(names, moved, to[1]);
    }
  }

  /**
   Legacy values are not lost: in the upgraded document a new path holds what stood
   there, a default included, or else the first legacy source in table order.
   */
  lemma LegacyValuesArrive(names: Names, es: Entries, canonical: Node<Key>, i: nat)
    requires Good(names) && UniqueEntries(es) && Unique(canonical) && i < 16 && Row(i).Move?
    ensures var value := Source(WithDefaults(names, es, canonical), Migrations(), Row(i).to);
            value.Some? || Row(i).to[..1] == [Models] ==> At(Upgraded(names, es, canonical), Row(i).to) == value
  {
    var ready := WithDefaults(names, es, canonical);
    DefaultsKeepUnique(names, es, canonical);
    MovesDeliver(ready, i);
    AllCleared(ready, Migrations());
    DeliveredStays(names, MigrateAll(ready, Migrations()), Row(i).to);
  }

  // ----- the report -----

  datatype Report = Report(missing: seq<Path>, legacy: seq<Path>, deprecated: seq<Path>)

  /** The report names exactly the default paths the document lacks, and the auxiliary model where Kimi asks for it. */
  ghost predicate ListsMissing(names: Names, es: Entries, canonical: Node<Key>, missing: seq<Path>) {
    forall p :: p in missing <==>
      || (exists i: nat :: i < 56 && DefaultPath(i) == p && Lookup(canonical, p).Some? && At(es, p).None?)
      || (p == [Models, AUXILIARY] && KimiMissing(names, es))
  }

  ghost predicate ListsFirst(es: Entries, canonical: Node<Key>, missing: seq<Path>, n: nat)
    requires n <= 56
  {
    forall p :: p in missing <==> exists i: nat :: i < n && DefaultPath(i) == p && Lookup(canonical, p).Some? && At(es, p).None?
  }

  lemma ListsNext(es: Entries, canonical: Node<Key>, missing: seq<Path>, n: nat)
    requires n < 56 && ListsFirst(es, canonical, missing, n)
    ensures var d := DefaultPath(n);
            ListsFirst(es, canonical, if Lookup(canonical, d).Some? && At(es, d).None? then missing + [d] else missing, n + 1)
  {
    var d := DefaultPath(n);
    var missing' := if Lookup(canonical, d).Some? && At(es, d).None? then missing + [d] else missing;
    forall p ensures p in missing' <==> exists i: nat :: i < n + 1 && DefaultPath(i) == p && Lookup(canonical, p).Some? && At(es, p).None? {
      if p in missing {
        var i: nat :| i < n && DefaultPath(i) == p && Lookup(canonical, p).Some? && At(es, p).None?;
        assert i < n + 1;
      }
    }
  }

  /** The report names exactly the old paths the document has, moved ones and dropped ones apart. */
  ghost predicate ListsOld(es: Entries, legacy: seq<Path>, deprecated: seq<Path>, n: nat)
    requires n <= 16
  {
    && (forall p :: p in legacy <==> exists i: nat :: i < n && Row(i).Move? && Row(i).from == p && At(es, p).Some?)
    && (forall p :: p in deprecated <==> exists i: nat :: i < n && Row(i).Drop? && Row(i).from == p && At(es, p).Some?)
  }

  lemma ListsNextOld(es: Entries, legacy: seq<Path>, deprecated: seq<Path>, n: nat)
    requires n < 16 && ListsOld(es, legacy, deprecated, n)
    ensures var m := Row(n); var there := At(es, m.from).Some?;
            ListsOld(es, if there && m.Move? then legacy + [m.from] else legacy, if there && m.Drop? then deprecated + [m.from] else deprecated, n + 1)
  {
    var m := Row(n);
    var there := At(es, m.from).Some?;
    var legacy', deprecated' := if there && m.Move? then legacy + [m.from] else legacy, if there && m.Drop? then deprecated + [m.from] else deprecated;
    forall p ensures p in legacy' <==> exists i: nat :: i < n + 1 && Row(i).Move? && Row(i).from == p && At(es, p).Some? {
      if p in legacy {
        var i: nat :| i < n && Row(i).Move? && Row(i).from == p && At(es, p).Some?;
        assert i < n + 1;
      }
    }
    forall p ensures p in deprecated' <==> exists i: nat :: i < n + 1 && Row(i).Drop? && Row(i).from == p && At(es, p).Some? {
      if p in deprecated {
        var i: nat :| i < n && Row(i).Drop? && Row(i).from == p && At(es, p).Some?;
        assert i < n + 1;
      }
    }
  }

  method CollectMissing(es: Entries, canonical: Node<Key>) returns (missing: seq<Path>)
    ensures (missing == [] <==> NoneMissing(canonical, es, 56)) && ListsFirst(es, canonical, missing, 56)
  {
    missing := [];
    var i: nat := 0;
    while i < 56
      invariant i <= 56 && (missing == [] <==> NoneMissing(canonical, es, i)) && ListsFirst(es, canonical, missing, i)
    {
      ListsNext(es, canonical, missing, i);
      if Lookup(canonical, DefaultPath(i)).Some? && At(es, DefaultPath(i)).None? {
        missing := missing + [DefaultPath(i)];
      }
      i := i + 1;
    }
  }

  method CollectOld(es: Entries) returns (legacy: seq<Path>, deprecated: seq<Path>)
    ensures (legacy == [] && deprecated == [] <==> NoneLegacy(es, 16)) && ListsOld(es, legacy, deprecated, 16)
  {
    legacy, deprecated := [], [];
    var i: nat := 0;
    while i < 16
      invariant i <= 16 && (legacy == [] && deprecated == [] <==> NoneLegacy(es, i)) && ListsOld(es, legacy, deprecated, i)
    {
      ListsNextOld(es, legacy, deprecated, i);
      if At(es, Row(i).from).Some? {
        if Row(i).Drop? {
          deprecated := deprecated + [Row(i).from];
        } else {
          legacy := legacy + [Row(i).from];
        }
      }
      i := i + 1;
    }
  }

  method InspectConfigUpgrade(names: Names, es: Entries, canonical: Node<Key>) returns (r: Report)
    ensures r.missing == [] <==> (!KimiMissing(names, es) && NoneMissing(canonical, es, 56))
    ensures r.legacy == [] && r.deprecated == [] <==> NoneLegacy(es, 16) && !HasProfiles(es) && !HasCustomList(es)
    ensures ListsMissing(names, es, canonical, r.missing)
    ensures exists moved :: ListsOld(es, moved, r.deprecated, 16)
              && r.legacy == moved + (if HasProfiles(es) then [[ProviderProfiles]] else []) + if HasCustomList(es) then [[Providers, Custom]] else []
  {
    var missing := CollectMissing(es, canonical);
    var legacy, deprecated := CollectOld(es);
    if HasProfiles(es) {
      legacy := legacy + [[ProviderProfiles]];
    }
    if HasCustomList(es) {
      legacy := legacy + [[Providers, Custom]];
    }
    if KimiMissing(names, es) {
      missing := missing + [[Models, AUXILIARY]];
    }
    r := Report(missing, legacy, deprecated);
  }

  predicate KimiMissing(names: Names, es: Entries) { HasKimi(names, es) && At(es, [Models, AUXILIARY]).None? }

  predicate HasProfiles(es: Entries) {
    var profiles := Get(es, ProviderProfiles);
    profiles.Some? && profiles.value.Mapping? && profiles.value.entries != []
  }

  predicate HasCustomList(es: Entries) {
    var custom := At(es, [Providers, Custom]);
    custom.Some? && custom.value.Sequence?
  }

  predicate NoneMissing(canonical: Node<Key>, es: Entries, n: nat)
    requires n <= 56
  {
    forall i: nat :: i < n ==> Lookup(canonical, DefaultPath(i)).Some? ==> At(es, DefaultPath(i)).Some?
  }

  predicate NoneLegacy(es: Entries, n: nat)
    requires n <= 16
  {
    forall i: nat :: i < n ==> At(es, Row(i).from).None?
  }
}
