/** When the upgraded document asks for the Kimi auxiliary default again. */
module ConfigKimi {
  import opened Basics
  import opened ConfigTree
  import opened ConfigDefaults
  import opened ConfigMigrate
  import opened ConfigTables
  import opened ConfigUpgrade
  import opened ConfigProviders
  import opened ConfigLegacy

  /** Where the defaults step recognises Kimi, the auxiliary model is the document's own or the Kimi one, and nothing is reported. */
  lemma KimiDefaultSettled(names: Names, es: Entries, canonical: Node<Key>)
    requires Good(names) && UniqueEntries(es) && Unique(canonical)
    requires HasKimi(names, AddMissing(RulesOf(names), es, canonical, []))
    ensures !KimiMissing(names, Upgraded(names, es, canonical))
    ensures var own := At(AddMissing(RulesOf(names), es, canonical, []), [Models, AUXILIARY]);
            At(Upgraded(names, es, canonical), [Models, AUXILIARY]) ==
              if own.Some? then own else Some(Mapping([Entry(Provider, Scalar("kimi-coding")), Entry(Model, Scalar("kimi-for-coding"))]))
  {
    var added, ready := AddMissing(RulesOf(names), es, canonical, []), WithDefaults(names, es, canonical);
    SetHere(added, [Models, AUXILIARY], KIMI_DEFAULT);
    DefaultsKeepUnique(names, es, canonical);
    PlainThroughMoves(names, ready, [Models, AUXILIARY]);
    PrunedApart(MigrateProfiles(names, MigrateCustomList(names, MigrateAll(ready, Migrations()))), [Models, AUXILIARY]);
  }

  /** Some profile of the document resolves to the built-in provider. */
  predicate HasProfileFor(names: Names, es: Entries, k: Key) {
    var profiles := Get(es, ProviderProfiles);
    profiles.Some? && profiles.value.Mapping? && exists j :: 0 <= j < |profiles.value.entries| && FiledAs(names, profiles.value.entries[j].key, k)
  }

  /** An unnamed provider exists in the migrated document exactly when it did or some profile resolves to it. */
  lemma ProviderAfterMigration(names: Names, es: Entries, name: string)
    requires Good(names) && UniqueEntries(es)
    ensures At(Migrated(names, es), [Providers, Other(name)]).Some? <==>
              At(es, [Providers, Other(name)]).Some? || HasProfileFor(names, es, Other(name))
  {
    BuiltinAfterMigration(names, es, name);
    FirstProfileExists(ProfilesOf(es), FilesAs(names, Other(name)));
  }

  lemma ProfilesUnreachable(names: Names, es: Entries)
    requires Good(names) && UniqueEntries(es)
    ensures At(Migrated(names, es), [ProviderProfiles, KIMI]).None? && At(Migrated(names, es), [Model, Provider]).None?
  {
    SectionsGone(names, es);
    AtStep(Migrated(names, es), [ProviderProfiles, KIMI]);
    assert Migrations()[5] == Row(5) && Row(5).from == [Model, Provider];
    LegacyGone(names, es, Row(5));
  }

  /** Kimi in the migrated document, in terms of the document before the moves. */
  lemma KimiAfterMigration(names: Names, es: Entries)
    requires Good(names) && UniqueEntries(es)
    ensures HasKimi(names, Migrated(names, es)) <==>
              || IsKimiText(names, Source(es, Migrations(), PRIMARY_PROVIDER))
              || At(es, [Providers, KIMI]).Some? || HasProfileFor(names, es, KIMI)
  {
    MovesDeliver(es, 8);
    AllCleared(es, Migrations());
    assert Row(8).to == PRIMARY_PROVIDER;
    DeliveredStays(names, MigrateAll(es, Migrations()), PRIMARY_PROVIDER);
    ProviderAfterMigration(names, es, "kimi-coding");
    ProfilesUnreachable(names, es);
  }

  lemma AuxiliaryAfterMigration(names: Names, es: Entries)
    requires Good(names) && UniqueEntries(es)
    ensures At(Migrated(names, es), [Models, AUXILIARY]) == At(es, [Models, AUXILIARY])
  {
    PlainThroughMoves(names, es, [Models, AUXILIARY]);
    PrunedApart(MigrateProfiles(names, MigrateCustomList(names, MigrateAll(es, Migrations()))), [Models, AUXILIARY]);
  }

  /** Kimi hides where the defaults step does not look: under agent.provider alone, or under a profile key that only resolves to it. */
  predicate HiddenKimi(names: Names, es: Entries) {
    || (At(es, PRIMARY_PROVIDER).None? && At(es, [Model, Provider]).None? && IsKimiText(names, At(es, [Agent, Provider])))
    || HasProfileFor(names, es, KIMI)
  }

  /** Exactly when the default is asked for again, in terms of the document with defaults. */
  lemma KimiMissedAfterDefaults(names: Names, es: Entries, canonical: Node<Key>)
    requires Good(names) && UniqueEntries(es) && Unique(canonical)
    ensures var added := AddMissing(RulesOf(names), es, canonical, []);
            KimiMissing(names, Upgraded(names, es, canonical)) <==>
              At(added, [Models, AUXILIARY]).None? && !HasKimi(names, added) && HiddenKimi(names, added)
  {
    var added, ready := AddMissing(RulesOf(names), es, canonical, []), WithDefaults(names, es, canonical);
    DefaultsKeepUnique(names, es, canonical);
    if HasKimi(names, added) {
      KimiDefaultSettled(names, es, canonical);
    } else {
      assert ready == added;
      AuxiliaryAfterMigration(names, ready);
      KimiAfterMigration(names, ready);
      PrimaryProviderSource(ready);
      FirstOfThree(ready, PRIMARY_PROVIDER, [Model, Provider], [Agent, Provider]);
    }
  }

  // ----- the canonical tree is the loaded document -----

  /** What loading does to texts and names: blank texts, environment references, profile keys in lower case. */
  datatype Loader = Loader(blank: string -> bool, expand: string -> string, lower: Key -> Key)

  /** A Kimi name is no reference and not blank, and a profile's id does not depend on its case. */
  ghost predicate GoodLoader(names: Names, loader: Loader) {
    && (forall text :: names.isKimi(text) ==> !loader.blank(text) && loader.expand(text) == text)
    && (forall k :: names.profileId(loader.lower(k)) == names.profileId(k))
  }

  /** Absent, or a blank text once loaded. */
  predicate Unset(loader: Loader, n: Option<Node<Key>>) { n.None? || (n.value.Scalar? && loader.blank(loader.expand(n.value.text))) }

  /** A profile that sets something. */
  predicate SetsSomething(loader: Loader, n: Option<Node<Key>>) {
    n.Some? && n.value.Mapping? && exists j :: 0 <= j < |n.value.entries| && !Unset(loader, Some(n.value.entries[j].node)) && n.value.entries[j].node.Scalar?
  }

  /**
   The canonical tree is the document as loaded and written back: agent.provider is not
   written, model.provider takes its text when it has none of its own, and profiles
   stand under their lower-case keys.
   */
  ghost predicate Loaded(names: Names, loader: Loader, es: Entries, canonical: Node<Key>) {
    && Unique(canonical)
    && Lookup(canonical, [Agent, Provider]).None?
    && (var agent := At(es, [Agent, Provider]);
        agent.Some? && agent.value.Scalar? && !Unset(loader, agent) && Unset(loader, At(es, [Model, Provider])) ==>
          Lookup(canonical, [Model, Provider]) == Some(Scalar(loader.expand(agent.value.text))))
    && (forall k :: Lookup(canonical, [ProviderProfiles, k]).Some? ==> exists key :: At(es, [ProviderProfiles, key]).Some? && loader.lower(key) == k)
    && (forall key :: SetsSomething(loader, At(es, [ProviderProfiles, key])) && names.profileId(key).Some? ==>
          Lookup(canonical, [ProviderProfiles, loader.lower(key)]).Some?)
  }

  // ----- the document with defaults, in terms of document and canonical tree -----

  lemma KimiPath(names: Names, p: Path)
    requires Good(names) && p != [] && forall k :: k in p ==> k in KIMI_KEYS
    ensures Writable(RulesOf(names), [], p) && RulesOf(names).literal(p).None?
  {
    assert p[0] in KIMI_KEYS && p[0] != Auth;
    forall k | 0 < k < |p| ensures RulesOf(names).literal([] + p[..k]).None? {
      assert ([] + p[..k])[0] == p[0];
    }
  }

  ghost function WithDefault(names: Names, es: Entries, canonical: Node<Key>, p: Path): Option<Node<Key>> {
    Merged(RulesOf(names), es, canonical, p)
  }

  lemma DefaultAt(names: Names, es: Entries, canonical: Node<Key>, p: Path)
    requires Good(names) && Unique(canonical) && p != [] && forall k :: k in p ==> k in KIMI_KEYS
    ensures Alike(WithDefault(names, es, canonical, p), At(AddMissing(RulesOf(names), es, canonical, []), p))
  {
    KimiPath(names, p);
    DefaultsExactly(RulesOf(names), es, canonical, p);
  }

  /** Kimi stands, in the document or among its defaults, where the defaults step looks. */
  ghost predicate ShowsKimi(names: Names, es: Entries, canonical: Node<Key>) {
    || IsKimiText(names, WithDefault(names, es, canonical, PRIMARY_PROVIDER)) || IsKimiText(names, WithDefault(names, es, canonical, [Model, Provider]))
    || WithDefault(names, es, canonical, [Providers, KIMI]).Some? || WithDefault(names, es, canonical, [ProviderProfiles, KIMI]).Some?
  }

  lemma ShownAfterDefaults(names: Names, es: Entries, canonical: Node<Key>)
    requires Good(names) && Unique(canonical)
    ensures HasKimi(names, AddMissing(RulesOf(names), es, canonical, [])) <==> ShowsKimi(names, es, canonical)
  {
    DefaultAt(names, es, canonical, PRIMARY_PROVIDER);
    DefaultAt(names, es, canonical, [Model, Provider]);
    DefaultAt(names, es, canonical, [Providers, KIMI]);
    DefaultAt(names, es, canonical, [ProviderProfiles, KIMI]);
  }

  /** The document's model section is there and no mapping, so no default goes below it. */
  predicate ModelBlocks(es: Entries) { Get(es, Model).Some? && !Get(es, Model).value.Mapping? }

  lemma ShapedTwo(es: Entries, a: Key, b: Key)
    ensures Shaped(es, [a, b]) <==> Get(es, a).None? || Get(es, a).value.Mapping?
  {
    AtOne(es, a);
    assert [a, b][..0] == [] && [a, b][..1] == [a];
    forall k | 0 <= k < 2 ensures k == 0 || [a, b][..k] == [a] {
    }
  }

  lemma AgentAfterDefaults(names: Names, es: Entries, canonical: Node<Key>)
    requires Unique(canonical) && Lookup(canonical, [Agent, Provider]).None?
    ensures IsKimiText(names, At(AddMissing(RulesOf(names), es, canonical, []), [Agent, Provider])) <==> IsKimiText(names, At(es, [Agent, Provider]))
  {
    var p, added := [Agent, Provider], AddMissing(RulesOf(names), es, canonical, []);
    DefaultsKeep(RulesOf(names), es, canonical, [], p);
    if At(es, p).None? && At(added, p).Some? {
      NewFromCanonical(RulesOf(names), es, canonical, [], p);
    }
  }

  /** With Kimi under agent.provider, model.provider stays missing exactly where the model section blocks it. */
  lemma ModelAfterDefaults(names: Names, loader: Loader, es: Entries, canonical: Node<Key>)
    requires Good(names) && GoodLoader(names, loader) && Loaded(names, loader, es, canonical) && IsKimiText(names, At(es, [Agent, Provider]))
    ensures At(AddMissing(RulesOf(names), es, canonical, []), [Model, Provider]).None? <==> ModelBlocks(es)
  {
    DefaultAt(names, es, canonical, [Model, Provider]);
    KimiPath(names, [Model, Provider]);
    ShapedTwo(es, Model, Provider);
    AtStep(es, [Model, Provider]);
  }

  // ----- profiles by key -----

  lemma {:induction false} GetFrom(es: Entries, key: Key) returns (j: nat)
    requires Get(es, key).Some?
    ensures j < |es| && es[j].key == key
  {
    if es[0].key == key {
      j := 0;
    } else {
      j := GetFrom(es[1..], key);
      j := j + 1;
    }
  }

  lemma AtProfile(es: Entries, key: Key)
    ensures At(es, [ProviderProfiles, key]) == Get(EntriesOf(Get(es, ProviderProfiles)), key)
  {
    AtStep(es, [ProviderProfiles, key]);
    assert [ProviderProfiles, key][1..] == [key];
    if Get(es, ProviderProfiles).Some? && Get(es, ProviderProfiles).value.Mapping? {
      AtOne(Get(es, ProviderProfiles).value.entries, key);
    }
  }

  lemma ProfilesByKey(names: Names, es: Entries, k: Key)
    ensures HasProfileFor(names, es, k) <==> exists key :: At(es, [ProviderProfiles, key]).Some? && FiledAs(names, key, k)
  {
    var profiles := EntriesOf(Get(es, ProviderProfiles));
    if HasProfileFor(names, es, k) {
      var j :| 0 <= j < |profiles| && FiledAs(names, profiles[j].key, k);
      GetAt(profiles, j);
      AtProfile(es, profiles[j].key);
    }
    if key :| At(es, [ProviderProfiles, key]).Some? && FiledAs(names, key, k) {
      AtProfile(es, key);
      var j := GetFrom(profiles, key);
      assert FiledAs(names, profiles[j].key, k);
    }
  }

  /** A profile of the document with defaults has the id of one of the document's own. */
  lemma ProfileOwner(names: Names, loader: Loader, es: Entries, canonical: Node<Key>, key: Key) returns (own: Key)
    requires GoodLoader(names, loader) && Loaded(names, loader, es, canonical)
    requires At(AddMissing(RulesOf(names), es, canonical, []), [ProviderProfiles, key]).Some?
    ensures At(es, [ProviderProfiles, own]).Some? && names.profileId(own) == names.profileId(key)
  {
    own := key;
    if At(es, [ProviderProfiles, key]).None? {
      NewFromCanonical(RulesOf(names), es, canonical, [], [ProviderProfiles, key]);
      own :| At(es, [ProviderProfiles, own]).Some? && loader.lower(own) == key;
    }
  }

  /** The defaults bring no profile for a provider the document has none for. */
  lemma ProfilesAfterDefaults(names: Names, loader: Loader, es: Entries, canonical: Node<Key>, k: Key)
    requires GoodLoader(names, loader) && Loaded(names, loader, es, canonical)
    ensures HasProfileFor(names, AddMissing(RulesOf(names), es, canonical, []), k) <==> HasProfileFor(names, es, k)
  {
    var added := AddMissing(RulesOf(names), es, canonical, []);
    ProfilesByKey(names, es, k);
    ProfilesByKey(names, added, k);
    if key :| At(es, [ProviderProfiles, key]).Some? && FiledAs(names, key, k) {
      DefaultsKeep(RulesOf(names), es, canonical, [], [ProviderProfiles, key]);
    }
    if key :| At(added, [ProviderProfiles, key]).Some? && FiledAs(names, key, k) {
      var own := ProfileOwner(names, loader, es, canonical, key);
      assert FiledAs(names, own, k);
    }
  }

  // ----- exactly -----

  /** Kimi hides where the defaults step does not look: under agent.provider beside a blocking model section, or under a profile key that only resolves to it. */
  ghost predicate Hides(names: Names, es: Entries, canonical: Node<Key>) {
    || HasProfileFor(names, es, KIMI)
    || (IsKimiText(names, At(es, [Agent, Provider])) && WithDefault(names, es, canonical, PRIMARY_PROVIDER).None? && ModelBlocks(es))
  }

  /**
   The upgraded document asks for the Kimi auxiliary default again exactly when neither
   the document nor its defaults have an auxiliary model, neither shows Kimi where the
   defaults step looks, and the document hides it where the moves or the profile stage
   then bring it to light.
   */
  lemma KimiMissedExactly(names: Names, loader: Loader, es: Entries, canonical: Node<Key>)
    requires Good(names) && GoodLoader(names, loader) && UniqueEntries(es) && Loaded(names, loader, es, canonical)
    ensures KimiMissing(names, Upgraded(names, es, canonical)) <==>
              && WithDefault(names, es, canonical, [Models, AUXILIARY]).None?
              && !ShowsKimi(names, es, canonical) && Hides(names, es, canonical)
  {
    KimiMissedAfterDefaults(names, es, canonical);
    ShownAfterDefaults(names, es, canonical);
    DefaultAt(names, es, canonical, [Models, AUXILIARY]);
    DefaultAt(names, es, canonical, PRIMARY_PROVIDER);
    AgentAfterDefaults(names, es, canonical);
    if IsKimiText(names, At(es, [Agent, Provider])) {
      ModelAfterDefaults(names, loader, es, canonical);
    }
    ProfilesAfterDefaults(names, loader, es, canonical, KIMI);
  }

  /** A profile that sets something under any spelling of the provider's own name is seen. */
  lemma SpelledKimiIsSeen(names: Names, loader: Loader, es: Entries, canonical: Node<Key>, key: Key)
    requires Good(names) && GoodLoader(names, loader) && UniqueEntries(es) && Loaded(names, loader, es, canonical)
    requires SetsSomething(loader, At(es, [ProviderProfiles, key])) && names.profileId(key).Some? && loader.lower(key) == KIMI
    ensures !KimiMissing(names, Upgraded(names, es, canonical))
  {
    AtProfile(es, key);
    ShapedTwo(es, ProviderProfiles, KIMI);
    KimiPath(names, [ProviderProfiles, KIMI]);
    assert WithDefault(names, es, canonical, [ProviderProfiles, KIMI]).Some?;
    ShownAfterDefaults(names, es, canonical);
    KimiDefaultSettled(names, es, canonical);
  }

  // Both ways to hide Kimi occur.

  /** Document and canonical tree have no auxiliary model and no Kimi where the defaults step looks, save below a blocking model section. */
  lemma NeitherShows(names: Names, es: Entries, canonical: Node<Key>)
    requires Good(names) && At(es, [Models, AUXILIARY]).None? && At(es, PRIMARY_PROVIDER).None? && At(es, [Model, Provider]).None?
    requires At(es, [Providers, KIMI]).None? && At(es, [ProviderProfiles, KIMI]).None?
    requires Lookup(canonical, [Models, AUXILIARY]).None? && !IsKimiText(names, Lookup(canonical, PRIMARY_PROVIDER))
    requires Lookup(canonical, [Providers, KIMI]).None? && Lookup(canonical, [ProviderProfiles, KIMI]).None?
    requires ModelBlocks(es) || !IsKimiText(names, Lookup(canonical, [Model, Provider]))
    ensures WithDefault(names, es, canonical, [Models, AUXILIARY]).None? && !ShowsKimi(names, es, canonical)
  {
    KimiPath(names, PRIMARY_PROVIDER);
    KimiPath(names, [Model, Provider]);
    ShapedTwo(es, Model, Provider);
  }

  /** A model section without a value, and a provider under agent. */
  function EmptyModel(text: string): Entries { [Entry(Model, Scalar(""))] + OneSection(Agent, Provider, Scalar(text)) }

  lemma EmptyModelGet(text: string, k: Key)
    ensures Get(EmptyModel(text), k) == if k == Model then Some(Scalar("")) else Get(OneSection(Agent, Provider, Scalar(text)), k)
  {
    assert EmptyModel(text)[1..] == OneSection(Agent, Provider, Scalar(text));
  }

  lemma EmptyModelAt(text: string, a: Key, b: Key)
    ensures At(EmptyModel(text), [a, b]) == if a == Agent && b == Provider then Some(Scalar(text)) else None
  {
    var es := OneSection(Agent, Provider, Scalar(text));
    EmptyModelGet(text, a);
    OneSectionAt(Agent, Provider, Scalar(text), a, b);
    AtStep(EmptyModel(text), [a, b]);
    AtStep(es, [a, b]);
  }

  lemma EmptyModelUnique(text: string)
    ensures UniqueEntries(EmptyModel(text))
  {
    OneSectionUnique(Agent, Provider, Scalar(text));
    UniqueCons(Entry(Model, Scalar("")), OneSection(Agent, Provider, Scalar(text)));
  }

  /** A document of one section has no primary provider but under models. */
  lemma NoPrimaryIn(section: Key, key: Key, node: Node<Key>)
    requires section != Models
    ensures Get(OneSection(section, key, node), Models).None? && At(OneSection(section, key, node), PRIMARY_PROVIDER).None?
  {
    AtStep(OneSection(section, key, node), PRIMARY_PROVIDER);
  }

  lemma EmptyModelIs(text: string)
    ensures var es := EmptyModel(text);
            && ModelBlocks(es) && UniqueEntries(es) && At(es, [Agent, Provider]) == Some(Scalar(text))
            && At(es, [Models, AUXILIARY]).None? && At(es, PRIMARY_PROVIDER).None? && At(es, [Model, Provider]).None?
            && At(es, [Providers, KIMI]).None? && forall key :: At(es, [ProviderProfiles, key]).None?
  {
    EmptyModelUnique(text);
    EmptyModelGet(text, Model);
    EmptyModelGet(text, Models);
    NoPrimaryIn(Agent, Provider, Scalar(text));
    AtStep(EmptyModel(text), PRIMARY_PROVIDER);
    EmptyModelAt(text, Agent, Provider);
    EmptyModelAt(text, Model, Provider);
    EmptyModelAt(text, Models, AUXILIARY);
    EmptyModelAt(text, Providers, KIMI);
    forall key ensures At(EmptyModel(text), [ProviderProfiles, key]).None? {
      EmptyModelAt(text, ProviderProfiles, key);
    }
  }

  lemma AgentHides(names: Names, loader: Loader, es: Entries, canonical: Node<Key>)
    requires Good(names) && GoodLoader(names, loader) && UniqueEntries(es) && Loaded(names, loader, es, canonical)
    requires ModelBlocks(es) && IsKimiText(names, At(es, [Agent, Provider]))
    requires At(es, [Models, AUXILIARY]).None? && At(es, PRIMARY_PROVIDER).None? && At(es, [Model, Provider]).None?
    requires At(es, [Providers, KIMI]).None? && forall key :: At(es, [ProviderProfiles, key]).None?
    requires Lookup(canonical, [Models, AUXILIARY]).None? && Lookup(canonical, PRIMARY_PROVIDER).None? && Lookup(canonical, [Providers, KIMI]).None?
    ensures KimiMissing(names, Upgraded(names, es, canonical))
  {
    NeitherShows(names, es, canonical);
    KimiMissedExactly(names, loader, es, canonical);
  }

  /**
   Kimi under agent.provider beside an empty model section is reported again after the
   upgrade, whatever else the loaded configuration holds besides a Kimi provider, a
   primary provider and an auxiliary model.
   */
  lemma AgentKimiIsMissed(names: Names, loader: Loader, text: string, canonical: Node<Key>)
    requires Good(names) && GoodLoader(names, loader) && names.isKimi(text) && Loaded(names, loader, EmptyModel(text), canonical)
    requires Lookup(canonical, [Models, AUXILIARY]).None? && Lookup(canonical, PRIMARY_PROVIDER).None? && Lookup(canonical, [Providers, KIMI]).None?
    ensures KimiMissing(names, Upgraded(names, EmptyModel(text), canonical))
  {
    EmptyModelIs(text);
    AgentHides(names, loader, EmptyModel(text), canonical);
  }

  /** Such a configuration exists: the provider now stands under model. */
  lemma EmptyModelLoads(names: Names, loader: Loader, text: string)
    requires GoodLoader(names, loader) && names.isKimi(text)
    ensures var canonical := Mapping(OneSection(Model, Provider, Scalar(text)));
            && Loaded(names, loader, EmptyModel(text), canonical) && Lookup(canonical, [Models, AUXILIARY]).None?
            && Lookup(canonical, PRIMARY_PROVIDER).None? && Lookup(canonical, [Providers, KIMI]).None?
  {
    EmptyModelIs(text);
    OneSectionUnique(Model, Provider, Scalar(text));
    OneSectionAt(Model, Provider, Scalar(text), Agent, Provider);
    OneSectionAt(Model, Provider, Scalar(text), Model, Provider);
    OneSectionAt(Model, Provider, Scalar(text), Models, AUXILIARY);
    OneSectionAt(Model, Provider, Scalar(text), Providers, KIMI);
    NoPrimaryIn(Model, Provider, Scalar(text));
    forall key ensures At(OneSection(Model, Provider, Scalar(text)), [ProviderProfiles, key]).None? {
      OneSectionAt(Model, Provider, Scalar(text), ProviderProfiles, key);
    }
  }

  /** A document of one profile. */
  function OneProfile(alias: Key, node: Node<Key>): Entries { OneSection(ProviderProfiles, alias, node) }

  lemma OneProfileIs(alias: Key, node: Node<Key>)
    requires Unique(node)
    ensures var es := OneProfile(alias, node);
            && UniqueEntries(es) && At(es, [Agent, Provider]).None?
            && At(es, [Models, AUXILIARY]).None? && At(es, PRIMARY_PROVIDER).None? && At(es, [Model, Provider]).None?
            && At(es, [Providers, KIMI]).None? && forall key :: At(es, [ProviderProfiles, key]) == if key == alias then Some(node) else None
  {
    OneSectionUnique(ProviderProfiles, alias, node);
    OneSectionAt(ProviderProfiles, alias, node, Agent, Provider);
    OneSectionAt(ProviderProfiles, alias, node, Model, Provider);
    OneSectionAt(ProviderProfiles, alias, node, Models, AUXILIARY);
    OneSectionAt(ProviderProfiles, alias, node, Providers, KIMI);
    NoPrimaryIn(ProviderProfiles, alias, node);
    forall key ensures At(OneProfile(alias, node), [ProviderProfiles, key]) == if key == alias then Some(node) else None {
      OneSectionAt(ProviderProfiles, alias, node, ProviderProfiles, key);
    }
  }

  lemma ProfileHides(names: Names, loader: Loader, es: Entries, canonical: Node<Key>, alias: Key)
    requires Good(names) && GoodLoader(names, loader) && UniqueEntries(es) && Loaded(names, loader, es, canonical)
    requires FiledAs(names, alias, KIMI) && alias != KIMI && loader.lower(alias) != KIMI
    requires forall key :: At(es, [ProviderProfiles, key]).Some? <==> key == alias
    requires At(es, [Models, AUXILIARY]).None? && At(es, PRIMARY_PROVIDER).None? && At(es, [Model, Provider]).None? && At(es, [Providers, KIMI]).None?
    requires Lookup(canonical, [Models, AUXILIARY]).None? && Lookup(canonical, [Providers, KIMI]).None?
    requires !IsKimiText(names, Lookup(canonical, PRIMARY_PROVIDER)) && !IsKimiText(names, Lookup(canonical, [Model, Provider]))
    ensures KimiMissing(names, Upgraded(names, es, canonical))
  {
    NeitherShows(names, es, canonical);
    ProfilesByKey(names, es, KIMI);
    KimiMissedExactly(names, loader, es, canonical);
  }

  /**
   So is a document whose only profile sits under another name of the provider, with every
   loaded configuration that has no auxiliary model and names Kimi nowhere else.
   */
  lemma AliasedKimiIsMissed(names: Names, loader: Loader, alias: Key, node: Node<Key>, canonical: Node<Key>)
    requires Good(names) && GoodLoader(names, loader) && Unique(node)
    requires FiledAs(names, alias, KIMI) && alias != KIMI && loader.lower(alias) != KIMI
    requires Loaded(names, loader, OneProfile(alias, node), canonical)
    requires Lookup(canonical, [Models, AUXILIARY]).None? && Lookup(canonical, [Providers, KIMI]).None?
    requires !IsKimiText(names, Lookup(canonical, PRIMARY_PROVIDER)) && !IsKimiText(names, Lookup(canonical, [Model, Provider]))
    ensures KimiMissing(names, Upgraded(names, OneProfile(alias, node), canonical))
  {
    OneProfileIs(alias, node);
    ProfileHides(names, loader, OneProfile(alias, node), canonical, alias);
  }

  /** Such a configuration exists: the profile stands under its lower-case key. */
  lemma AliasLoads(names: Names, loader: Loader, alias: Key, node: Node<Key>)
    requires Unique(node)
    ensures var canonical := Mapping(OneProfile(loader.lower(alias), node));
            && Loaded(names, loader, OneProfile(alias, node), canonical)
            && Lookup(canonical, [Models, AUXILIARY]).None? && Lookup(canonical, [Providers, KIMI]).None?
            && Lookup(canonical, PRIMARY_PROVIDER).None? && Lookup(canonical, [Model, Provider]).None?
  {
    OneProfileIs(alias, node);
    OneProfileIs(loader.lower(alias), node);
  }
}
