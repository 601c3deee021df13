/** What becomes of each legacy key and of the fixed defaults, by name. */
module ConfigLegacy {
  import opened Basics
  import opened ConfigTree
  import opened ConfigDefaults
  import opened ConfigMigrate
  import opened ConfigTables
  import opened ConfigUpgrade

  /** The value at the first of the paths that is there. */
  function FirstPresent(es: Entries, paths: seq<Path>): Option<Node<Key>> {
    if paths == [] then None else if At(es, paths[0]).Some? then At(es, paths[0]) else FirstPresent(es, paths[1..])
  }

  lemma FirstOfTwo(es: Entries, a: Path, b: Path)
    ensures FirstPresent(es, [a, b]) == if At(es, a).Some? then At(es, a) else At(es, b)
  {
    assert [a, b][1..] == [b] && [b][1..] == [];
    assert FirstPresent(es, [b]) == if At(es, b).Some? then At(es, b) else FirstPresent(es, []);
  }

  lemma FirstOfThree(es: Entries, a: Path, b: Path, c: Path)
    ensures FirstPresent(es, [a, b, c]) == if At(es, a).Some? then At(es, a) else if At(es, b).Some? then At(es, b) else At(es, c)
  {
    assert [a, b, c][1..] == [b, c];
    FirstOfTwo(es, b, c);
  }

  lemma {:induction false} TwoSources(es: Entries, ms: seq<Migration<Key>>, to: Path, i: nat, j: nat)
    requires i < j && forall k :: 0 <= k < |ms| ==> ((ms[k].Move? && ms[k].to == to) <==> (k == i || k == j))
    ensures Source(es, ms, to) ==
              if At(es, to).Some? || |ms| <= i then At(es, to)
              else if At(es, ms[i].from).Some? || |ms| <= j then At(es, ms[i].from)
              else At(es, ms[j].from)
  {
    if ms != [] {
      TwoSources(es, ms[..|ms| - 1], to, i, j);
    }
  }

  /** The rows that lead to a path are told by its three keys. */
  lemma RowLeadsTo(k: nat, a: Key, b: Key, c: Key)
    requires k < 16
    ensures Row(k).Move? && Row(k).to == [a, b, c] <==> Row(k).Move? && |Row(k).to| == 3 && Row(k).to[0] == a && Row(k).to[1] == b && Row(k).to[2] == c
  {
  }

  /** An API key moves below its provider. */
  lemma ApiKeySource(es: Entries, i: nat, provider: Key, legacy: Key)
    requires (i, provider, legacy) in {(0, Openai, OpenaiApiKey), (1, Anthropic, AnthropicApiKey), (2, Google, GeminiApiKey),
                                       (3, Openrouter, OpenrouterApiKey), (4, Minimax, MinimaxApiKey)}
    ensures Source(es, Migrations(), [Providers, provider, ApiKey]) == FirstPresent(es, [[Providers, provider, ApiKey], [Providers, legacy]])
    ensures Row(i).Move? && Row(i).to == [Providers, provider, ApiKey]
  {
    forall k | 0 <= k < 16 ensures (Migrations()[k].Move? && Migrations()[k].to == [Providers, provider, ApiKey]) <==> (k == i || k == 16) {
      RowLeadsTo(k, Providers, provider, ApiKey);
    }
    TwoSources(es, Migrations(), [Providers, provider, ApiKey], i, 16);
    assert Migrations()[i] == Row(i) && Row(i).from == [Providers, legacy];
    FirstOfTwo(es, [Providers, provider, ApiKey], [Providers, legacy]);
  }

  const PRIMARY_PROVIDER: Path := [Models, Primary, Provider]

  /** The primary provider comes from model.provider, else from agent.provider. */
  lemma PrimaryProviderSource(es: Entries)
    ensures Source(es, Migrations(), PRIMARY_PROVIDER) == FirstPresent(es, [PRIMARY_PROVIDER, [Model, Provider], [Agent, Provider]])
  {
    forall k | 0 <= k < 16 ensures (Migrations()[k].Move? && Migrations()[k].to == PRIMARY_PROVIDER) <==> (k == 5 || k == 8) {
      RowLeadsTo(k, Models, Primary, Provider);
    }
    TwoSources(es, Migrations(), PRIMARY_PROVIDER, 5, 8);
    assert Migrations()[5] == Row(5) && Migrations()[8] == Row(8);
    FirstOfThree(es, PRIMARY_PROVIDER, [Model, Provider], [Agent, Provider]);
  }

  /** The primary model comes from model.default, else from agent.model. */
  lemma PrimaryModelSource(es: Entries)
    ensures Source(es, Migrations(), [Models, Primary, Model]) == FirstPresent(es, [[Models, Primary, Model], [Model, Default], [Agent, Model]])
  {
    forall k | 0 <= k < 16 ensures (Migrations()[k].Move? && Migrations()[k].to == [Models, Primary, Model]) <==> (k == 6 || k == 9) {
      RowLeadsTo(k, Models, Primary, Model);
    }
    TwoSources(es, Migrations(), [Models, Primary, Model], 6, 9);
    assert Migrations()[6] == Row(6) && Migrations()[9] == Row(9);
    FirstOfThree(es, [Models, Primary, Model], [Model, Default], [Agent, Model]);
  }

  /** The primary context length comes from model.context_length. */
  lemma PrimaryLengthSource(es: Entries)
    ensures Source(es, Migrations(), [Models, Primary, ContextLength]) == FirstPresent(es, [[Models, Primary, ContextLength], [Model, ContextLength]])
  {
    forall k | 0 <= k < 16 ensures (Migrations()[k].Move? && Migrations()[k].to == [Models, Primary, ContextLength]) <==> (k == 7 || k == 16) {
      RowLeadsTo(k, Models, Primary, ContextLength);
    }
    TwoSources(es, Migrations(), [Models, Primary, ContextLength], 7, 16);
    assert Migrations()[7] == Row(7);
    FirstOfTwo(es, [Models, Primary, ContextLength], [Model, ContextLength]);
  }

  lemma ModelsArrive(names: Names, es: Entries, canonical: Node<Key>, i: nat, to: Path)
    requires Good(names) && UniqueEntries(es) && Unique(canonical) && i < 16 && Row(i).Move? && Row(i).to == to && to[..1] == [Models]
    ensures At(Upgraded(names, es, canonical), to) == Source(WithDefaults(names, es, canonical), Migrations(), to)
  {
    LegacyValuesArrive(names, es, canonical, i);
  }

  lemma PrimaryProviderArrives(names: Names, es: Entries, canonical: Node<Key>)
    requires Good(names) && UniqueEntries(es) && Unique(canonical)
    ensures At(Upgraded(names, es, canonical), PRIMARY_PROVIDER) ==
              FirstPresent(WithDefaults(names, es, canonical), [PRIMARY_PROVIDER, [Model, Provider], [Agent, Provider]])
  {
    PrimaryProviderSource(WithDefaults(names, es, canonical));
    assert Row(5).to == PRIMARY_PROVIDER;
    ModelsArrive(names, es, canonical, 5, PRIMARY_PROVIDER);
  }

  lemma PrimaryNameArrives(names: Names, es: Entries, canonical: Node<Key>)
    requires Good(names) && UniqueEntries(es) && Unique(canonical)
    ensures At(Upgraded(names, es, canonical), [Models, Primary, Model]) ==
              FirstPresent(WithDefaults(names, es, canonical), [[Models, Primary, Model], [Model, Default], [Agent, Model]])
  {
    var to := [Models, Primary, Model];
    assert Row(6).to == to;
    ModelsArrive(names, es, canonical, 6, to);
    PrimaryModelSource(WithDefaults(names, es, canonical));
  }

  lemma PrimaryLengthArrives(names: Names, es: Entries, canonical: Node<Key>)
    requires Good(names) && UniqueEntries(es) && Unique(canonical)
    ensures At(Upgraded(names, es, canonical), [Models, Primary, ContextLength]) ==
              FirstPresent(WithDefaults(names, es, canonical), [[Models, Primary, ContextLength], [Model, ContextLength]])
  {
    var to := [Models, Primary, ContextLength];
    assert Row(7).to == to;
    ModelsArrive(names, es, canonical, 7, to);
    PrimaryLengthSource(WithDefaults(names, es, canonical));
  }

  /** In the upgraded document the primary model's three settings are what the old sections said, unless they had their own. */
  lemma PrimaryModelArrives(names: Names, es: Entries, canonical: Node<Key>)
    requires Good(names) && UniqueEntries(es) && Unique(canonical)
    ensures var ready, now := WithDefaults(names, es, canonical), Upgraded(names, es, canonical);
            && At(now, PRIMARY_PROVIDER) == FirstPresent(ready, [PRIMARY_PROVIDER, [Model, Provider], [Agent, Provider]])
            && At(now, [Models, Primary, Model]) == FirstPresent(ready, [[Models, Primary, Model], [Model, Default], [Agent, Model]])
            && At(now, [Models, Primary, ContextLength]) == FirstPresent(ready, [[Models, Primary, ContextLength], [Model, ContextLength]])
  {
    PrimaryProviderArrives(names, es, canonical);
    PrimaryNameArrives(names, es, canonical);
    PrimaryLengthArrives(names, es, canonical);
  }

  /** An API key under its old name ends up below its own provider, unless that provider had one. */
  lemma ApiKeysArrive(names: Names, es: Entries, canonical: Node<Key>, i: nat, provider: Key, legacy: Key)
    requires Good(names) && UniqueEntries(es) && Unique(canonical)
    requires (i, provider, legacy) in {(0, Openai, OpenaiApiKey), (1, Anthropic, AnthropicApiKey), (2, Google, GeminiApiKey),
                                       (3, Openrouter, OpenrouterApiKey), (4, Minimax, MinimaxApiKey)}
    ensures var value := FirstPresent(WithDefaults(names, es, canonical), [[Providers, provider, ApiKey], [Providers, legacy]]);
            value.Some? ==> At(Upgraded(names, es, canonical), [Providers, provider, ApiKey]) == value
  {
    ApiKeySource(WithDefaults(names, es, canonical), i, provider, legacy);
    LegacyValuesArrive(names, es, canonical, i);
  }

  /** The sixteen legacy paths. */
  const LEGACY: seq<Path> :=
    [[Providers, OpenaiApiKey], [Providers, AnthropicApiKey], [Providers, GeminiApiKey], [Providers, OpenrouterApiKey], [Providers, MinimaxApiKey],
     [Model, Provider], [Model, Default], [Model, ContextLength], [Agent, Provider], [Agent, Model], [Intent, ContinueWindow],
     [Memory, Governance, ModelRole], [Tasks, MaintenanceModelRole], [Tasks, MaintenanceFallbackRoles],
     [Memory, AutoExtractInterval], [Memory, AutoExtractMinChars]]

  /** None of them is left. */
  lemma LegacyPathsGone(names: Names, es: Entries, i: nat)
    requires Good(names) && UniqueEntries(es) && i < |LEGACY|
    ensures At(Migrated(names, es), LEGACY[i]).None?
  {
    assert LEGACY[i] == Row(i).from && Migrations()[i] == Row(i);
    LegacyGone(names, es, Row(i));
  }

  // ----- no empty section is left -----

  lemma PrunedHere(es: Entries, p: Path)
    requires p != [] && UniqueEntries(es)
    ensures At(Prune(es, p), p) != Some(Mapping([])) && UniqueEntries(Prune(es, p))
  {
    DelHere(es, p);
    UniqueDelPath(es, p);
  }

  /** What the moves emptied is removed: no empty agent, model or custom section stays. */
  lemma NoEmptySection(names: Names, es: Entries)
    requires Good(names) && UniqueEntries(es)
    ensures var now := Migrated(names, es);
            At(now, [Agent]) != Some(Mapping([])) && At(now, [Model]) != Some(Mapping([])) && At(now, [Providers, Custom]) != Some(Mapping([]))
  {
    TablesAreTidy();
    AllCleared(es, Migrations());
    var moved := MigrateAll(es, Migrations());
    CustomListDoes(names, moved, Name);
    ProfilesDo(names, MigrateCustomList(names, moved), Name);
    var filed := MigrateProfiles(names, MigrateCustomList(names, moved));
    var c, one := [Providers, Custom], Prune(filed, [Providers, Custom]);
    PrunedHere(filed, c);
    PrunedHere(one, [Agent]);
    PruneKeepsNone(one, [Agent], c);
    var two := Prune(one, [Agent]);
    PrunedHere(two, [Model]);
    PruneKeepsNone(two, [Model], c);
    PruneKeepsNone(two, [Model], [Agent]);
  }

  // ----- the fixed default -----

  /** A missing credentials path is written as the portable text, whatever path the loaded configuration resolved it to. */
  lemma CredentialsFileDefault(names: Names, es: Entries, canonical: Node<Key>)
    requires Upgradable(names, es, canonical) && At(es, [Auth, CredentialsFile]).None? && Lookup(canonical, [Auth, CredentialsFile]).Some?
    ensures At(Upgraded(names, es, canonical), [Auth, CredentialsFile]) == Some(Scalar("~/.selfmind/auth.json"))
  {
    var p := [Auth, CredentialsFile];
    assert DefaultPath(8) == p;
    DefaultsWritable(names, 8);
    assert Shaped(es, DefaultPath(8));
    DefaultsExactly(RulesOf(names), es, canonical, p);
    var added := AddMissing(RulesOf(names), es, canonical, []);
    KimiKeepsLeaf(names, added, p);
    DefaultsKeepUnique(names, es, canonical);
    var ready := WithDefaults(names, es, canonical);
    DefaultPathIsPlain(8);
    PlainThroughMoves(names, ready, p);
    PrunedKeepsLeaf(MigrateProfiles(names, MigrateCustomList(names, MigrateAll(ready, Migrations()))), p);
  }

  lemma PlainThroughMoves(names: Names, es: Entries, p: Path)
    requires Good(names) && UniqueEntries(es) && Plain(p)
    ensures Tidy(Migrations())
    ensures At(MigrateProfiles(names, MigrateCustomList(names, MigrateAll(es, Migrations()))), p) == At(es, p)
  {
    TablesAreTidy();
    RowsAreRows();
    forall m | m in Migrations() ensures Proper(m) && Apart(m.from, p) && (m.Move? ==> Apart(m.to, p)) {
      PlainKeepsApart(m, p);
    }
    AllApart(es, Migrations(), p);
    AllCleared(es, Migrations());
    ProvidersStagesElsewhere(names, MigrateAll(es, Migrations()), p);
  }
}
