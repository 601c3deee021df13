/** The configuration upgrade's tables: legacy paths and reported defaults, and how they keep apart. */
module ConfigTables {
  import opened ConfigTree
  import opened ConfigMigrate

  /** The keys the tables name; every other key is Other. */
  datatype Key =
    | Providers | OpenaiApiKey | AnthropicApiKey | GeminiApiKey | OpenrouterApiKey | MinimaxApiKey
    | Openai | Anthropic | Google | Openrouter | Minimax | ApiKey
    | Model | Provider | Default | ContextLength | Models | Primary | Agent
    | Intent | ContinueWindow | Memory | Governance | ModelRole
    | Tasks | MaintenanceModelRole | MaintenanceFallbackRoles | AutoExtractInterval | AutoExtractMinChars
    | ProviderProfiles | Custom | Name | Auth | CredentialsFile | Other(name: string)

  type Entries = seq<Entry<Key>>
  type Path = seq<Key>

  // ----- the tables -----

  /** The migration table, row by row. */
  function Row(i: nat): Migration<Key>
    requires i < 16
  {
    match i
    case 0 => Move([Providers, OpenaiApiKey], [Providers, Openai, ApiKey])
    case 1 => Move([Providers, AnthropicApiKey], [Providers, Anthropic, ApiKey])
    case 2 => Move([Providers, GeminiApiKey], [Providers, Google, ApiKey])
    case 3 => Move([Providers, OpenrouterApiKey], [Providers, Openrouter, ApiKey])
    case 4 => Move([Providers, MinimaxApiKey], [Providers, Minimax, ApiKey])
    case 5 => Move([Model, Provider], [Models, Primary, Provider])
    case 6 => Move([Model, Default], [Models, Primary, Model])
    case 7 => Move([Model, ContextLength], [Models, Primary, ContextLength])
    case 8 => Move([Agent, Provider], [Models, Primary, Provider])
    case 9 => Move([Agent, Model], [Models, Primary, Model])
    case 10 => Drop([Intent, ContinueWindow])
    case 11 => Drop([Memory, Governance, ModelRole])
    case 12 => Drop([Tasks, MaintenanceModelRole])
    case 13 => Drop([Tasks, MaintenanceFallbackRoles])
    case 14 => Drop([Memory, AutoExtractInterval])
    case _ => Drop([Memory, AutoExtractMinChars])
  }

  function Migrations(): seq<Migration<Key>> { seq(16, i requires 0 <= i < 16 => Row(i)) }

  predicate IsLegacyKey(k: Key) { k in {OpenaiApiKey, AnthropicApiKey, GeminiApiKey, OpenrouterApiKey, MinimaxApiKey} }

  /** The shape of every row: an old path starts in a legacy section, a new one elsewhere. */
  predicate IsRow(m: Migration<Key>) {
    && |m.from| >= 2 && !m.from[1].Other? && (m.from[1] == Governance ==> |m.from| == 3 && !m.from[2].Other?)
    && (if m.from[0] == Providers then IsLegacyKey(m.from[1]) && |m.from| == 2 else m.from[0] in {Model, Agent, Intent, Memory, Tasks})
    && (m.Move? ==> |m.to| == 3 && !m.to[1].Other? && (if m.to[0] == Models then m.to[1] == Primary
                                    else m.to[0] == Providers && !IsLegacyKey(m.to[1]) && m.to[1] != Custom))
  }

  lemma RowsAreRows()
    ensures forall m :: m in Migrations() ==> IsRow(m)
  {
    forall i: nat | i < 16 ensures IsRow(Row(i)) {
    }
  }

  /** Rows are told apart by the first two keys of the old path. */
  function RowNumber(p: Path): int
    requires |p| >= 2
  {
    var k := p[1];
    if p[0] == Providers then
      if k == OpenaiApiKey then 0 else if k == AnthropicApiKey then 1 else if k == GeminiApiKey then 2
      else if k == OpenrouterApiKey then 3 else if k == MinimaxApiKey then 4 else -1
    else if p[0] == Model then if k == Provider then 5 else if k == Default then 6 else if k == ContextLength then 7 else -1
    else if p[0] == Agent then if k == Provider then 8 else if k == Model then 9 else -1
    else if p[0] == Intent then 10
    else if p[0] == Memory then if k == Governance then 11 else if k == AutoExtractInterval then 14 else if k == AutoExtractMinChars then 15 else -1
    else if p[0] == Tasks then if k == MaintenanceModelRole then 12 else if k == MaintenanceFallbackRoles then 13 else -1
    else -1
  }

  predicate Numbered(ms: seq<Migration<Key>>) {
    forall i :: 0 <= i < |ms| ==> |ms[i].from| >= 2 && RowNumber(ms[i].from) == i
  }

  lemma RowIsNumbered(i: nat)
    requires i < 16
    ensures |Row(i).from| >= 2 && RowNumber(Row(i).from) == i
  {
  }

  lemma RowsAreNumbered()
    ensures Numbered(Migrations())
  {
    forall i | 0 <= i < 16 ensures |Migrations()[i].from| >= 2 && RowNumber(Migrations()[i].from) == i {
      RowIsNumbered(i);
    }
  }

  lemma PartEarly(p: Path, q: Path)
    requires |p| >= 2 && |q| >= 2 && (p[0] != q[0] || p[1] != q[1])
    ensures Apart(p, q)
  {
    assert p[0] == q[0] ==> Apart(p[1..], q[1..]);
  }

  lemma {:induction false} SameLengthApart(p: Path, q: Path)
    requires |p| == |q| && p != q
    ensures Apart(p, q)
  {
    if p[0] == q[0] {
      assert p == [p[0]] + p[1..] && q == [q[0]] + q[1..];
      SameLengthApart(p[1..], q[1..]);
    }
  }

  lemma OldFromOld(m: Migration<Key>, m': Migration<Key>)
    requires |m.from| >= 2 && |m'.from| >= 2 && RowNumber(m.from) != RowNumber(m'.from)
    ensures Apart(m.from, m'.from)
  {
    PartEarly(m.from, m'.from);
  }

  lemma NewFromOld(m: Migration<Key>, m': Migration<Key>)
    requires IsRow(m) && IsRow(m') && m'.Move?
    ensures Apart(m'.to, m.from)
  {
    PartEarly(m'.to, m.from);
  }

  lemma NumberedIsTidy(ms: seq<Migration<Key>>)
    requires Numbered(ms) && forall m :: m in ms ==> IsRow(m)
    ensures Tidy(ms)
  {
    forall m, m' | m in ms && m' in ms ensures m.from == m'.from || Apart(m.from, m'.from) {
      var i :| 0 <= i < |ms| && ms[i] == m;
      var j :| 0 <= j < |ms| && ms[j] == m';
      if i != j {
        OldFromOld(m, m');
      }
    }
    forall m, m' | m in ms && m' in ms && m'.Move? ensures Apart(m'.to, m.from) {
      NewFromOld(m, m');
    }
  }

  lemma NumberedIsSeparate(ms: seq<Migration<Key>>)
    requires Numbered(ms) && forall m :: m in ms ==> IsRow(m)
    ensures Separate(ms)
  {
    forall i, j | 0 <= i < j < |ms| ensures Apart(ms[i].from, ms[j].from) {
      OldFromOld(ms[i], ms[j]);
    }
    forall i, j | 0 <= i < |ms| && 0 <= j < |ms| && ms[i].Move? && ms[j].Move? ensures ms[i].to == ms[j].to || Apart(ms[i].to, ms[j].to) {
      assert IsRow(ms[i]) && IsRow(ms[j]);
      if ms[i].to != ms[j].to {
        SameLengthApart(ms[i].to, ms[j].to);
      }
    }
  }

  /** The table keeps apart as the migration needs. */
  lemma TablesAreTidy()
    ensures Tidy(Migrations()) && Separate(Migrations())
  {
    RowsAreRows();
    RowsAreNumbered();
    NumberedIsTidy(Migrations());
    NumberedIsSeparate(Migrations());
  }

  // ----- the reported default paths -----

  // The default paths the report looks for, in table order.

  function DefaultPath0(i: nat): Path
    requires i < 14
  {
    match i
    case 0 => [Agent, Other("max_iterations")]
    case 1 => [Agent, Other("max_retries")]
    case 2 => [Agent, Other("llm_max_retries")]
    case 3 => [Agent, Other("llm_retry_base")]
    case 4 => [Agent, Other("llm_retry_cap")]
    case 5 => [Agent, Other("llm_stream_idle_timeout")]
    case 6 => [Agent, Other("approval_triage_timeout")]
    case 7 => [Agent, Other("log_level")]
    case 8 => [Auth, CredentialsFile]
    case 9 => [Other("delegation"), Other("max_iterations")]
    case 10 => [Other("editor"), Other("large_paste_chars")]
    case 11 => [Other("editor"), Other("large_paste_lines")]
    case 12 => [Other("evolution"), Other("enabled")]
    case _ => [Other("evolution"), Other("nudge_interval")]
  }

  function DefaultPath1(i: nat): Path
    requires i < 14
  {
    match i
    case 0 => [Other("gateway"), Other("addr")]
    case 1 => [Other("gateway"), Other("delivery_max_message_chars")]
    case 2 => [Other("gateway"), Other("delivery_retry_attempts")]
    case 3 => [Other("gateway"), Other("pending_notify_after")]
    case 4 => [Other("gateway"), Other("weixin"), Other("base_url")]
    case 5 => [Other("gateway"), Other("weixin"), Other("cdn_base_url")]
    case 6 => [Other("gateway"), Other("weixin"), Other("dm_policy")]
    case 7 => [Other("gateway"), Other("weixin"), Other("group_policy")]
    case 8 => [Other("gateway"), Other("weixin"), Other("send_chunk_delay_seconds")]
    case 9 => [Other("gateway"), Other("weixin"), Other("send_chunk_retries")]
    case 10 => [Intent, Other("mode")]
    case 11 => [Intent, Other("thresholds"), Other("direct")]
    case 12 => [Intent, Other("thresholds"), Other("ask")]
    case _ => [Other("continuity"), Other("mode")]
  }

  function DefaultPath2(i: nat): Path
    requires i < 14
  {
    match i
    case 0 => [Memory, Other("semantic_recall")]
    case 1 => [Memory, Other("use_memory_fence")]
    case 2 => [Memory, Governance, Other("enabled")]
    case 3 => [Memory, Governance, Other("mode")]
    case 4 => [Memory, Governance, Other("consolidation_interval")]
    case 5 => [Memory, Governance, Other("consolidation_batch_size")]
    case 6 => [Memory, Governance, Other("auto_merge_confidence")]
    case 7 => [Memory, Governance, Other("max_active_global")]
    case 8 => [Memory, Governance, Other("max_active_per_workspace")]
    case 9 => [Memory, Governance, Other("archive_after")]
    case 10 => [Memory, Governance, Other("pause_while_run_active")]
    case 11 => [Models, Other("source")]
    case 12 => [Tasks, Other("default_list_limit")]
    case _ => [Tasks, Other("auto_archive_done_after")]
  }

  function DefaultPath3(i: nat): Path
    requires i < 14
  {
    match i
    case 0 => [Tasks, Other("auto_archive_cancelled_after")]
    case 1 => [Tasks, Other("maintenance_debounce")]
    case 2 => [Tasks, Other("maintenance_max_wait")]
    case 3 => [Tasks, Other("maintenance_batch_max_runs")]
    case 4 => [Other("storage"), Other("type")]
    case 5 => [Other("storage"), Other("data_dir")]
    case 6 => [Other("exec_sandbox"), Other("enabled")]
    case 7 => [Other("exec_sandbox"), Other("required")]
    case 8 => [Other("exec_sandbox"), Other("allow_network")]
    case 9 => [Other("updates"), Other("enabled")]
    case 10 => [Other("updates"), Other("channel")]
    case 11 => [Other("updates"), Other("check_interval")]
    case 12 => [Other("feedback"), Other("repository")]
    case _ => [Other("feedback"), Other("endpoint")]
  }

  function DefaultPath(i: nat): Path
    requires i < 56
  {
    if i < 14 then DefaultPath0(i)
    else if i < 28 then DefaultPath1(i - 14)
    else if i < 42 then DefaultPath2(i - 28)
    else DefaultPath3(i - 42)
  }

  /** A path no migration touches: it ends in a key the tables do not name, below a section they may touch. */
  predicate Plain(p: Path) {
    && |p| >= 2 && p[0] != Providers && p[0] != ProviderProfiles && p[0] != Model
    && (p == [Auth, CredentialsFile] || (p[0] != Auth && (p[1].Other? || (p[0] == Memory && p[1] == Governance && |p| == 3 && p[2].Other?))))
  }

  lemma DefaultPath0IsPlain(i: nat)
    requires i < 14
    ensures Plain(DefaultPath0(i))
  {
  }

  lemma DefaultPath1IsPlain(i: nat)
    requires i < 14
    ensures Plain(DefaultPath1(i))
  {
  }

  lemma DefaultPath2IsPlain(i: nat)
    requires i < 14
    ensures Plain(DefaultPath2(i))
  {
  }

  lemma DefaultPath3IsPlain(i: nat)
    requires i < 14
    ensures Plain(DefaultPath3(i))
  {
  }

  /** No migration touches a reported default path. */
  lemma DefaultPathIsPlain(i: nat)
    requires i < 56
    ensures Plain(DefaultPath(i))
  {
    if i < 14 {
      DefaultPath0IsPlain(i);
    } else if i < 28 {
      DefaultPath1IsPlain(i - 14);
    } else if i < 42 {
      DefaultPath2IsPlain(i - 28);
    } else {
      DefaultPath3IsPlain(i - 42);
    }
  }

  /** Every row keeps apart from every plain path. */
  lemma PlainKeepsApart(m: Migration<Key>, p: Path)
    requires IsRow(m) && Plain(p)
    ensures Apart(m.from, p) && (m.Move? ==> Apart(m.to, p))
  {
    if m.from[0] == p[0] && m.from[1] == p[1] {
      assert m.from[2] != p[2];
      assert Apart(m.from[1..][1..], p[1..][1..]);
      assert Apart(m.from[1..], p[1..]);
    } else {
      PartEarly(m.from, p);
    }
    if m.Move? {
      PartEarly(m.to, p);
    }
  }
}
