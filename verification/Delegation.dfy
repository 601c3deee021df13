/**
 Delegation: which tools a sub-agent holds at each depth, how deep a nest can get,
 and when a batch may overlap.
 */
module Delegation {
  import opened SkillText

  const DELEGATE := "delegate_task"

  const PARENT_OWNED: set<string> :=
    {"update_plan", "finish_run", "watch_external", "memory", "skill_manage", "skill_lifecycle_manage", "skill_select", "skill_fallback"}

  const READS: set<string> :=
    {"read_file", "ls_r", "search_files", "batch_read", "get_current_time", "web_search", "web_extract", "session_search",
     "work_search", "work_inspect", "tool_output_view"}

  /** The configured bounds; a value that is not positive means its default. */
  datatype Config = Config(maxDepth: int, maxConcurrent: int, maxSubtasks: int)

  datatype Limits = Limits(depth: nat, concurrent: nat, subtasks: nat)

  function LimitsOf(cfg: Config): (r: Limits)
    ensures r.depth >= 1 && r.concurrent >= 1 && r.subtasks >= 1
  {
    Limits(if cfg.maxDepth <= 0 then 1 else cfg.maxDepth, if cfg.maxConcurrent <= 0 then 5 else cfg.maxConcurrent,
           if cfg.maxSubtasks <= 0 then 16 else cfg.maxSubtasks)
  }

  datatype Tool = Tool(builtin: bool, quarantined: bool)

  /** A dispatcher's tools, or a backend that cannot be filtered. */
  datatype Backend = Dispatcher(tools: map<string, Tool>) | Opaque(names: set<string>)

  // ----- the tools a request asks for -----

  function ToolsetTools(toolset: string): set<string> {
    var ts := Trim(toolset);
    if ts == "file" then {"read_file", "write_file", "ls_r", "search_files", "patch"}
    else if ts == "terminal" || ts == "shell" then {"terminal"}
    else if ts == "web" then {"web_search", "web_extract"}
    else {ts}
  }

  predicate Wanted(toolsets: seq<string>, name: string) {
    toolsets == [] || exists i :: 0 <= i < |toolsets| && name in ToolsetTools(toolsets[i])
  }

  /** A read-only surface: every tool that is not quarantined is a known built-in read. */
  predicate ProvenReadOnly(b: Backend) {
    b.Dispatcher? && forall name :: name in b.tools && !b.tools[name].quarantined ==> b.tools[name].builtin && name in READS
  }

  /** What a sub-agent may take from the dispatcher it is cloned from. */
  predicate Copied(toolsets: seq<string>, name: string) {
    name != DELEGATE && name !in PARENT_OWNED && Wanted(toolsets, name)
  }

  function Subset(tools: map<string, Tool>, toolsets: seq<string>): map<string, Tool> {
    map name | name in tools && Copied(toolsets, name) :: tools[name]
  }

  /** The backend of a sub-agent at a depth; it can delegate further exactly when it holds the delegate tool. */
  function SubBackend(root: Backend, maxDepth: nat, toolsets: seq<string>, depth: nat): Backend {
    if root.Opaque? then root
    else
      var sub := Subset(root.tools, toolsets);
      if depth < maxDepth && !ProvenReadOnly(Dispatcher(sub)) then Dispatcher(sub[DELEGATE := Tool(true, false)])
      else Dispatcher(sub)
  }

  method BuildDelegateSubBackend(root: Backend, maxDepth: nat, toolsets: seq<string>, depth: nat) returns (r: Backend)
    ensures r == SubBackend(root, maxDepth, toolsets, depth)
  {
    if root.Opaque? {
      return root;
    }
    var want: set<string>, i := {}, 0;
    while i < |toolsets|
      invariant 0 <= i <= |toolsets|
      invariant forall name :: name in want <==> exists k :: 0 <= k < i && name in ToolsetTools(toolsets[k])
    {
      want := want + ToolsetTools(toolsets[i]);
      i := i + 1;
    }
    var sub := map name | name in root.tools && name != DELEGATE && name !in PARENT_OWNED && (toolsets == [] || name in want) :: root.tools[name];
    assert sub == Subset(root.tools, toolsets);
    if depth < maxDepth {
      var readOnly := IsReadOnly(Dispatcher(sub));
      if !readOnly {
        sub := sub[DELEGATE := Tool(true, false)];
      }
    }
    r := Dispatcher(sub);
  }

  method IsReadOnly(b: Backend) returns (r: bool)
    ensures r == ProvenReadOnly(b)
  {
    if b.Opaque? {
      return false;
    }
    var todo := b.tools.Keys;
    while todo != {}
      invariant todo <= b.tools.Keys
      invariant forall name :: name in b.tools && name !in todo && !b.tools[name].quarantined ==> b.tools[name].builtin && name in READS
      decreases todo
    {
      var name :| name in todo;
      if !b.tools[name].quarantined && (!b.tools[name].builtin || name !in READS) {
        return false;
      }
      todo := todo - {name};
    }
    r := true;
  }

  // ----- nests -----

  function Names(b: Backend): set<string> { if b.Dispatcher? then b.tools.Keys else b.names }

  predicate CanDelegate(b: Backend) { DELEGATE in Names(b) }

  /** The backend of the sub-agent at the k-th hop of a nest; a child is cloned from the root, not from its parent. */
  function HopBackend(root: Backend, maxDepth: nat, first: nat, hops: seq<seq<string>>, k: nat): Backend
    requires k < |hops|
  {
    SubBackend(root, maxDepth, hops[k], first + k)
  }

  /** A nest starting at a depth: each sub-agent that delegates holds the delegate tool, whose closure sits one deeper. */
  predicate IsNest(root: Backend, maxDepth: nat, first: nat, hops: seq<seq<string>>) {
    forall k :: 0 <= k < |hops| - 1 ==> CanDelegate(HopBackend(root, maxDepth, first, hops, k))
  }

  /** Below the limit, and only there, a sub-agent may delegate; a read-only one never does. */
  lemma DelegatesBelowLimit(root: Backend, maxDepth: nat, toolsets: seq<string>, depth: nat)
    requires root.Dispatcher?
    ensures CanDelegate(SubBackend(root, maxDepth, toolsets, depth)) <==>
              depth < maxDepth && !ProvenReadOnly(Dispatcher(Subset(root.tools, toolsets)))
    ensures ProvenReadOnly(SubBackend(root, maxDepth, toolsets, depth)) <==> ProvenReadOnly(Dispatcher(Subset(root.tools, toolsets)))
  {
    var sub := Subset(root.tools, toolsets);
    var b := SubBackend(root, maxDepth, toolsets, depth);
    assert DELEGATE !in READS;
    if depth < maxDepth && !ProvenReadOnly(Dispatcher(sub)) {
      assert DELEGATE in b.tools && !b.tools[DELEGATE].quarantined;
    }
  }

  /** Every nest of delegations from the top has at most maxDepth hops. */
  lemma NestBounded(root: Backend, maxDepth: nat, hops: seq<seq<string>>)
    requires root.Dispatcher? && maxDepth >= 1 && IsNest(root, maxDepth, 1, hops)
    ensures |hops| <= maxDepth
  {
    if |hops| > 1 {
      var k := |hops| - 2;
      assert CanDelegate(HopBackend(root, maxDepth, 1, hops, k));
      DelegatesBelowLimit(root, maxDepth, hops[k], 1 + k);
    }
  }

  /** A backend that cannot be filtered is handed on whole, so its nests are bounded exactly when it has no delegate tool of its own. */
  lemma OpaqueNests(root: Backend, maxDepth: nat, hops: seq<seq<string>>)
    requires root.Opaque? && |hops| > 1
    ensures IsNest(root, maxDepth, 1, hops) <==> CanDelegate(root)
  {
    if IsNest(root, maxDepth, 1, hops) {
      assert CanDelegate(HopBackend(root, maxDepth, 1, hops, 0));
    }
  }

  /** Every hop uses only the root's tools, minus the parent-owned ones, plus the delegate tool below the limit. */
  lemma NestTools(root: Backend, maxDepth: nat, first: nat, hops: seq<seq<string>>, k: nat, name: string)
    requires root.Dispatcher? && k < |hops| && name in Names(HopBackend(root, maxDepth, first, hops, k))
    ensures name !in PARENT_OWNED && (name in root.tools || name == DELEGATE)
    ensures name == DELEGATE ==> first + k < maxDepth
    ensures name != DELEGATE ==> Wanted(hops[k], name) && HopBackend(root, maxDepth, first, hops, k).tools[name] == root.tools[name]
  {
    assert DELEGATE !in PARENT_OWNED;
  }

  /** A sub-agent holds exactly the root's tools that it asked for and the parent does not own, each as the root has it. */
  lemma SubToolsExactly(root: Backend, maxDepth: nat, toolsets: seq<string>, depth: nat, name: string)
    requires root.Dispatcher? && name != DELEGATE
    ensures var sub := SubBackend(root, maxDepth, toolsets, depth);
            && sub.Dispatcher?
            && (name in sub.tools <==>
                  name in root.tools && name !in PARENT_OWNED && (toolsets == [] || exists i :: 0 <= i < |toolsets| && name in ToolsetTools(toolsets[i])))
            && (name in sub.tools ==> sub.tools[name] == root.tools[name])
  {
  }

  /** What a toolset name stands for; any other name is a tool's own. */
  lemma ToolsetsByName(toolset: string, name: string)
    ensures var ts := Trim(toolset);
            && (ts == "file" ==> (name in ToolsetTools(toolset) <==> name in {"read_file", "write_file", "ls_r", "search_files", "patch"}))
            && (ts == "terminal" || ts == "shell" ==> (name in ToolsetTools(toolset) <==> name == "terminal"))
            && (ts == "web" ==> (name in ToolsetTools(toolset) <==> name in {"web_search", "web_extract"}))
            && (ts !in {"file", "terminal", "shell", "web"} ==> (name in ToolsetTools(toolset) <==> name == ts))
  {
  }

  /** Whatever a proven read-only sub-agent reaches, through any nesting, is a built-in read. */
  lemma ReadOnlyReach(root: Backend, maxDepth: nat, first: nat, hops: seq<seq<string>>, k: nat, name: string)
    requires root.Dispatcher? && k < |hops| && IsNest(root, maxDepth, first, hops)
    requires ProvenReadOnly(HopBackend(root, maxDepth, first, hops, 0))
    requires var b := HopBackend(root, maxDepth, first, hops, k); name in Names(b) && !b.tools[name].quarantined
    ensures k == 0 && |hops| == 1
    ensures name in READS && name in root.tools && root.tools[name].builtin
  {
    assert |hops| > 1 ==> CanDelegate(HopBackend(root, maxDepth, first, hops, 0));
    DelegatesBelowLimit(root, maxDepth, hops[0], first);
    assert DELEGATE !in READS;
  }

  // ----- batches -----

  datatype Admission = TooDeep | TooLarge | Admitted(concurrency: nat)

  predicate AllReadOnly(root: Backend, maxDepth: nat, specs: seq<seq<string>>, depth: nat) {
    All(Reader(root, maxDepth, depth), specs)
  }

  /** Whether a request's sub-agent is proven read-only at a depth. */
  function Reader(root: Backend, maxDepth: nat, depth: nat): seq<string> -> bool {
    spec => ProvenReadOnly(SubBackend(root, maxDepth, spec, depth))
  }

  predicate All(good: seq<string> -> bool, specs: seq<seq<string>>) { forall i :: 0 <= i < |specs| ==> good(specs[i]) }

  method CheckAll(good: seq<string> -> bool, specs: seq<seq<string>>) returns (r: bool)
    ensures r == All(good, specs)
  {
    var i := 0;
    while i < |specs|
      invariant 0 <= i <= |specs| && All(good, specs[..i])
    {
      if !good(specs[i]) {
        return false;
      }
      i := i + 1;
    }
    r := true;
  }

  /** How many of a batch's sub-agents may run at once: several only if all are proven read-only. */
  function Concurrency(root: Backend, cfg: Config, specs: seq<seq<string>>, depth: nat): nat {
    if AllReadOnly(root, LimitsOf(cfg).depth, specs, depth) then LimitsOf(cfg).concurrent else 1
  }

  /** A batch overlaps only if every sub-agent is proven read-only, and then up to the configured bound, five by default. */
  lemma ConcurrencyExactly(root: Backend, cfg: Config, specs: seq<seq<string>>, depth: nat)
    ensures Concurrency(root, cfg, specs, depth) ==
              if forall i :: 0 <= i < |specs| ==> ProvenReadOnly(SubBackend(root, if cfg.maxDepth > 0 then cfg.maxDepth else 1, specs[i], depth))
              then if cfg.maxConcurrent > 0 then cfg.maxConcurrent else 5
              else 1
  {
    if i :| 0 <= i < |specs| && !ProvenReadOnly(SubBackend(root, if cfg.maxDepth > 0 then cfg.maxDepth else 1, specs[i], depth)) {
      assert !Reader(root, LimitsOf(cfg).depth, depth)(specs[i]);
    }
  }

  /** Admits a batch, or tells which limit refuses it. */
  method AdmitBatch(root: Backend, cfg: Config, specs: seq<seq<string>>, depth: nat) returns (r: Admission)
    ensures var limits := LimitsOf(cfg);
            r == if depth > limits.depth then TooDeep else if |specs| > limits.subtasks then TooLarge
                 else Admitted(Concurrency(root, cfg, specs, depth))
  {
    var limits := LimitsOf(cfg);
    if depth > limits.depth {
      return TooDeep;
    }
    if |specs| > limits.subtasks {
      return TooLarge;
    }
    var readOnly := CheckAll(Reader(root, limits.depth, depth), specs);
    r := Admitted(if readOnly then limits.concurrent else 1);
  }
}
