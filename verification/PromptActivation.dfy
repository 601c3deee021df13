/**
 Prompt snapshot activation: which snapshot a starting daemon serves, and how the
 last-known-good record stays safe over edits, root changes, upgrades and crashes.
 */
module PromptActivation {
  import opened Basics

  type Root = string
  type Hash = string
  type Content = string

  /**
   Parsing a workspace under a catalog version, the catalog's limits on a stored
   revision, the hash over catalog version and content, and the built-in content.
   Roots are cleaned paths.
   */
  datatype Env = Env(parse: (nat, string) -> Option<Content>, fits: (nat, Content) -> bool, hash: (nat, Content) -> Hash,
                     builtin: Content, dataDir: bool)

  /** Whatever parses, and the built-in content, is within the catalog's limits; hashes of two catalogs differ. */
  ghost predicate Good(env: Env) {
    && (forall v: nat, text :: env.parse(v, text).Some? ==> env.fits(v, env.parse(v, text).value))
    && (forall v: nat :: env.fits(v, env.builtin))
    && (forall v: nat, w: nat, a, b :: env.hash(v, a) == env.hash(w, b) ==> v == w)
  }

  datatype Revision = Revision(catalog: nat, content: Content)
  datatype Key = Key(root: Root, hash: Hash)
  datatype Record = Record(catalog: nat, root: Root, hash: Hash)

  datatype Source = Active | LastKnownGood | BuiltIn

  datatype Snapshot = Snapshot(root: Root, content: Content, hash: Hash)

  // ----- the revision cache and the record -----

  predicate Loadable(env: Env, catalog: nat, revisions: map<Key, Revision>, key: Key) {
    && key in revisions && revisions[key].catalog == catalog
    && env.fits(catalog, revisions[key].content) && env.hash(catalog, revisions[key].content) == key.hash
  }

  /** The cache after saving: an entry that loads is kept, any other is replaced. */
  function Saved(env: Env, catalog: nat, revisions: map<Key, Revision>, s: Snapshot): map<Key, Revision> {
    if Loadable(env, catalog, revisions, Key(s.root, s.hash)) then revisions
    else revisions[Key(s.root, s.hash) := Revision(catalog, s.content)]
  }

  /** The revision the record names, if it may be served under this root and catalog. */
  function LastGood(env: Env, catalog: nat, root: Root, revisions: map<Key, Revision>, record: Option<Record>): Option<Snapshot> {
    if env.dataDir && record.Some? && record.value.catalog == catalog && record.value.root == root
       && Loadable(env, catalog, revisions, Key(root, record.value.hash))
    then Some(Snapshot(root, revisions[Key(root, record.value.hash)].content, record.value.hash))
    else None
  }

  datatype Selection = Selection(source: Source, snapshot: Snapshot)

  function Resolved(env: Env, catalog: nat, root: Root, text: string, revisions: map<Key, Revision>, record: Option<Record>): Selection {
    var parsed := env.parse(catalog, text);
    if parsed.Some? then Selection(Active, Snapshot(root, parsed.value, env.hash(catalog, parsed.value)))
    else
      var good := LastGood(env, catalog, root, revisions, record);
      if good.Some? then Selection(LastKnownGood, good.value)
      else Selection(BuiltIn, Snapshot(root, env.builtin, env.hash(catalog, env.builtin)))
  }

  // ----- runs -----

  datatype Daemon = Down | Chosen(selection: Selection) | Stored(selection: Selection) | Up(selection: Selection)

  /** A start that resolved the operator's own files. */
  datatype Activation = Activation(catalog: nat, root: Root, content: Content)

  datatype State = State(files: map<Root, string>, root: Root, catalog: nat, revisions: map<Key, Revision>,
                         record: Option<Record>, daemon: Daemon, activations: set<Activation>)

  /** Edits and root changes happen at any time; installing replaces the binary of a stopped daemon by any version. */
  datatype Step =
    | Edit(where: Root, text: string) | MoveRoot(where: Root) | Install(to: nat)
    | Start | Save(ok: bool) | Write(ok: bool) | Crash

  function FilesAt(s: State): string { if s.root in s.files then s.files[s.root] else "" }

  predicate Enabled(s: State, step: Step) {
    match step
    case Install(_) => s.daemon.Down?
    case Start => s.daemon.Down?
    case Save(_) => s.daemon.Chosen?
    case Write(_) => s.daemon.Stored?
    case _ => true
  }

  function Started(env: Env, s: State): State
  {
    var sel := Resolved(env, s.catalog, s.root, FilesAt(s), s.revisions, s.record);
    s.(daemon := Chosen(sel),
       activations := s.activations + if sel.source == Active then {Activation(s.catalog, sel.snapshot.root, sel.snapshot.content)} else {})
  }

  /** The first write of an activation; a last-known-good start writes nothing. */
  function AfterSave(env: Env, s: State, ok: bool): State
    requires s.daemon.Chosen?
  {
    var sel := s.daemon.selection;
    var kept := if ok && sel.source != LastKnownGood then Saved(env, s.catalog, s.revisions, sel.snapshot) else s.revisions;
    s.(revisions := kept, daemon := if ok && sel.source == Active then Stored(sel) else Up(sel))
  }

  /** The second write: the record moves to the snapshot just stored. */
  function AfterWrite(env: Env, s: State, ok: bool): State
    requires s.daemon.Stored?
  {
    var sel := s.daemon.selection;
    s.(daemon := Up(sel),
       record := if ok && env.dataDir then Some(Record(s.catalog, sel.snapshot.root, sel.snapshot.hash)) else s.record)
  }

  function Apply(env: Env, s: State, step: Step): State
    requires Enabled(s, step)
  {
    match step
    case Edit(where, text) => s.(files := s.files[where := text])
    case MoveRoot(where) => s.(root := where)
    case Install(to) => s.(catalog := to)
    case Start => Started(env, s)
    case Save(ok) => AfterSave(env, s, ok)
    case Write(ok) => AfterWrite(env, s, ok)
    case Crash => s.(daemon := Down)
  }

  function Initial(files: map<Root, string>, root: Root, catalog: nat): State {
    State(files, root, catalog, map[], None, Down, {})
  }

  // ----- the invariant -----

  /** Cache entries hash to their names and were within the limits of their catalog. */
  ghost predicate CacheSound(env: Env, s: State) {
    forall key :: key in s.revisions ==> EntrySound(env, key, s.revisions[key])
  }

  predicate EntrySound(env: Env, key: Key, rev: Revision) { env.hash(rev.catalog, rev.content) == key.hash && env.fits(rev.catalog, rev.content) }

  /** The content with this hash was active under this root and catalog. */
  ghost predicate WasActive(env: Env, s: State, catalog: nat, root: Root, hash: Hash) {
    exists a :: a in s.activations && a.catalog == catalog && a.root == root && env.hash(catalog, a.content) == hash
  }

  /** The record names a stored revision that was active under its root and catalog. */
  ghost predicate RecordSound(env: Env, s: State) {
    s.record.Some? ==>
      var r := s.record.value;
      Key(r.root, r.hash) in s.revisions && WasActive(env, s, r.catalog, r.root, r.hash)
  }

  ghost predicate DaemonSound(env: Env, s: State) {
    match s.daemon
    case Chosen(sel) => SelectionSound(env, s, sel)
    case Stored(sel) =>
      && sel.source == Active && SelectionSound(env, s, sel)
      && Loadable(env, s.catalog, s.revisions, Key(sel.snapshot.root, sel.snapshot.hash))
    case _ => true
  }

  ghost predicate SelectionSound(env: Env, s: State, sel: Selection) {
    && sel.snapshot.hash == env.hash(s.catalog, sel.snapshot.content) && env.fits(s.catalog, sel.snapshot.content)
    && (sel.source == Active ==> Activation(s.catalog, sel.snapshot.root, sel.snapshot.content) in s.activations)
  }

  ghost predicate Inv(env: Env, s: State) { CacheSound(env, s) && RecordSound(env, s) && DaemonSound(env, s) }

  lemma StartInv(env: Env, s: State)
    requires Good(env) && Inv(env, s) && s.daemon.Down?
    ensures Inv(env, Started(env, s))
  {
    var s' := Started(env, s);
    if s.record.Some? {
      var r := s.record.value;
      var a :| a in s.activations && a.catalog == r.catalog && a.root == r.root && env.hash(r.catalog, a.content) == r.hash;
      assert a in s'.activations;
    }
  }

  lemma SaveInv(env: Env, s: State, ok: bool)
    requires Inv(env, s) && s.daemon.Chosen?
    ensures Inv(env, AfterSave(env, s, ok))
  {
    var s' := AfterSave(env, s, ok);
    if s.record.Some? {
      var r := s.record.value;
      assert WasActive(env, s', r.catalog, r.root, r.hash);
    }
  }

  lemma WriteInv(env: Env, s: State, ok: bool)
    requires Inv(env, s) && s.daemon.Stored?
    ensures Inv(env, AfterWrite(env, s, ok))
  {
    var s', sel := AfterWrite(env, s, ok), s.daemon.selection;
    assert Activation(s.catalog, sel.snapshot.root, sel.snapshot.content) in s'.activations;
    if s.record.Some? {
      var r := s.record.value;
      assert WasActive(env, s', r.catalog, r.root, r.hash);
    }
  }

  lemma OtherInv(env: Env, s: State, step: Step)
    requires Inv(env, s) && Enabled(s, step) && !step.Start? && !step.Save? && !step.Write?
    ensures Inv(env, Apply(env, s, step))
  {
    var s' := Apply(env, s, step);
    if s.record.Some? {
      var r := s.record.value;
      assert WasActive(env, s', r.catalog, r.root, r.hash);
    }
  }

  /** Every step keeps the record safe. */
  lemma StepInv(env: Env, s: State, step: Step)
    requires Good(env) && Inv(env, s) && Enabled(s, step)
    ensures Inv(env, Apply(env, s, step))
  {
    match step {
      case Start => StartInv(env, s);
      case Save(ok) => SaveInv(env, s, ok);
      case Write(ok) => WriteInv(env, s, ok);
      case _ => OtherInv(env, s, step);
    }
  }

  ghost predicate IsRun(env: Env, s: State, steps: seq<Step>)
    decreases |steps|
  {
    steps == [] || (Enabled(s, steps[0]) && IsRun(env, Apply(env, s, steps[0]), steps[1..]))
  }

  ghost function After(env: Env, s: State, steps: seq<Step>): State
    requires IsRun(env, s, steps)
    decreases |steps|
  {
    if steps == [] then s else After(env, Apply(env, s, steps[0]), steps[1..])
  }

  lemma {:induction false} RunInv(env: Env, s: State, steps: seq<Step>)
    requires Good(env) && Inv(env, s) && IsRun(env, s, steps)
    ensures Inv(env, After(env, s, steps))
    decreases |steps|
  {
    if steps != [] {
      StepInv(env, s, steps[0]);
      RunInv(env, Apply(env, s, steps[0]), steps[1..]);
    }
  }

  // ----- what every run guarantees -----

  /** The record only ever names a stored revision that was active under its recorded root. */
  lemma RecordIsSafe(env: Env, files: map<Root, string>, root: Root, catalog: nat, steps: seq<Step>)
    requires Good(env) && IsRun(env, Initial(files, root, catalog), steps)
    ensures RecordSound(env, After(env, Initial(files, root, catalog), steps))
  {
    RunInv(env, Initial(files, root, catalog), steps);
  }

  /** The record speaks of this root and catalog. */
  predicate RecordMatches(env: Env, s: State) {
    env.dataDir && s.record.Some? && s.record.value.root == s.root && s.record.value.catalog == s.catalog
  }

  /**
   A start on an invalid workspace serves the recorded revision exactly when the
   record's root and catalog match, and the built-in content otherwise.
   */
  lemma FallbackExactly(env: Env, files: map<Root, string>, root: Root, catalog: nat, steps: seq<Step>)
    requires Good(env) && IsRun(env, Initial(files, root, catalog), steps)
    requires var s := After(env, Initial(files, root, catalog), steps); s.daemon.Down? && env.parse(s.catalog, FilesAt(s)).None?
    ensures var s := After(env, Initial(files, root, catalog), steps);
            var sel := Started(env, s).daemon.selection;
            if RecordMatches(env, s) then
              && sel.source == LastKnownGood && sel.snapshot.hash == s.record.value.hash == env.hash(s.catalog, sel.snapshot.content)
              && WasActive(env, s, s.catalog, s.root, sel.snapshot.hash)
            else sel == Selection(BuiltIn, Snapshot(s.root, env.builtin, env.hash(s.catalog, env.builtin)))
  {
    RunInv(env, Initial(files, root, catalog), steps);
  }

  /** A start on a valid workspace serves that workspace's own content, under its own hash, and notes it as active. */
  lemma ValidWorkspaceIsServed(env: Env, s: State, content: Content)
    requires s.daemon.Down?
    ensures var s' := Started(env, s);
            && s'.daemon.Chosen? && (s'.daemon.selection.source == Active <==> env.parse(s.catalog, FilesAt(s)).Some?)
            && (env.parse(s.catalog, FilesAt(s)) == Some(content) ==>
                  && s'.daemon.selection.snapshot == Snapshot(s.root, content, env.hash(s.catalog, content))
                  && s'.activations == s.activations + {Activation(s.catalog, s.root, content)})
  {
  }

  /** What a start selected is what the daemon serves until it goes down: no write, edit or root change alters it. */
  lemma {:induction false} ServedIsSelected(env: Env, s: State, steps: seq<Step>)
    requires !s.daemon.Down? && IsRun(env, s, steps) && Crash !in steps
    ensures var s' := After(env, s, steps); !s'.daemon.Down? && s'.daemon.selection == s.daemon.selection && s'.catalog == s.catalog
    decreases |steps|
  {
    if steps != [] {
      assert steps[0] in steps && forall x :: x in steps[1..] ==> x in steps;
      ServedIsSelected(env, Apply(env, s, steps[0]), steps[1..]);
    }
  }

  /** An active start whose two writes succeed leaves its own snapshot stored, loadable and recorded. */
  lemma CompletedStartIsRecorded(env: Env, s: State)
    requires Good(env) && Inv(env, s) && env.dataDir && s.daemon.Chosen? && s.daemon.selection.source == Active
    ensures var saved, snap := AfterSave(env, s, true), s.daemon.selection.snapshot;
            && saved.daemon.Stored?
            && var done := AfterWrite(env, saved, true);
            && done.record == Some(Record(s.catalog, snap.root, snap.hash)) && done.daemon == Up(s.daemon.selection)
            && Loadable(env, s.catalog, done.revisions, Key(snap.root, snap.hash))
  {
    SaveInv(env, s, true);
  }

  /** No step changes or drops a stored revision: the same name means the same catalog, and such an entry loads. */
  lemma StepKeepsRevisions(env: Env, s: State, step: Step, key: Key)
    requires Good(env) && Inv(env, s) && Enabled(s, step) && key in s.revisions
    ensures key in Apply(env, s, step).revisions && Apply(env, s, step).revisions[key] == s.revisions[key]
  {
    assert EntrySound(env, key, s.revisions[key]);
  }

  /** So whatever is stored at any point of a run stays as it is, whichever versions follow. */
  lemma {:induction false} RevisionsStay(env: Env, s: State, steps: seq<Step>, key: Key)
    requires Good(env) && Inv(env, s) && IsRun(env, s, steps) && key in s.revisions
    ensures key in After(env, s, steps).revisions && After(env, s, steps).revisions[key] == s.revisions[key]
    decreases |steps|
  {
    if steps != [] {
      StepInv(env, s, steps[0]);
      StepKeepsRevisions(env, s, steps[0], key);
      RevisionsStay(env, Apply(env, s, steps[0]), steps[1..], key);
    }
  }

  /** A record that outlives a run is served with the very content stored for it at the run's beginning. */
  lemma FallbackServesWhatWasStored(env: Env, s: State, steps: seq<Step>)
    requires Good(env) && Inv(env, s) && IsRun(env, s, steps)
    requires var s' := After(env, s, steps);
             s'.daemon.Down? && env.parse(s'.catalog, FilesAt(s')).None? && RecordMatches(env, s') && s'.record == s.record
    ensures var r, sel := s.record.value, Started(env, After(env, s, steps)).daemon.selection;
            && Key(r.root, r.hash) in s.revisions
            && sel == Selection(LastKnownGood, Snapshot(r.root, s.revisions[Key(r.root, r.hash)].content, r.hash))
  {
    RunInv(env, s, steps);
    RevisionsStay(env, s, steps, Key(s.record.value.root, s.record.value.hash));
  }

  /** Where hashes do not collide, the revision served is the very content that was active. */
  lemma FallbackContent(env: Env, s: State)
    requires Inv(env, s) && LastGood(env, s.catalog, s.root, s.revisions, s.record).Some?
    requires forall a, b :: env.hash(s.catalog, a) == env.hash(s.catalog, b) ==> a == b
    ensures Activation(s.catalog, s.root, LastGood(env, s.catalog, s.root, s.revisions, s.record).value.content) in s.activations
  {
    var r := s.record.value;
    var a :| a in s.activations && a.catalog == r.catalog && a.root == r.root && env.hash(r.catalog, a.content) == r.hash;
  }

  /** Only the second write of an active start moves the record, and then to that start's own snapshot. */
  lemma OnlyActiveStartsMoveTheRecord(env: Env, s: State, step: Step)
    requires Inv(env, s) && Enabled(s, step) && Apply(env, s, step).record != s.record
    ensures step == Write(true) && s.daemon.Stored? && s.daemon.selection.source == Active
    ensures var sel := s.daemon.selection;
            && Apply(env, s, step).record == Some(Record(s.catalog, sel.snapshot.root, sel.snapshot.hash))
            && Activation(s.catalog, sel.snapshot.root, sel.snapshot.content) in s.activations
  {
  }

  // ----- the cache keeps what it is given -----

  /** A saved snapshot loads again, with a content of its own hash, and no other entry is touched. */
  lemma SavedLoads(env: Env, catalog: nat, revisions: map<Key, Revision>, s: Snapshot)
    requires env.hash(catalog, s.content) == s.hash && env.fits(catalog, s.content)
    ensures var key, after := Key(s.root, s.hash), Saved(env, catalog, revisions, s);
            && Loadable(env, catalog, after, key)
            && (forall k :: k != key ==> (k in after <==> k in revisions) && (k in after ==> after[k] == revisions[k]))
            && Saved(env, catalog, after, s) == after
  {
  }

  // ----- the daemon's own steps -----

  /** How the runtime resolved its snapshot, as reported. */
  datatype Status = Status(source: Source, activeRoot: Root, snapshotHash: Hash, activeError: bool, fallbackError: bool, activationError: bool)

  class PromptStore {
    var revisions: map<Key, Revision>
    var record: Option<Record>

    constructor (revisions: map<Key, Revision>, record: Option<Record>)
      ensures this.revisions == revisions && this.record == record
    {
      this.revisions, this.record := revisions, record;
    }

    /** Selects a snapshot without writing anything. */
    method ResolveRuntimePromptSnapshot(env: Env, catalog: nat, root: Root, text: string) returns (sel: Selection, status: Status)
      ensures sel == Resolved(env, catalog, root, text, revisions, record)
      ensures status.source == sel.source && status.snapshotHash == sel.snapshot.hash && status.activeRoot == root == sel.snapshot.root
      ensures status.activeError == (sel.source != Active) && status.fallbackError == (sel.source == BuiltIn) && !status.activationError
    {
      var parsed := env.parse(catalog, text);
      status := Status(Active, root, "", false, false, false);
      if parsed.Some? {
        sel := Selection(Active, Snapshot(root, parsed.value, env.hash(catalog, parsed.value)));
        status := status.(snapshotHash := sel.snapshot.hash);
        return;
      }
      status := status.(activeError := true);
      var good := LastGood(env, catalog, root, revisions, record);
      if good.Some? {
        sel := Selection(LastKnownGood, good.value);
      } else {
        status := status.(fallbackError := true);
        sel := Selection(BuiltIn, Snapshot(root, env.builtin, env.hash(catalog, env.builtin)));
      }
      status := status.(source := sel.source, snapshotHash := sel.snapshot.hash);
    }

    method SaveRevision(env: Env, catalog: nat, s: Snapshot, ok: bool)
      modifies this`revisions
      ensures revisions == if ok then Saved(env, catalog, old(revisions), s) else old(revisions)
    {
      var key := Key(s.root, s.hash);
      if ok && !Loadable(env, catalog, revisions, key) {
        revisions := revisions[key := Revision(catalog, s.content)];
      }
    }

    /** The two writes of an activation, in order; saves and writes tell whether each succeeds. */
    method ActivateRuntimePromptSnapshot(env: Env, catalog: nat, s: Snapshot, status: Status, saves: bool, writes: bool, ghost before: State)
      returns (after: Status)
      requires before.revisions == revisions && before.record == record && before.catalog == catalog
      requires before.daemon == Chosen(Selection(status.source, s))
      modifies this
      ensures status.snapshotHash != s.hash || status.activeRoot != s.root ==>
                after == status.(activationError := true) && revisions == old(revisions) && record == old(record)
      ensures status.snapshotHash == s.hash && status.activeRoot == s.root ==>
                var one := AfterSave(env, before, saves);
                var two := if one.daemon.Stored? then AfterWrite(env, one, writes) else one;
                && revisions == two.revisions && record == two.record
                && (!status.activationError ==>
                     (after.activationError <==> (status.source != LastKnownGood && !saves)
                                                 || (status.source == Active && !(writes && env.dataDir))))
    {
      after := status;
      if status.snapshotHash != s.hash || status.activeRoot != s.root {
        return status.(activationError := true);
      }
      match status.source {
        case Active =>
          SaveRevision(env, catalog, s, saves);
          if !saves {
            after := status.(activationError := true);
          } else if writes && env.dataDir {
            record := Some(Record(catalog, status.activeRoot, s.hash));
          } else {
            after := status.(activationError := true);
          }
        case BuiltIn =>
          SaveRevision(env, catalog, s, saves);
          if !saves {
            after := status.(activationError := true);
          }
        case LastKnownGood =>
      }
    }
  }
}
