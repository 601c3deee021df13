/** The cap enforcer seen from a governance pass: it reports a change exactly when the memory it leaves differs. */
module GovernanceCaps {
  import opened Governance
  import opened GovernanceGuarantees
  import MemoryCaps

  /** The memories whose rows are still active. */
  function Kept(memory: Memory, active: set<string>): Memory { map id | id in memory && id in active :: memory[id] }

  lemma KeptChanges(memory: Memory, active: set<string>)
    requires active <= memory.Keys
    ensures Kept(memory, active) == memory <==> active == memory.Keys
  {
    assert Kept(memory, active).Keys == active;
    assert Kept(memory, memory.Keys) == memory;
  }

  /** Running the enforcer on the rows behind a memory is honest, and never loses a protected row. */
  method EnforceOn(memory: Memory, info: string -> MemoryCaps.Row, cfg: MemoryCaps.Config, halving: int -> real, now: int) returns (c: Caps)
    ensures c.fine ==> HonestAbout(c, memory)
    ensures forall id :: id in memory && MemoryCaps.Guarded(info(id)) ==> id in c.after && c.after[id] == memory[id]
  {
    var store := new MemoryCaps.CanonicalStore(info, memory.Keys);
    var changed, ok := store.EnforceCaps(cfg, halving, now);
    KeptChanges(memory, store.active);
    forall id | id in memory && MemoryCaps.Guarded(info(id)) ensures id in store.active {
      assert id !in memory.Keys - store.active;
    }
    c := Caps(Kept(memory, store.active), changed, ok);
  }
}
