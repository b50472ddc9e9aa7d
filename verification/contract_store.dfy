/** The tables as they are changed in place by one apply transaction. */
module ContractStore {
  import opened Contracts

  class Store {
    var rows: seq<Row>
    var revisions: seq<Revision>

    ghost function Model(): Tables
      reads this
    {
      Tables(rows, revisions)
    }

    constructor ()
      ensures Model() == Tables([], [])
    {
      rows, revisions := [], [];
    }

    method AppendRevision(key: string, number: int, action: Action, c: Contract, actor: string)
      modifies `revisions
      ensures revisions == old(revisions) + [Revision(key, number, action, c, Contracts.Store(c), actor)]
    {
      revisions := revisions + [Revision(key, number, action, c, Contracts.Store(c), actor)];
    }

    method InsertContract(c: Contract, actor: string)
      modifies this
      ensures Model() == Contracts.InsertContract(old(Model()), c, actor)
    {
      rows := rows + [Row(Contracts.Store(c), 1, c, actor)];
      AppendRevision(c.key, 1, Created, c, actor);
    }

    method UpdateContract(c: Contract, actor: string)
      requires Find(rows, c.key) != -1
      modifies this
      ensures Model() == Contracts.UpdateContract(old(Model()), c, actor)
    {
      var i := Find(rows, c.key);
      var number := rows[i].revision + 1;
      rows := rows[i := Row(Contracts.Store(c), number, c, rows[i].createdBy)];
      AppendRevision(c.key, number, if c.status == Archived then ArchivedAction else Updated, c, actor);
    }

    method ApplyDeclaration(env: Env, r: Request, valid: bool) returns (outcome: Outcome)
      modifies this
      ensures outcome == Decide(env, old(Model()), r, valid)
      ensures Model() == Apply(env, old(Model()), r, valid)
    {
      hide Contracts.InsertContract, Contracts.UpdateContract, CurrentRevision, Diff;
      outcome := Decide(env, Tables(rows, revisions), r, valid);
      if !outcome.Applied? { return; }
      var changes := outcome.changes;
      for k := 0 to |changes|
        invariant Model() == ApplyChanges(old(Model()), changes[..k], r.actor)
      {
        assert changes[..k + 1][..k] == changes[..k];
        if changes[k].operation == Noop { continue; }
        if changes[k].operation == Create {
          InsertContract(changes[k].after, r.actor);
        } else if Find(rows, changes[k].after.key) != -1 {
          UpdateContract(changes[k].after, r.actor);
        }
      }
      assert changes[..|changes|] == changes;
    }
  }
}
