/** What applying declarations keeps: canonical forms, histories, untouched contracts, and when a second apply is idle. */
module ContractHistory {
  import opened Wrappers
  import opened StableSort
  import opened Contracts

  // ----- the canonical form is canonical -----

  lemma CanonicalFilterTwice(env: Env, f: Filter)
    requires Sound(env)
    ensures CanonicalFilter(env, CanonicalFilter(env, f)) == CanonicalFilter(env, f)
  {
    if f.value.Some? && f.value.value.Many? { SortTwice(env.leValue, f.value.value.items); }
  }

  /** Canonicalising again changes nothing. */
  lemma CanonicalTwice(env: Env, c: Contract)
    requires Sound(env)
    ensures Canonical(env, Canonical(env, c)) == Canonical(env, c)
  {
    var fs := CanonicalFilters(env, c.filters);
    var sorted := Sort(env.leFilter, fs);
    SortTwice(env.leCode, c.guardrails);
    SortTwice(env.leFilter, fs);
    forall f | f in sorted ensures CanonicalFilter(env, f) == f {
      SortContains(env.leFilter, fs, f);
      var i :| 0 <= i < |fs| && fs[i] == f;
      CanonicalFilterTwice(env, c.filters[i]);
    }
    hide Sort, CanonicalFilter;
    assert CanonicalFilters(env, sorted) == sorted;
    assert CanonicalReferences(env, CanonicalReferences(env, c.references)) == CanonicalReferences(env, c.references) by {
      ReferencesTwice(env, c.references);
    }
  }

  lemma ReferencesTwice(env: Env, r: References)
    requires Sound(env)
    ensures CanonicalReferences(env, CanonicalReferences(env, r)) == CanonicalReferences(env, r)
  {
  }

  lemma CanonicalAllTwice(env: Env, cs: seq<Contract>)
    requires Sound(env)
    ensures CanonicalAll(env, CanonicalAll(env, cs)) == CanonicalAll(env, cs)
  {
    hide Canonical;
    forall i | 0 <= i < |cs| ensures Canonical(env, Canonical(env, cs[i])) == Canonical(env, cs[i]) {
      CanonicalTwice(env, cs[i]);
    }
  }

  lemma DeclarationMembers(env: Env, cs: seq<Contract>, c: Contract)
    ensures c in CanonicalDeclaration(env, cs) <==> exists i :: 0 <= i < |cs| && c == Canonical(env, cs[i])
  {
    hide Canonical, Sort;
    SortContains(KeyOrder(env), CanonicalAll(env, cs), c);
    if c in CanonicalAll(env, cs) {
      var i :| 0 <= i < |cs| && CanonicalAll(env, cs)[i] == c;
    }
    if i :| 0 <= i < |cs| && c == Canonical(env, cs[i]) {
      assert CanonicalAll(env, cs)[i] == c;
    }
  }

  /** The canonical declaration is canonical too. */
  lemma DeclarationTwice(env: Env, cs: seq<Contract>)
    requires Sound(env)
    ensures CanonicalDeclaration(env, CanonicalDeclaration(env, cs)) == CanonicalDeclaration(env, cs)
  {
    var d := CanonicalDeclaration(env, cs);
    KeyOrderPreorder(env);
    SortTwice(KeyOrder(env), CanonicalAll(env, cs));
    forall c | c in d ensures Canonical(env, c) == c {
      DeclarationMembers(env, cs, c);
      var i :| 0 <= i < |cs| && c == Canonical(env, cs[i]);
      CanonicalTwice(env, cs[i]);
    }
    hide Canonical, Sort;
    assert CanonicalAll(env, d) == d;
  }

  lemma KeyOrderPreorder(env: Env)
    requires Sound(env)
    ensures TotalPreorder(KeyOrder(env))
  {
    var le := KeyOrder(env);
    forall a: Contract, b: Contract, c: Contract | le(a, b) && le(b, c) ensures le(a, c) {
      assert env.leKey(a.key, b.key) && env.leKey(b.key, c.key);
    }
    forall a: Contract, b: Contract ensures le(a, b) || le(b, a) {
      assert env.leKey(a.key, b.key) || env.leKey(b.key, a.key);
    }
  }

  // ----- rows by key -----

  function RowOf(rows: seq<Row>, key: string): Option<Row> {
    var i := Find(rows, key);
    if i == -1 then None else Some(rows[i])
  }

  ghost predicate DistinctRows(rows: seq<Row>) {
    forall i, j :: 0 <= i < j < |rows| ==> rows[i].contract.key != rows[j].contract.key
  }

  lemma RowAt(rows: seq<Row>, i: nat)
    requires DistinctRows(rows) && i < |rows|
    ensures Find(rows, rows[i].contract.key) == i && RowOf(rows, rows[i].contract.key) == Some(rows[i])
  {
    var j := Find(rows, rows[i].contract.key);
    assert j != -1;
  }

  lemma NoRow(rows: seq<Row>, key: string)
    requires forall j :: 0 <= j < |rows| ==> rows[j].contract.key != key
    ensures Find(rows, key) == -1 && RowOf(rows, key) == None
  {
  }

  /** The row under a key after one row was added or replaced. */
  lemma RowAfterChange(rows: seq<Row>, rows': seq<Row>, changed: Row, key: string)
    requires DistinctRows(rows) && DistinctRows(rows')
    requires exists i :: 0 <= i < |rows'| && rows'[i] == changed
    requires forall r: Row :: r.contract.key != changed.contract.key ==> (r in rows <==> r in rows')
    ensures RowOf(rows', key) == if key == changed.contract.key then Some(changed) else RowOf(rows, key)
  {
    if key == changed.contract.key {
      var i :| 0 <= i < |rows'| && rows'[i] == changed;
      RowAt(rows', i);
    } else if Find(rows, key) != -1 {
      var r := rows[Find(rows, key)];
      assert r in rows && r in rows';
      var i :| 0 <= i < |rows'| && rows'[i] == r;
      RowAt(rows', i);
    } else {
      assert forall r: Row :: r in rows ==> r.contract.key != key;
      assert forall j :: 0 <= j < |rows'| ==> rows'[j] in rows';
      NoRow(rows', key);
    }
  }

  // ----- histories -----

  lemma HistoryAppend(revisions: seq<Revision>, r: Revision, key: string)
    ensures History(revisions + [r], key) == History(revisions, key) + if r.key == key then [r] else []
  {
    assert (revisions + [r])[..|revisions|] == revisions;
  }

  /** Revisions 1 to n, the first one the creation by its creator, archiving marked as such, the last one the row itself. */
  predicate HistoryOf(row: Row, h: seq<Revision>) {
    && |h| == row.revision >= 1
    && (forall i :: 0 <= i < |h| ==> h[i].number == i + 1 && h[i].key == row.contract.key)
    && (forall i :: 0 <= i < |h| ==> h[i].snapshot == Store(h[i].hash))
    && (forall i :: 0 <= i < |h| ==>
          h[i].action == if i == 0 then Created else if h[i].snapshot.status.Archived? then ArchivedAction else Updated)
    && row.createdBy == h[0].actor
    && h[|h| - 1].snapshot == row.contract && h[|h| - 1].hash == row.hash
    && row.contract == Store(row.hash)
  }

  ghost predicate Consistent(t: Tables) {
    && DistinctRows(t.rows)
    && forall key :: match RowOf(t.rows, key)
                     case None => History(t.revisions, key) == []
                     case Some(row) => HistoryOf(row, History(t.revisions, key))
  }

  /** A change that was computed from these tables. */
  predicate Fits(t: Tables, c: Change) {
    c.key == c.after.key && (c.operation == Create <==> RowOf(t.rows, c.key).None?)
  }

  function RowAfter(o: Option<Row>, c: Change, actor: string): Option<Row> {
    if c.operation == Noop then o
    else if c.operation == Create then Some(Row(Store(c.after), 1, c.after, actor))
    else if o.None? then None
    else Some(Row(Store(c.after), o.value.revision + 1, c.after, o.value.createdBy))
  }

  lemma ChangeRow(t: Tables, c: Change, actor: string, key: string)
    requires DistinctRows(t.rows) && Fits(t, c)
    ensures var t' := ApplyChange(t, c, actor);
            && DistinctRows(t'.rows)
            && RowOf(t'.rows, key) == if key == c.key then RowAfter(RowOf(t.rows, key), c, actor) else RowOf(t.rows, key)
  {
    var t' := ApplyChange(t, c, actor);
    if c.operation == Create {
      assert t'.rows[|t.rows|] == Row(Store(c.after), 1, c.after, actor);
      RowAfterChange(t.rows, t'.rows, Row(Store(c.after), 1, c.after, actor), key);
    } else if c.operation == Update {
      var i := Find(t.rows, c.key);
      forall r: Row | r.contract.key != c.key ensures r in t.rows <==> r in t'.rows {
        if r in t.rows {
          var j :| 0 <= j < |t.rows| && t.rows[j] == r;
          assert t'.rows[j] == r;
        }
      }
      RowAfterChange(t.rows, t'.rows, t'.rows[i], key);
    }
  }

  lemma ChangeHistory(t: Tables, c: Change, actor: string, key: string)
    requires Fits(t, c)
    ensures var h, h' := History(t.revisions, key), History(ApplyChange(t, c, actor).revisions, key);
            if key != c.key || c.operation == Noop then h' == h
            else if c.operation == Create then h' == h + [Revision(key, 1, Created, c.after, Store(c.after), actor)]
            else h' == h + [Revision(key, RowOf(t.rows, key).value.revision + 1,
                                     if c.after.status.Archived? then ArchivedAction else Updated, c.after, Store(c.after), actor)]
  {
    hide History;
    var t' := ApplyChange(t, c, actor);
    if c.operation != Noop {
      var r := t'.revisions[|t'.revisions| - 1];
      assert t'.revisions == t.revisions + [r];
      HistoryAppend(t.revisions, r, key);
    }
  }

  lemma ChangeConsistent(t: Tables, c: Change, actor: string)
    requires Consistent(t) && Fits(t, c)
    ensures Consistent(ApplyChange(t, c, actor))
  {
    var t' := ApplyChange(t, c, actor);
    hide History, RowOf, ApplyChange, DistinctRows;
    forall key ensures DistinctRows(t'.rows)
    ensures match RowOf(t'.rows, key)
            case None => History(t'.revisions, key) == []
            case Some(row) => HistoryOf(row, History(t'.revisions, key))
    {
      ChangeRow(t, c, actor, key);
      ChangeHistory(t, c, actor, key);
      if key == c.key && c.operation != Noop {
        RowKey(t.rows, key);
        HistoryStep(RowOf(t.rows, key), History(t.revisions, key), c, actor);
      }
    }
    ChangeRow(t, c, actor, "");
  }

  lemma RowKey(rows: seq<Row>, key: string)
    ensures RowOf(rows, key).Some? ==> RowOf(rows, key).value.contract.key == key
  {
  }

  function Recorded(c: Change, number: int, actor: string): Revision {
    Revision(c.key, number, if c.operation == Create then Created else if c.after.status.Archived? then ArchivedAction else Updated,
             c.after, Store(c.after), actor)
  }

  lemma HistoryStep(o: Option<Row>, h: seq<Revision>, c: Change, actor: string)
    requires c.key == c.after.key && c.operation != Noop
    requires c.operation == Create <==> o.None?
    requires match o { case None => h == [] case Some(row) => row.contract.key == c.key && HistoryOf(row, h) }
    ensures RowAfter(o, c, actor).Some?
    ensures HistoryOf(RowAfter(o, c, actor).value, h + [Recorded(c, if o.None? then 1 else o.value.revision + 1, actor)])
  {
  }

  // ----- all changes of one request -----

  ghost predicate DistinctChanges(cs: seq<Change>) {
    forall i, j :: 0 <= i < j < |cs| ==> cs[i].key != cs[j].key
  }

  ghost predicate AllFit(t: Tables, cs: seq<Change>) {
    DistinctChanges(cs) && forall c :: c in cs ==> Fits(t, c)
  }

  predicate Touches(cs: seq<Change>, key: string) {
    exists c :: c in cs && c.key == key
  }

  /** Keys that no change names keep their row and their history. */
  lemma {:induction false} Untouched(t: Tables, cs: seq<Change>, actor: string, key: string)
    requires Consistent(t) && AllFit(t, cs)
    ensures Consistent(ApplyChanges(t, cs, actor))
    ensures !Touches(cs, key) ==>
              && RowOf(ApplyChanges(t, cs, actor).rows, key) == RowOf(t.rows, key)
              && History(ApplyChanges(t, cs, actor).revisions, key) == History(t.revisions, key)
    decreases |cs|
  {
    hide Consistent, History, RowOf, ApplyChange, HistoryOf;
    if cs != [] {
      var init, c := cs[..|cs| - 1], cs[|cs| - 1];
      assert AllFit(t, init) && c in cs;
      Untouched(t, init, actor, key);
      Untouched(t, init, actor, c.key);
      var mid := ApplyChanges(t, init, actor);
      assert !Touches(init, c.key) by {
        forall x | x in init ensures x.key != c.key { var i :| 0 <= i < |init| && init[i] == x; assert cs[i] == x; }
      }
      assert Fits(mid, c);
      ConsistentRows(mid);
      ChangeRow(mid, c, actor, key);
      ChangeHistory(mid, c, actor, key);
      ChangeConsistent(mid, c, actor);
      assert !Touches(cs, key) ==> c.key != key && !Touches(init, key);
    }
  }

  lemma ConsistentRows(t: Tables)
    requires Consistent(t)
    ensures DistinctRows(t.rows)
  {
  }

  /** Each change has its effect on its own key. */
  lemma {:induction false} Effect(t: Tables, cs: seq<Change>, actor: string, i: nat)
    requires Consistent(t) && AllFit(t, cs) && i < |cs|
    ensures RowOf(ApplyChanges(t, cs, actor).rows, cs[i].key) == RowAfter(RowOf(t.rows, cs[i].key), cs[i], actor)
    decreases |cs|
  {
    hide Consistent, History, RowOf, ApplyChange, HistoryOf, RowAfter;
    var init, c := cs[..|cs| - 1], cs[|cs| - 1];
    assert AllFit(t, init) && c in cs;
    Untouched(t, init, actor, c.key);
    var mid := ApplyChanges(t, init, actor);
    assert !Touches(init, c.key) by {
      forall x | x in init ensures x.key != c.key { var j :| 0 <= j < |init| && init[j] == x; assert cs[j] == x; }
    }
    ConsistentRows(mid);
    ChangeRow(mid, c, actor, cs[i].key);
    if i < |cs| - 1 {
      Effect(t, init, actor, i);
    }
  }

  /** Each change that is no noop appends one revision to the history of its own key. */
  lemma {:induction false} HistoryEffect(t: Tables, cs: seq<Change>, actor: string, i: nat)
    requires Consistent(t) && AllFit(t, cs) && i < |cs|
    ensures var before, h := RowOf(t.rows, cs[i].key), History(t.revisions, cs[i].key);
            History(ApplyChanges(t, cs, actor).revisions, cs[i].key)
            == if cs[i].operation == Noop then h else h + [Recorded(cs[i], if before.None? then 1 else before.value.revision + 1, actor)]
    decreases |cs|
  {
    hide Consistent, History, RowOf, ApplyChange, HistoryOf, RowAfter;
    var init, c := cs[..|cs| - 1], cs[|cs| - 1];
    assert AllFit(t, init) && c in cs;
    Untouched(t, init, actor, c.key);
    var mid := ApplyChanges(t, init, actor);
    assert !Touches(init, c.key) by {
      forall x | x in init ensures x.key != c.key { var j :| 0 <= j < |init| && init[j] == x; assert cs[j] == x; }
    }
    ChangeHistory(mid, c, actor, cs[i].key);
    if i < |cs| - 1 {
      HistoryEffect(t, init, actor, i);
    }
  }

  // ----- one request -----

  lemma CanonicalKeepsKey(env: Env, cs: seq<Contract>)
    requires DistinctKeys(cs)
    ensures DistinctKeys(CanonicalDeclaration(env, cs))
  {
    hide Canonical, Sort;
    var all := CanonicalAll(env, cs);
    assert DistinctKeys(all) by {
      forall i, j | 0 <= i < j < |all| ensures all[i].key != all[j].key {
        assert all[i].key == cs[i].key && all[j].key == cs[j].key by { KeyKept(env, cs[i]); KeyKept(env, cs[j]); }
      }
    }
    SortDistinct(KeyOrder(env), all);
  }

  lemma KeyKept(env: Env, c: Contract)
    ensures Canonical(env, c).key == c.key
  {
  }

  /** Sorting keeps keys distinct: a key that occurs twice would occur twice before. */
  lemma {:induction false} SortDistinct(le: (Contract, Contract) -> bool, cs: seq<Contract>)
    requires DistinctKeys(cs)
    ensures DistinctKeys(Sort(le, cs))
  {
    if cs != [] {
      SortDistinct(le, cs[1..]);
      forall x | x in Sort(le, cs[1..]) ensures x.key != cs[0].key {
        SortContains(le, cs[1..], x);
        var i :| 0 <= i < |cs[1..]| && cs[1..][i] == x;
        assert cs[i + 1] == x;
      }
      InsertDistinct(le, cs[0], Sort(le, cs[1..]));
    }
  }

  lemma {:induction false} InsertDistinct(le: (Contract, Contract) -> bool, c: Contract, cs: seq<Contract>)
    requires DistinctKeys(cs) && forall x :: x in cs ==> x.key != c.key
    ensures DistinctKeys(Insert(le, c, cs))
  {
    if cs != [] && !le(c, cs[0]) {
      InsertDistinct(le, c, cs[1..]);
      var tail := Insert(le, c, cs[1..]);
      InsertMembers(le, c, cs[1..]);
      forall j | 0 <= j < |tail| ensures tail[j].key != cs[0].key {
        assert tail[j] in multiset(tail);
        assert tail[j] == c || tail[j] in cs[1..];
      }
      assert cs[0] in cs;
    }
  }

  lemma DiffFits(env: Env, t: Tables, declaration: seq<Contract>)
    requires DistinctKeys(declaration)
    ensures AllFit(t, Diff(env, t, declaration))
  {
    CanonicalKeepsKey(env, declaration);
    var cs := CanonicalDeclaration(env, declaration);
    hide Canonical, Sort, CanonicalDeclaration, Find;
    var changes := ChangesOf(env, t.rows, cs);
    forall c | c in changes ensures Fits(t, c) {
      var i :| 0 <= i < |changes| && changes[i] == c;
    }
  }

  /** One apply, whatever its outcome, keeps every history in step with its row. */
  lemma ApplyConsistent(env: Env, t: Tables, r: Request, valid: bool)
    requires Consistent(t) && DistinctKeys(r.declaration)
    ensures Consistent(Apply(env, t, r, valid))
  {
    hide Consistent, ApplyChanges, Diff;
    DiffFits(env, t, r.declaration);
    Untouched(t, Diff(env, t, r.declaration), r.actor, "");
  }

  predicate Names(declaration: seq<Contract>, key: string) {
    exists c :: c in declaration && c.key == key
  }

  /** A contract that the declaration does not name is unchanged, and so is its history. */
  lemma OthersUntouched(env: Env, t: Tables, r: Request, valid: bool, key: string)
    requires Consistent(t) && DistinctKeys(r.declaration) && !Names(r.declaration, key)
    ensures RowOf(Apply(env, t, r, valid).rows, key) == RowOf(t.rows, key)
    ensures History(Apply(env, t, r, valid).revisions, key) == History(t.revisions, key)
  {
    hide Consistent, ApplyChanges, RowOf, History;
    DiffFits(env, t, r.declaration);
    var changes := Diff(env, t, r.declaration);
    Untouched(t, changes, r.actor, key);
    forall c | c in changes ensures c.key != key {
      var i :| 0 <= i < |changes| && changes[i] == c;
      DeclarationMembers(env, r.declaration, c.after);
      var j :| 0 <= j < |r.declaration| && c.after == Canonical(env, r.declaration[j]);
      KeyKept(env, r.declaration[j]);
      assert r.declaration[j] in r.declaration;
    }
  }

  // ----- runs -----

  function Run(env: Env, requests: seq<(Request, bool)>): Tables {
    if requests == [] then Tables([], [])
    else var last := requests[|requests| - 1]; Apply(env, Run(env, requests[..|requests| - 1]), last.0, last.1)
  }

  /**
   * On every sequence of applies, each contract's history is the revisions 1 to n, the first one a
   * creation, the last snapshot the current row; and the log only grows.
   */
  lemma {:induction false} HistoriesInStep(env: Env, requests: seq<(Request, bool)>)
    requires forall r :: r in requests ==> DistinctKeys(r.0.declaration)
    ensures Consistent(Run(env, requests))
    decreases |requests|
  {
    if requests == [] {
      assert History([], "") == [];
    } else {
      hide Consistent, Apply;
      HistoriesInStep(env, requests[..|requests| - 1]);
      var last := requests[|requests| - 1];
      assert last in requests;
      ApplyConsistent(env, Run(env, requests[..|requests| - 1]), last.0, last.1);
    }
  }
}
