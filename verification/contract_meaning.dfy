/** What the tables hold of a declaration that was applied, in the declaration's own terms. */
module ContractMeaning {
  import opened Wrappers
  import opened StableSort
  import opened Contracts
  import opened ContractHistory
  import opened ContractReapply

  // ----- a filter without the order of its values and its keys -----

  datatype ValueMeaning = NoValue | Single(scalar: Scalar) | Several(items: multiset<Scalar>)

  datatype FilterMeaning = FilterMeaning(property: string, op: string, value: ValueMeaning)

  function MeaningOf(f: Filter): FilterMeaning {
    FilterMeaning(f.property, f.op,
                  match f.value
                  case None => NoValue
                  case Some(One(scalar)) => Single(scalar)
                  case Some(Many(items)) => Several(multiset(items)))
  }

  function MeaningsOf(fs: seq<Filter>): (r: seq<FilterMeaning>)
    ensures |r| == |fs| && forall i :: 0 <= i < |fs| ==> r[i] == MeaningOf(fs[i])
  {
    if fs == [] then [] else [MeaningOf(fs[0])] + MeaningsOf(fs[1..])
  }

  /** The filters in the key order of the schema. */
  function Declare(fs: seq<Filter>): (r: seq<Filter>)
    ensures |r| == |fs| && forall i :: 0 <= i < |fs| ==> r[i] == fs[i].(layout := Declared)
  {
    if fs == [] then [] else [fs[0].(layout := Declared)] + Declare(fs[1..])
  }

  /** A link is kept unless it is empty. */
  predicate KeepsLink(declared: Option<string>, kept: Option<string>) {
    kept == if declared == Some("") then None else declared
  }

  /** `c` records the declared contract `d`: nothing lost, lists in ascending order, the sha in lower case. */
  ghost predicate Records(env: Env, d: Contract, c: Contract) {
    && c.key == d.key && c.terms == d.terms && c.status == d.status
    && multiset(c.guardrails) == multiset(d.guardrails) && Ascending(env.leCode, c.guardrails)
    && multiset(MeaningsOf(c.filters)) == multiset(MeaningsOf(d.filters))
    && Ascending(env.leFilter, Declare(c.filters))
    && (forall f :: f in c.filters && f.value.Some? && f.value.value.Many? ==> Ascending(env.leValue, f.value.value.items))
    && KeepsLink(d.references.issueUrl, c.references.issueUrl)
    && KeepsLink(d.references.prUrl, c.references.prUrl)
    && KeepsLink(d.references.deployUrl, c.references.deployUrl)
    && (match d.references.commitSha
        case None => c.references.commitSha == None
        case Some(sha) => c.references.commitSha == if sha == "" then None else Some(env.lower(sha)))
  }

  lemma MeaningsJoin(a: seq<Filter>, b: seq<Filter>)
    ensures MeaningsOf(a + b) == MeaningsOf(a) + MeaningsOf(b)
  {
  }

  lemma {:induction false} MeaningsInserted(le: (Filter, Filter) -> bool, f: Filter, fs: seq<Filter>)
    ensures multiset(MeaningsOf(Insert(le, f, fs))) == multiset(MeaningsOf(fs)) + multiset{MeaningOf(f)}
  {
    MeaningsJoin([f], fs);
    assert MeaningsOf([f]) == [MeaningOf(f)];
    if fs == [] || le(f, fs[0]) {
      assert [f] + [] == [f];
    } else {
      MeaningsInserted(le, f, fs[1..]);
      MeaningsJoin([fs[0]], Insert(le, f, fs[1..]));
      MeaningsJoin([fs[0]], fs[1..]);
      assert fs == [fs[0]] + fs[1..];
    }
  }

  lemma {:induction false} MeaningsSorted(le: (Filter, Filter) -> bool, fs: seq<Filter>)
    ensures multiset(MeaningsOf(Sort(le, fs))) == multiset(MeaningsOf(fs))
  {
    if fs != [] {
      MeaningsSorted(le, fs[1..]);
      MeaningsInserted(le, fs[0], Sort(le, fs[1..]));
      MeaningsJoin([fs[0]], fs[1..]);
      assert fs == [fs[0]] + fs[1..];
      assert MeaningsOf([fs[0]]) == [MeaningOf(fs[0])];
    }
  }

  /** Sorting the values of a filter, and forgetting its key order, keep its meaning. */
  lemma FilterKept(env: Env, f: Filter)
    ensures MeaningOf(CanonicalFilter(env, f)) == MeaningOf(f)
  {
    if f.value.Some? && f.value.value.Many? { SortMembers(env.leValue, f.value.value.items); }
  }

  lemma CanonicalMeanings(env: Env, fs: seq<Filter>)
    ensures multiset(MeaningsOf(StoredFilters(Sort(env.leFilter, CanonicalFilters(env, fs))))) == multiset(MeaningsOf(fs))
  {
    var canonical := CanonicalFilters(env, fs);
    forall i | 0 <= i < |fs| ensures MeaningOf(canonical[i]) == MeaningOf(fs[i]) { FilterKept(env, fs[i]); }
    MeaningsSorted(env.leFilter, canonical);
    hide Sort, CanonicalFilter, CanonicalFilters, MeaningsOf, StoredFilters;
    assert MeaningsOf(canonical) == MeaningsOf(fs);
    var sorted := Sort(env.leFilter, canonical);
    assert MeaningsOf(StoredFilters(sorted)) == MeaningsOf(sorted);
  }

  lemma SortedFilter(env: Env, fs: seq<Filter>, f: Filter)
    requires Sound(env) && AllLayout(fs, Declared) && f in Sort(env.leFilter, CanonicalFilters(env, fs))
    ensures f.layout == Declared && (f.value.Some? && f.value.value.Many? ==> Ascending(env.leValue, f.value.value.items))
  {
    var canonical := CanonicalFilters(env, fs);
    SortContains(env.leFilter, canonical, f);
    hide Sort, Ascending;
    var i :| 0 <= i < |canonical| && canonical[i] == f;
    assert fs[i] in fs;
    if fs[i].value.Some? && fs[i].value.value.Many? { SortAscending(env.leValue, fs[i].value.value.items); }
  }

  lemma FiltersRecorded(env: Env, fs: seq<Filter>)
    requires Sound(env) && AllLayout(fs, Declared)
    ensures var stored := StoredFilters(Sort(env.leFilter, CanonicalFilters(env, fs)));
            && multiset(MeaningsOf(stored)) == multiset(MeaningsOf(fs))
            && Ascending(env.leFilter, Declare(stored))
            && forall f :: f in stored && f.value.Some? && f.value.value.Many? ==> Ascending(env.leValue, f.value.value.items)
  {
    CanonicalMeanings(env, fs);
    SortAscending(env.leFilter, CanonicalFilters(env, fs));
    hide Sort, CanonicalFilter, CanonicalFilters, MeaningsOf, StoredFilters, Declare, Ascending, AllLayout, Sound;
    var sorted := Sort(env.leFilter, CanonicalFilters(env, fs));
    var stored := StoredFilters(sorted);
    forall i | 0 <= i < |sorted|
      ensures sorted[i].layout == Declared
      ensures sorted[i].value.Some? && sorted[i].value.value.Many? ==> Ascending(env.leValue, sorted[i].value.value.items)
    {
      SortedFilter(env, fs, sorted[i]);
    }
    assert Declare(stored) == sorted;
  }

  lemma StoredRecords(env: Env, d: Contract)
    requires Sound(env) && AllLayout(d.filters, Declared)
    ensures Records(env, d, Store(Canonical(env, d)))
  {
    SortMembers(env.leCode, d.guardrails);
    SortAscending(env.leCode, d.guardrails);
    FiltersRecorded(env, d.filters);
    hide Sort, StoredFilters, CanonicalFilters, MeaningsOf, Declare, Ascending;
  }

  // ----- rows that were written in canonical form -----

  ghost predicate WrittenCanonical(env: Env, t: Tables) {
    forall key :: RowOf(t.rows, key).Some? ==> Canonical(env, RowOf(t.rows, key).value.hash) == RowOf(t.rows, key).value.hash
  }

  lemma ApplyCanonical(env: Env, t: Tables, r: Request, valid: bool)
    requires Sound(env) && Consistent(t) && DistinctKeys(r.declaration) && WrittenCanonical(env, t)
    ensures WrittenCanonical(env, Apply(env, t, r, valid))
  {
    hide Consistent, ApplyChanges, RowOf, Canonical, CanonicalDeclaration, Find;
    DiffFits(env, t, r.declaration);
    var changes := Diff(env, t, r.declaration);
    var t' := Apply(env, t, r, valid);
    if t' != t {
      forall key | RowOf(t'.rows, key).Some? ensures Canonical(env, RowOf(t'.rows, key).value.hash) == RowOf(t'.rows, key).value.hash {
        Untouched(t, changes, r.actor, key);
        if Touches(changes, key) {
          var c :| c in changes && c.key == key;
          var i :| 0 <= i < |changes| && changes[i] == c;
          Effect(t, changes, r.actor, i);
          DeclarationMembers(env, r.declaration, c.after);
          var j :| 0 <= j < |r.declaration| && c.after == Canonical(env, r.declaration[j]);
          CanonicalTwice(env, r.declaration[j]);
        }
      }
    }
  }

  lemma {:induction false} RunCanonical(env: Env, requests: seq<(Request, bool)>)
    requires Sound(env) && forall r :: r in requests ==> DistinctKeys(r.0.declaration)
    ensures Consistent(Run(env, requests)) && WrittenCanonical(env, Run(env, requests))
    decreases |requests|
  {
    HistoriesInStep(env, requests);
    if requests != [] {
      hide Consistent, Apply, WrittenCanonical;
      RunCanonical(env, requests[..|requests| - 1]);
      var last := requests[|requests| - 1];
      assert last in requests;
      ApplyCanonical(env, Run(env, requests[..|requests| - 1]), last.0, last.1);
    }
  }

  /** An unchanged contract is stored just as the declaration says it. */
  lemma NoopStored(env: Env, t: Tables, d: Contract)
    requires Sound(env) && Consistent(t) && WrittenCanonical(env, t) && AllLayout(d.filters, Declared)
    requires RowOf(t.rows, d.key).Some? && Canonical(env, RowOf(t.rows, d.key).value.contract) == Canonical(env, d)
    ensures RowOf(t.rows, d.key).value.contract == Store(Canonical(env, d))
  {
    var row := RowOf(t.rows, d.key).value;
    StoredRow(t, d.key);
    CanonicalLayout(env, row.contract, Stored);
    CanonicalLayout(env, d, Declared);
    SameLayouts(Canonical(env, d).filters);
    hide Canonical, Consistent;
    StoreLayout(row.hash);
    assert row.hash.filters == [];
  }

  lemma RowHistory(t: Tables, key: string)
    requires Consistent(t)
    ensures match RowOf(t.rows, key)
            case None => History(t.revisions, key) == []
            case Some(row) => var h := History(t.revisions, key); |h| == row.revision >= 1 && h[|h| - 1].snapshot == row.contract
  {
    hide History;
  }

  /**
   * After a request was applied, on any sequence of applies, the row of every declared contract records
   * that contract, and so does the newest snapshot of its history.
   */
  lemma AppliedRecords(env: Env, requests: seq<(Request, bool)>, r: Request, valid: bool, d: Contract)
    requires Sound(env) && forall x :: x in requests ==> DistinctKeys(x.0.declaration)
    requires Parsed(r.declaration) && d in r.declaration && Decide(env, Run(env, requests), r, valid).Applied?
    ensures var t := Apply(env, Run(env, requests), r, valid);
            && RowOf(t.rows, d.key).Some? && Records(env, d, RowOf(t.rows, d.key).value.contract)
            && History(t.revisions, d.key) != []
            && Records(env, d, History(t.revisions, d.key)[|History(t.revisions, d.key)| - 1].snapshot)
  {
    hide *;
    RunCanonical(env, requests);
    ParsedFacts(r, d);
    var t := Run(env, requests);
    ApplyConsistent(env, t, r, valid);
    AppliedRow(env, t, r, valid, d);
    StoredRecords(env, d);
    RowHistory(Apply(env, t, r, valid), d.key);
  }

  lemma AppliedRow(env: Env, t: Tables, r: Request, valid: bool, d: Contract)
    requires Sound(env) && Consistent(t) && WrittenCanonical(env, t)
    requires Parsed(r.declaration) && d in r.declaration && Decide(env, t, r, valid).Applied?
    ensures var o := RowOf(Apply(env, t, r, valid).rows, d.key); o.Some? && o.value.contract == Store(Canonical(env, d))
  {
    assert AllLayout(d.filters, Declared);
    ParsedDistinct(r.declaration);
    hide Consistent, CanonicalDeclaration, Canonical, Find, ApplyChanges, Store, Diff, Parsed, WrittenCanonical, AllLayout;
    var i := DeclaredAt(env, r.declaration, d);
    var changes := Diff(env, t, r.declaration);
    DiffFits(env, t, r.declaration);
    DiffAt(env, t, r.declaration, i);
    Effect(t, changes, r.actor, i);
    hide AllFit;
    ChangedRow(env, t, d, changes[i], r.actor);
  }

  /** The place of a declared contract in the canonical declaration. */
  lemma DeclaredAt(env: Env, declaration: seq<Contract>, d: Contract) returns (i: nat)
    requires d in declaration
    ensures i < |CanonicalDeclaration(env, declaration)| && CanonicalDeclaration(env, declaration)[i] == Canonical(env, d)
    ensures Canonical(env, d).key == d.key
  {
    KeyKept(env, d);
    hide Canonical, CanonicalDeclaration;
    DeclarationMembers(env, declaration, Canonical(env, d));
    var j :| 0 <= j < |declaration| && declaration[j] == d;
    i :| 0 <= i < |CanonicalDeclaration(env, declaration)| && CanonicalDeclaration(env, declaration)[i] == Canonical(env, d);
  }

  lemma ChangedRow(env: Env, t: Tables, d: Contract, change: Change, actor: string)
    requires Sound(env) && Consistent(t) && WrittenCanonical(env, t) && AllLayout(d.filters, Declared)
    requires Canonical(env, d).key == d.key && change == ChangeOf(env, t.rows, Canonical(env, d))
    ensures var o := RowAfter(RowOf(t.rows, d.key), change, actor); o.Some? && o.value.contract == Store(Canonical(env, d))
  {
    hide Consistent, Canonical, Find, Store, WrittenCanonical, AllLayout;
    if change.operation == Noop {
      NoopStored(env, t, d);
    }
  }

  lemma DiffAt(env: Env, t: Tables, declaration: seq<Contract>, i: nat)
    requires i < |CanonicalDeclaration(env, declaration)|
    ensures |Diff(env, t, declaration)| == |CanonicalDeclaration(env, declaration)|
    ensures Diff(env, t, declaration)[i] == ChangeOf(env, t.rows, CanonicalDeclaration(env, declaration)[i])
  {
    hide CanonicalDeclaration, ChangeOf;
  }

  // ----- what one apply adds -----

  /** The change of a declared contract, told by the row before: a noop exactly when the row is stored as declared and has no filters. */
  lemma NoopIff(env: Env, t: Tables, d: Contract)
    requires Sound(env) && Consistent(t) && WrittenCanonical(env, t) && AllLayout(d.filters, Declared)
    ensures var o, change := RowOf(t.rows, d.key), ChangeOf(env, t.rows, Canonical(env, d));
            && (change.operation == Create <==> o.None?)
            && (change.operation == Noop <==> o.Some? && o.value.contract == Store(Canonical(env, d)) && d.filters == [])
  {
    KeyKept(env, d);
    CanonicalLayout(env, d, Declared);
    var o := RowOf(t.rows, d.key);
    if o.Some? {
      StoredRow(t, d.key);
      CanonicalLayout(env, o.value.contract, Stored);
      if Canonical(env, o.value.contract) == Canonical(env, d) {
        NoopStored(env, t, d);
        SameLayouts(Canonical(env, d).filters);
      } else if d.filters == [] {
        StoreLayout(Canonical(env, d));
        CanonicalTwice(env, d);
      }
    }
    hide Canonical, Consistent, WrittenCanonical, Store, AllLayout;
  }

  /** The row of a declared contract after an apply, told by its row before. */
  predicate Revised(before: Option<Row>, after: Row, d: Contract, actor: string) {
    match before
    case None => after.revision == 1 && after.createdBy == actor
    case Some(row) =>
      && after.createdBy == row.createdBy
      && after.revision == row.revision + if after.contract == row.contract && d.filters == [] then 0 else 1
  }

  /**
   * An applied request adds one revision, under its own actor, to the history of each declared contract
   * that is new, that it changes, or that has filters, and none to the others.
   */
  lemma AppliedRevision(env: Env, requests: seq<(Request, bool)>, r: Request, valid: bool, d: Contract)
    requires Sound(env) && forall x :: x in requests ==> DistinctKeys(x.0.declaration)
    requires Parsed(r.declaration) && d in r.declaration && Decide(env, Run(env, requests), r, valid).Applied?
    ensures var t := Run(env, requests);
            var t' := Apply(env, t, r, valid);
            var before, after := RowOf(t.rows, d.key), RowOf(t'.rows, d.key);
            var h, h' := History(t.revisions, d.key), History(t'.revisions, d.key);
            && after.Some? && Revised(before, after.value, d, r.actor)
            && h <= h' && |h'| == after.value.revision
            && (h' != h ==> h'[|h'| - 1].actor == r.actor)
  {
    hide *;
    RunCanonical(env, requests);
    AppliedStep(env, Run(env, requests), r, valid, d);
  }

  lemma ParsedFacts(r: Request, d: Contract)
    requires Parsed(r.declaration) && d in r.declaration
    ensures DistinctKeys(r.declaration) && AllLayout(d.filters, Declared)
  {
  }

  lemma ApplyIs(env: Env, t: Tables, r: Request, valid: bool)
    requires Decide(env, t, r, valid).Applied?
    ensures Apply(env, t, r, valid) == ApplyChanges(t, Diff(env, t, r.declaration), r.actor)
  {
    hide ApplyChanges, Diff, CurrentRevision, ChangesExisting;
  }

  lemma AppliedStep(env: Env, t: Tables, r: Request, valid: bool, d: Contract)
    requires Sound(env) && Consistent(t) && WrittenCanonical(env, t)
    requires Parsed(r.declaration) && d in r.declaration && Decide(env, t, r, valid).Applied?
    ensures var t' := Apply(env, t, r, valid);
            var before, after := RowOf(t.rows, d.key), RowOf(t'.rows, d.key);
            var h, h' := History(t.revisions, d.key), History(t'.revisions, d.key);
            && after.Some? && Revised(before, after.value, d, r.actor)
            && h <= h' && |h'| == after.value.revision
            && (h' != h ==> h'[|h'| - 1].actor == r.actor)
  {
    hide *;
    ParsedFacts(r, d);
    var i := DeclaredAt(env, r.declaration, d);
    var changes := Diff(env, t, r.declaration);
    DiffFits(env, t, r.declaration);
    DiffAt(env, t, r.declaration, i);
    ApplyIs(env, t, r, valid);
    ChangeIs(env, t, d);
    Effect(t, changes, r.actor, i);
    HistoryEffect(t, changes, r.actor, i);
    NoopIff(env, t, d);
    RowHistory(t, d.key);
    OneChange(t, Apply(env, t, r, valid), d, Canonical(env, d), changes[i], r.actor);
  }

  lemma ChangeIs(env: Env, t: Tables, d: Contract)
    ensures var change := ChangeOf(env, t.rows, Canonical(env, d)); change.key == d.key && change.after == Canonical(env, d)
  {
    KeyKept(env, d);
    hide Canonical, Find;
  }

  lemma OneChange(t: Tables, t': Tables, d: Contract, c: Contract, change: Change, actor: string)
    requires change.key == d.key && change.after == c
    requires var o := RowOf(t.rows, d.key);
             && (change.operation == Create <==> o.None?)
             && (change.operation == Noop <==> o.Some? && o.value.contract == Store(c) && d.filters == [])
    requires RowOf(t'.rows, d.key) == RowAfter(RowOf(t.rows, d.key), change, actor)
    requires var before, h := RowOf(t.rows, d.key), History(t.revisions, d.key);
             && |h| == (if before.None? then 0 else before.value.revision)
             && History(t'.revisions, d.key)
                == if change.operation == Noop then h else h + [Recorded(change, if before.None? then 1 else before.value.revision + 1, actor)]
    ensures var before, after := RowOf(t.rows, d.key), RowOf(t'.rows, d.key);
            var h, h' := History(t.revisions, d.key), History(t'.revisions, d.key);
            && after.Some? && Revised(before, after.value, d, actor)
            && h <= h' && |h'| == after.value.revision
            && (h' != h ==> h'[|h'| - 1].actor == actor)
  {
    hide History, RowOf, Store;
  }

  // ----- which requests are refused -----

  /** With confirmation, the request would revise this contract, which exists already. */
  predicate WouldRevise(env: Env, t: Tables, r: Request, d: Contract) {
    var before, after := RowOf(t.rows, d.key), RowOf(Apply(env, t, r.(confirm := true), true).rows, d.key);
    before.Some? && after.Some? && after.value.revision > before.value.revision
  }

  lemma RevisesIff(env: Env, t: Tables, r: Request, d: Contract)
    requires Sound(env) && Consistent(t) && WrittenCanonical(env, t) && Parsed(r.declaration) && d in r.declaration
    requires r.expected.Some? ==> r.expected.value == CurrentRevision(env, t)
    ensures WouldRevise(env, t, r, d) <==> ChangeOf(env, t.rows, Canonical(env, d)).operation == Update
  {
    var confirmed := r.(confirm := true);
    assert Decide(env, t, confirmed, true).Applied? by { hide CurrentRevision, Diff; }
    assert AllLayout(d.filters, Declared);
    hide CurrentRevision, Diff, Sound, Consistent, WrittenCanonical, Parsed, Decide, Canonical, History, RowOf, AllLayout, Apply;
    AppliedStep(env, t, confirmed, true, d);
    AppliedRow(env, t, confirmed, true, d);
    NoopIff(env, t, d);
    hide ChangeOf, Store;
  }

  /** The verdict on a request, on any sequence of applies. */
  lemma DecideIff(env: Env, requests: seq<(Request, bool)>, r: Request, valid: bool)
    requires Sound(env) && (forall x :: x in requests ==> DistinctKeys(x.0.declaration)) && Parsed(r.declaration)
    ensures var t := Run(env, requests);
            var verdict := Decide(env, t, r, valid);
            && (verdict == Invalid <==> !valid)
            && (verdict == Conflict <==> valid && r.expected.Some? && r.expected.value != CurrentRevision(env, t))
            && (verdict == ConfirmationRequired <==>
                  && valid && (r.expected.Some? ==> r.expected.value == CurrentRevision(env, t))
                  && !r.confirm && exists d :: d in r.declaration && WouldRevise(env, t, r, d))
            && (verdict.Applied? ==> verdict.changes == Diff(env, t, r.declaration))
  {
    hide Sound;
    RunCanonical(env, requests);
    var t := Run(env, requests);
    hide Run, CurrentRevision, Consistent, WrittenCanonical, Parsed, ChangeOf, Canonical, CanonicalDeclaration, WouldRevise;
    if valid && (r.expected.Some? ==> r.expected.value == CurrentRevision(env, t)) {
      UpdatesIff(env, t, r);
    }
    hide ChangesExisting, Diff;
  }

  lemma UpdatesIff(env: Env, t: Tables, r: Request)
    requires Sound(env) && Consistent(t) && WrittenCanonical(env, t) && Parsed(r.declaration)
    requires r.expected.Some? ==> r.expected.value == CurrentRevision(env, t)
    ensures ChangesExisting(Diff(env, t, r.declaration)) <==> exists d :: d in r.declaration && WouldRevise(env, t, r, d)
  {
    hide Sound, CurrentRevision, Consistent, WrittenCanonical, Parsed, ChangeOf, Canonical, CanonicalDeclaration, WouldRevise, Diff;
    var changes, cs := Diff(env, t, r.declaration), CanonicalDeclaration(env, r.declaration);
    if ChangesExisting(changes) {
      var c :| c in changes && c.operation == Update;
      var i :| 0 <= i < |changes| && changes[i] == c;
      DiffSize(env, t, r.declaration);
      DiffAt(env, t, r.declaration, i);
      DeclarationMembers(env, r.declaration, cs[i]);
      var j :| 0 <= j < |r.declaration| && cs[i] == Canonical(env, r.declaration[j]);
      RevisesIff(env, t, r, r.declaration[j]);
    }
    if d :| d in r.declaration && WouldRevise(env, t, r, d) {
      var i := DeclaredAt(env, r.declaration, d);
      DiffAt(env, t, r.declaration, i);
      RevisesIff(env, t, r, d);
      assert changes[i] in changes;
    }
  }

  lemma DiffSize(env: Env, t: Tables, declaration: seq<Contract>)
    ensures |Diff(env, t, declaration)| == |CanonicalDeclaration(env, declaration)|
  {
    hide CanonicalDeclaration;
  }

  // ----- the order of contracts -----

  function ContractKeys(cs: seq<Contract>): seq<string> {
    if cs == [] then [] else [cs[0].key] + ContractKeys(cs[1..])
  }

  function ChangeKeys(changes: seq<Change>): seq<string> {
    if changes == [] then [] else [changes[0].key] + ChangeKeys(changes[1..])
  }

  lemma {:induction false} InsertedKeys(le: (Contract, Contract) -> bool, c: Contract, cs: seq<Contract>)
    ensures multiset(ContractKeys(Insert(le, c, cs))) == multiset(ContractKeys(cs)) + multiset{c.key}
  {
    if cs == [] {
      assert [c][1..] == [];
      assert ContractKeys([c]) == [c.key];
    } else if le(c, cs[0]) {
      assert ([c] + cs)[1..] == cs;
    } else {
      InsertedKeys(le, c, cs[1..]);
      var tail := Insert(le, c, cs[1..]);
      assert ([cs[0]] + tail)[1..] == tail;
    }
  }

  lemma {:induction false} SortedKeys(le: (Contract, Contract) -> bool, cs: seq<Contract>)
    ensures multiset(ContractKeys(Sort(le, cs))) == multiset(ContractKeys(cs))
  {
    if cs != [] {
      SortedKeys(le, cs[1..]);
      InsertedKeys(le, cs[0], Sort(le, cs[1..]));
    }
  }

  lemma {:induction false} CanonicalKeys(env: Env, cs: seq<Contract>)
    ensures ContractKeys(CanonicalAll(env, cs)) == ContractKeys(cs)
  {
    hide Canonical;
    if cs != [] {
      CanonicalKeys(env, cs[1..]);
      KeyKept(env, cs[0]);
    }
  }

  lemma KeyKept(env: Env, c: Contract)
    ensures Canonical(env, c).key == c.key
  {
  }

  lemma {:induction false} KeysOfChanges(env: Env, rows: seq<Row>, cs: seq<Contract>)
    ensures ChangeKeys(ChangesOf(env, rows, cs)) == ContractKeys(cs)
  {
    if cs != [] { KeysOfChanges(env, rows, cs[1..]); }
  }

  /** A declaration is applied change by change in the order of its keys, one for each contract. */
  lemma ChangesInOrder(env: Env, t: Tables, r: Request, valid: bool)
    requires Sound(env) && Decide(env, t, r, valid).Applied?
    ensures var changes := Decide(env, t, r, valid).changes;
            && multiset(ChangeKeys(changes)) == multiset(ContractKeys(r.declaration))
            && forall i, j :: 0 <= i < j < |changes| ==> env.leKey(changes[i].key, changes[j].key)
  {
    hide Canonical, SnapshotOf, CurrentRevision, Sort;
    var cs := CanonicalDeclaration(env, r.declaration);
    SortedKeys(KeyOrder(env), CanonicalAll(env, r.declaration));
    CanonicalKeys(env, r.declaration);
    KeysOfChanges(env, t.rows, cs);
    var changes := Decide(env, t, r, valid).changes;
    KeysAscend(env, r.declaration);
    forall i, j | 0 <= i < j < |changes| ensures env.leKey(changes[i].key, changes[j].key) {
      assert changes[i].key == cs[i].key && changes[j].key == cs[j].key;
    }
  }

  lemma KeysAscend(env: Env, declaration: seq<Contract>)
    requires Sound(env)
    ensures var cs := CanonicalDeclaration(env, declaration); forall i, j :: 0 <= i < j < |cs| ==> env.leKey(cs[i].key, cs[j].key)
  {
    hide Canonical, Sort;
    var order, all := KeyOrder(env), CanonicalAll(env, declaration);
    assert forall a: Contract, b: Contract {:trigger order(a, b)} :: order(a, b) == env.leKey(a.key, b.key);
    SortAscending(order, all);
    var cs := Sort(order, all);
    forall i, j | 0 <= i < j < |cs| ensures env.leKey(cs[i].key, cs[j].key) { assert order(cs[i], cs[j]); }
  }

  /** The current revision is the digest of the canonical form of every row, in the order of their keys. */
  lemma CurrentIs(env: Env, t: Tables)
    requires Sound(env)
    ensures var current := CurrentRevision(env, t);
            && |current| == |t.rows|
            && (forall i, j :: 0 <= i < j < |current| ==> env.leKey(current[i].key, current[j].key))
            && (forall c :: c in current <==> exists row :: row in t.rows && c == Canonical(env, row.contract))
  {
    hide Canonical, Sort;
    var all := CanonicalAll(env, RowContracts(t.rows));
    KeysAscend(env, all);
    SortMembers(KeyOrder(env), CanonicalAll(env, all));
    forall c ensures c in CurrentRevision(env, t) <==> exists row :: row in t.rows && c == Canonical(env, row.contract) {
      SortContains(KeyOrder(env), CanonicalAll(env, all), c);
      forall row | row in t.rows ensures Canonical(env, Canonical(env, row.contract)) == Canonical(env, row.contract) {
        CanonicalTwice(env, row.contract);
      }
      if row :| row in t.rows && c == Canonical(env, row.contract) {
        var i :| 0 <= i < |t.rows| && t.rows[i] == row;
        assert CanonicalAll(env, all)[i] == c;
      }
      if c in CanonicalAll(env, all) {
        var i :| 0 <= i < |all| && CanonicalAll(env, all)[i] == c;
        assert t.rows[i] in t.rows;
      }
    }
  }
}
