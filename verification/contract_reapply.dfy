/** Applying a declaration again, and what an expected revision protects. */
module ContractReapply {
  import opened Wrappers
  import opened StableSort
  import opened Contracts
  import opened ContractHistory

  // ----- the log only grows -----

  lemma {:induction false} ChangesAppend(t: Tables, cs: seq<Change>, actor: string)
    ensures t.revisions <= ApplyChanges(t, cs, actor).revisions
    decreases |cs|
  {
    if cs != [] {
      ChangesAppend(t, cs[..|cs| - 1], actor);
      assert ApplyChanges(t, cs[..|cs| - 1], actor).revisions <= ApplyChanges(t, cs, actor).revisions;
    }
  }

  /** No apply rewrites or removes a revision. */
  lemma RevisionsAppendOnly(env: Env, t: Tables, r: Request, valid: bool)
    ensures t.revisions <= Apply(env, t, r, valid).revisions
  {
    hide Diff, ApplyChanges;
    ChangesAppend(t, Diff(env, t, r.declaration), r.actor);
  }

  // ----- layouts -----

  lemma CanonicalLayout(env: Env, c: Contract, layout: Layout)
    requires AllLayout(c.filters, layout)
    ensures AllLayout(Canonical(env, c).filters, layout)
    ensures Canonical(env, c).filters == [] <==> c.filters == []
  {
    var fs := CanonicalFilters(env, c.filters);
    SortMembers(env.leFilter, fs);
    forall f | f in Canonical(env, c).filters ensures f.layout == layout {
      SortContains(env.leFilter, fs, f);
      var i :| 0 <= i < |fs| && fs[i] == f;
      assert c.filters[i] in c.filters;
    }
  }

  lemma StoreLayout(c: Contract)
    ensures AllLayout(Store(c).filters, Stored)
    ensures c.filters == [] ==> Store(c) == c
  {
  }

  /** What a stored contract reads back as is the declared one exactly when it has no filters. */
  lemma ReadBack(env: Env, c: Contract, stored: Contract)
    requires Sound(env) && AllLayout(c.filters, Declared) && Canonical(env, c) == c && stored == Store(c)
    ensures Canonical(env, stored) == c <==> c.filters == []
  {
    StoreLayout(c);
    CanonicalLayout(env, stored, Stored);
    hide Canonical, Sort;
    if c.filters != [] {
      assert stored.filters != [];
      assert Canonical(env, stored).filters[0] in Canonical(env, stored).filters;
      assert c.filters[0] in c.filters;
    }
  }

  // ----- the diff after an apply -----

  lemma ParsedMember(env: Env, declaration: seq<Contract>, c: Contract)
    requires Sound(env) && Parsed(declaration) && c in CanonicalDeclaration(env, declaration)
    ensures AllLayout(c.filters, Declared) && Canonical(env, c) == c
  {
    hide Canonical, CanonicalDeclaration, AllLayout;
    DeclarationMembers(env, declaration, c);
    var i :| 0 <= i < |declaration| && c == Canonical(env, declaration[i]);
    assert declaration[i] in declaration;
    CanonicalLayout(env, declaration[i], Declared);
    CanonicalTwice(env, declaration[i]);
  }

  lemma StoredRow(t: Tables, key: string)
    requires Consistent(t) && RowOf(t.rows, key).Some?
    ensures var row := RowOf(t.rows, key).value; row.contract == Store(row.hash) && AllLayout(row.contract.filters, Stored)
  {
    hide History;
  }

  /** Right after an apply, a contract of the declaration is a noop exactly when it has no target filters. */
  lemma NoopIffNoFilters(env: Env, t: Tables, r: Request, valid: bool, i: nat)
    requires Sound(env) && Consistent(t) && Parsed(r.declaration)
    requires Decide(env, t, r, valid).Applied? && i < |CanonicalDeclaration(env, r.declaration)|
    ensures var c := CanonicalDeclaration(env, r.declaration)[i];
            ChangeOf(env, Apply(env, t, r, valid).rows, c).operation == if c.filters == [] then Noop else Update
  {
    var c := CanonicalDeclaration(env, r.declaration)[i];
    var changes := Diff(env, t, r.declaration);
    assert changes[i] == ChangeOf(env, t.rows, c) && changes[i].key == c.key;
    hide CanonicalDeclaration, Canonical, Find, Consistent, ApplyChanges, Store, Diff, Parsed;
    DiffFits(env, t, r.declaration) by { assert DistinctKeys(r.declaration) by { ParsedDistinct(r.declaration); } }
    ParsedMember(env, r.declaration, c);
    Effect(t, changes, r.actor, i);
    var before, after := RowOf(t.rows, c.key), RowOf(Apply(env, t, r, valid).rows, c.key);
    if changes[i].operation == Noop {
      StoredRow(t, c.key);
      CanonicalLayout(env, before.value.contract, Stored);
      SameLayouts(c.filters);
    } else {
      ReadBack(env, c, Store(c));
    }
  }

  lemma ParsedDistinct(cs: seq<Contract>)
    requires Parsed(cs)
    ensures DistinctKeys(cs)
  {
  }

  lemma FirstLayout(fs: seq<Filter>, layout: Layout)
    requires AllLayout(fs, layout)
    ensures fs != [] ==> fs[0].layout == layout
  {
    assert fs != [] ==> fs[0] in fs;
  }

  lemma SameLayouts(fs: seq<Filter>)
    requires AllLayout(fs, Stored) && AllLayout(fs, Declared)
    ensures fs == []
  {
    FirstLayout(fs, Stored);
    FirstLayout(fs, Declared);
  }

  predicate NoFilters(declaration: seq<Contract>) {
    forall c :: c in declaration ==> c.filters == []
  }

  lemma CanonicalNoFilters(env: Env, declaration: seq<Contract>)
    ensures NoFilters(declaration) <==> forall c :: c in CanonicalDeclaration(env, declaration) ==> c.filters == []
  {
    hide Canonical, CanonicalDeclaration;
    forall c | c in CanonicalDeclaration(env, declaration)
      ensures exists i :: 0 <= i < |declaration| && c == Canonical(env, declaration[i]) && (c.filters == [] <==> declaration[i].filters == [])
    {
      DeclarationMembers(env, declaration, c);
      var i :| 0 <= i < |declaration| && c == Canonical(env, declaration[i]);
      FilterCount(env, declaration[i]);
    }
    forall i | 0 <= i < |declaration|
      ensures Canonical(env, declaration[i]) in CanonicalDeclaration(env, declaration)
      ensures Canonical(env, declaration[i]).filters == [] <==> declaration[i].filters == []
    {
      DeclarationMembers(env, declaration, Canonical(env, declaration[i]));
      FilterCount(env, declaration[i]);
    }
  }

  lemma FilterCount(env: Env, c: Contract)
    ensures Canonical(env, c).filters == [] <==> c.filters == []
  {
    SortMembers(env.leFilter, CanonicalFilters(env, c.filters));
  }

  lemma {:induction false} AllNoop(t: Tables, cs: seq<Change>, actor: string)
    requires forall c :: c in cs ==> c.operation == Noop
    ensures ApplyChanges(t, cs, actor) == t
    decreases |cs|
  {
    if cs != [] { AllNoop(t, cs[..|cs| - 1], actor); assert cs[|cs| - 1] in cs; }
  }

  /** An update changes the tables: it appends a revision. */
  lemma {:induction false} UpdateAppends(t: Tables, cs: seq<Change>, actor: string, i: nat)
    requires Consistent(t) && AllFit(t, cs) && i < |cs| && cs[i].operation == Update
    ensures ApplyChanges(t, cs, actor) != t
  {
    hide Consistent, ApplyChanges, Find;
    Effect(t, cs, actor, i);
    assert cs[i] in cs;
  }

  /**
   * Applying the same declaration a second time: without confirmation it is refused, and with
   * confirmation it changes the tables, unless no contract of the declaration has target filters;
   * then it changes nothing.
   */
  lemma ReapplyIff(env: Env, t: Tables, r: Request, valid: bool, confirm: bool)
    requires Sound(env) && Consistent(t) && Parsed(r.declaration) && Decide(env, t, r, valid).Applied?
    ensures var t' := Apply(env, t, r, valid);
            var again := Request(r.declaration, confirm, None, r.actor);
            && (Decide(env, t', again, true).ConfirmationRequired? <==> !confirm && !NoFilters(r.declaration))
            && (Apply(env, t', again, true) == t' <==> !confirm || NoFilters(r.declaration))
  {
    hide Consistent, Apply, ApplyChanges, CanonicalDeclaration, ChangeOf, Parsed, AllFit, NoFilters, Decide;
    var cs := CanonicalDeclaration(env, r.declaration);
    var t' := Apply(env, t, r, valid);
    var changes := Diff(env, t', r.declaration);
    ParsedDistinct(r.declaration);
    ApplyConsistent(env, t, r, valid);
    DiffFits(env, t', r.declaration);
    CanonicalNoFilters(env, r.declaration);
    AgainUnfolds(env, t', r, confirm, changes);
    forall i | 0 <= i < |changes| ensures changes[i].operation == if cs[i].filters == [] then Noop else Update {
      NoopIffNoFilters(env, t, r, valid, i);
      assert changes[i] == ChangeOf(env, t'.rows, cs[i]);
    }
    hide Diff;
    if forall c :: c in cs ==> c.filters == [] {
      forall c | c in changes ensures c.operation == Noop {
        var i :| 0 <= i < |changes| && changes[i] == c;
        assert cs[i] in cs;
      }
      AllNoop(t', changes, r.actor);
    } else {
      var c :| c in cs && c.filters != [];
      var i :| 0 <= i < |cs| && cs[i] == c;
      assert changes[i] in changes;
      UpdateAppends(t', changes, r.actor, i);
    }
  }

  lemma AgainUnfolds(env: Env, t: Tables, r: Request, confirm: bool, changes: seq<Change>)
    requires changes == Diff(env, t, r.declaration)
    ensures var again := Request(r.declaration, confirm, None, r.actor);
            && Decide(env, t, again, true) == (if ChangesExisting(changes) && !confirm then ConfirmationRequired else Applied(changes))
            && Apply(env, t, again, true) == (if ChangesExisting(changes) && !confirm then t else ApplyChanges(t, changes, r.actor))
  {
    hide Diff, ApplyChanges, ChangesExisting;
  }

  // ----- the expected revision -----

  lemma RevisionMember(env: Env, t: Tables, c: Contract)
    requires Sound(env) && Consistent(t)
    ensures c in CurrentRevision(env, t) <==> SnapshotOf(env, t.rows, c.key) == Some(c)
  {
    var contracts := RowContracts(t.rows);
    ConsistentRows(t);
    CanonicalAllTwice(env, contracts);
    DeclarationMembers(env, CanonicalAll(env, contracts), c);
    hide Canonical, Consistent, CanonicalDeclaration;
    forall i | 0 <= i < |t.rows| ensures Canonical(env, CanonicalAll(env, contracts)[i]) == Canonical(env, t.rows[i].contract)
    ensures SnapshotOf(env, t.rows, t.rows[i].contract.key) == Some(Canonical(env, t.rows[i].contract))
    ensures Canonical(env, t.rows[i].contract).key == t.rows[i].contract.key
    {
      assert CanonicalAll(env, CanonicalAll(env, contracts))[i] == Canonical(env, CanonicalAll(env, contracts)[i]);
      RowAt(t.rows, i);
      KeyKept(env, t.rows[i].contract);
    }
  }

  /** Under one revision a declaration has one diff. */
  lemma SameRevisionSameDiff(env: Env, shown: Tables, now: Tables, declaration: seq<Contract>)
    requires Sound(env) && Consistent(shown) && Consistent(now)
    requires CurrentRevision(env, shown) == CurrentRevision(env, now)
    ensures Diff(env, shown, declaration) == Diff(env, now, declaration)
  {
    hide CurrentRevision, Consistent, CanonicalDeclaration, Canonical, Find;
    forall key: string ensures SnapshotOf(env, shown.rows, key) == SnapshotOf(env, now.rows, key) {
      SameSnapshot(env, shown, now, key);
      SameSnapshot(env, now, shown, key);
    }
    var cs := CanonicalDeclaration(env, declaration);
    assert forall i :: 0 <= i < |cs| ==> ChangeOf(env, shown.rows, cs[i]) == ChangeOf(env, now.rows, cs[i]);
    hide ChangeOf;
    assert Diff(env, shown, declaration) == Diff(env, now, declaration);
  }

  lemma SameSnapshot(env: Env, a: Tables, b: Tables, key: string)
    requires Sound(env) && Consistent(a) && Consistent(b) && CurrentRevision(env, a) == CurrentRevision(env, b)
    ensures SnapshotOf(env, a.rows, key).Some? ==> SnapshotOf(env, b.rows, key) == SnapshotOf(env, a.rows, key)
  {
    hide CurrentRevision, Consistent, Find;
    var x := SnapshotOf(env, a.rows, key);
    if x.Some? {
      KeyKept(env, a.rows[Find(a.rows, key)].contract);
      RevisionMember(env, a, x.value);
      RevisionMember(env, b, x.value);
    }
  }

  /**
   * What the optimistic check protects: a request that expects the revision of the tables its diff was
   * produced with either applies exactly the changes that were shown or leaves the tables alone, whatever
   * happened to them in between; a conflict is what a different revision gives.
   */
  lemma AppliesWhatWasShown(env: Env, shown: Tables, now: Tables, r: Request, valid: bool)
    requires Sound(env) && Consistent(shown) && Consistent(now) && r.expected == Some(CurrentRevision(env, shown))
    ensures Apply(env, now, r, valid) == now || Apply(env, now, r, valid) == ApplyChanges(now, Diff(env, shown, r.declaration), r.actor)
    ensures Decide(env, now, r, valid) == Conflict <==> valid && CurrentRevision(env, now) != CurrentRevision(env, shown)
  {
    hide CurrentRevision, Diff, Consistent, ApplyChanges;
    if CurrentRevision(env, now) == CurrentRevision(env, shown) {
      SameRevisionSameDiff(env, shown, now, r.declaration);
    }
  }

  // ----- a declaration that never settles -----

  const NO_TABLES := Tables([], [])

  /** One active contract with one target filter. */
  const FILTERED := Contract(
    "checkout-speed",
    Terms("Checkout speed", "faster checkout", "growth", "checkout.completed", 7, 7, 100, "increase", None, None, None),
    [],
    [Filter("plan", "eq", Some(One(Str("pro"))), Declared)],
    References(None, None, None, None),
    Active)

  /**
   * It is applied to empty tables, and the next diff of the very same declaration shows an update; applying
   * it again asks for confirmation.
   */
  lemma FilteredNeverSettles(env: Env)
    requires Sound(env)
    ensures var t := Apply(env, NO_TABLES, Request([FILTERED], false, None, "owner"), true);
            && |t.rows| == 1 && Diff(env, t, [FILTERED]) == [Change(FILTERED.key, Update, Some(Store(FILTERED)), FILTERED)]
            && Decide(env, t, Request([FILTERED], false, None, "owner"), true) == ConfirmationRequired
  {
    OneCanonical(env, FILTERED);
    OneCanonical(env, Store(FILTERED));
    var r := Request([FILTERED], false, None, "owner");
    var shown := [Change(FILTERED.key, Create, None, FILTERED)];
    assert Diff(env, NO_TABLES, [FILTERED]) == shown;
    assert Decide(env, NO_TABLES, r, true) == Applied(shown);
    var t := Apply(env, NO_TABLES, r, true);
    assert ApplyChanges(NO_TABLES, shown[..0], "owner") == NO_TABLES;
    assert t == InsertContract(NO_TABLES, FILTERED, "owner");
    assert t.rows == [Row(Store(FILTERED), 1, FILTERED, "owner")];
    assert Store(FILTERED) != FILTERED by { assert Store(FILTERED).filters[0].layout == Stored; }
    var again := Diff(env, t, [FILTERED]);
    assert again == [Change(FILTERED.key, Update, Some(Store(FILTERED)), FILTERED)];
    assert again[0] in again;
  }

  /** A contract with no links, no guardrails and one filter on one value is its own canonical form. */
  lemma OneCanonical(env: Env, c: Contract)
    requires c.guardrails == [] && |c.filters| == 1 && c.filters[0].value == Some(One(Str("pro")))
    requires c.references == References(None, None, None, None)
    ensures Canonical(env, c) == c && CanonicalDeclaration(env, [c]) == [c]
  {
    assert CanonicalFilters(env, c.filters) == c.filters == [c.filters[0]];
    assert Sort(env.leFilter, c.filters[1..]) == [];
    assert Sort(env.leFilter, c.filters) == [c.filters[0]];
    assert Canonical(env, c) == c;
    assert CanonicalAll(env, [c]) == [c];
    assert [c][1..] == [] && Sort(KeyOrder(env), []) == [];
  }
}
