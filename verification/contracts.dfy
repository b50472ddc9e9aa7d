/** Measurement contracts of src/services/contracts.ts: canonical form, diff, and what applying does to the tables. */
module Contracts {
  import opened Wrappers
  import opened StableSort

  datatype Scalar = Str(s: string) | Num(lexeme: string) | Flag(b: bool)
  datatype FilterValue = One(scalar: Scalar) | Many(items: seq<Scalar>)

  /**
   * The key order of a filter object, which `JSON.stringify` shows: as the schema writes it
   * (property, op, value), or as a jsonb column returns it (op, value, property).
   */
  datatype Layout = Declared | Stored

  datatype Filter = Filter(property: string, op: string, value: Option<FilterValue>, layout: Layout)

  datatype References = References(issueUrl: Option<string>, prUrl: Option<string>, commitSha: Option<string>, deployUrl: Option<string>)

  datatype Status = Draft | Active | Archived

  /** The fields that are copied as they are. */
  datatype Terms = Terms(name: string, hypothesis: string, owner: string, primaryMetric: string, baselineDays: int,
                         observationDays: int, sampleSize: int, direction: string, effect: Option<real>,
                         flagKey: Option<string>, experimentKey: Option<string>)

  datatype Contract = Contract(key: string, terms: Terms, guardrails: seq<string>, filters: seq<Filter>,
                               references: References, status: Status)

  /** `toLowerCase`, the default sort of strings, and `localeCompare` of keys, of filters as JSON, and of values as text. */
  datatype Env = Env(
    lower: string -> string,
    leCode: (string, string) -> bool,
    leKey: (string, string) -> bool,
    leFilter: (Filter, Filter) -> bool,
    leValue: (Scalar, Scalar) -> bool)

  ghost predicate Sound(env: Env) {
    && (forall s :: env.lower(env.lower(s)) == env.lower(s) && (env.lower(s) == "" <==> s == ""))
    && TotalPreorder(env.leCode) && TotalPreorder(env.leKey) && TotalPreorder(env.leFilter) && TotalPreorder(env.leValue)
  }

  // ----- canonical form -----

  function CanonicalFilter(env: Env, f: Filter): Filter {
    match f.value
    case Some(Many(items)) => f.(value := Some(Many(Sort(env.leValue, items))))
    case _ => f
  }

  function CanonicalFilters(env: Env, fs: seq<Filter>): (r: seq<Filter>)
    ensures |r| == |fs| && forall i :: 0 <= i < |fs| ==> r[i] == CanonicalFilter(env, fs[i])
  {
    if fs == [] then [] else [CanonicalFilter(env, fs[0])] + CanonicalFilters(env, fs[1..])
  }

  /** An empty link is left out. */
  function Link(o: Option<string>): Option<string> {
    if o == Some("") then None else o
  }

  function CanonicalReferences(env: Env, r: References): References {
    var sha := Link(r.commitSha);
    References(Link(r.issueUrl), Link(r.prUrl), if sha.Some? then Some(env.lower(sha.value)) else None, Link(r.deployUrl))
  }

  /** `canonicalContract`. */
  function Canonical(env: Env, c: Contract): Contract {
    c.(guardrails := Sort(env.leCode, c.guardrails),
       filters := Sort(env.leFilter, CanonicalFilters(env, c.filters)),
       references := CanonicalReferences(env, c.references))
  }

  function CanonicalAll(env: Env, cs: seq<Contract>): (r: seq<Contract>)
    ensures |r| == |cs| && forall i :: 0 <= i < |cs| ==> r[i] == Canonical(env, cs[i])
  {
    if cs == [] then [] else [Canonical(env, cs[0])] + CanonicalAll(env, cs[1..])
  }

  function KeyOrder(env: Env): (Contract, Contract) -> bool {
    (a: Contract, b: Contract) => env.leKey(a.key, b.key)
  }

  /** `canonicalDeclaration`, as the list of its contracts. */
  function CanonicalDeclaration(env: Env, cs: seq<Contract>): seq<Contract> {
    Sort(KeyOrder(env), CanonicalAll(env, cs))
  }

  // ----- the tables -----

  datatype Action = Created | Updated | ArchivedAction

  /** A revision row; `hash` stands for the digest by the contract it is taken of. */
  datatype Revision = Revision(key: string, number: int, action: Action, hash: Contract, snapshot: Contract, actor: string)

  datatype Row = Row(contract: Contract, revision: int, hash: Contract, createdBy: string)

  /** `measurement_contracts` and `measurement_contract_revisions` of one project. */
  datatype Tables = Tables(rows: seq<Row>, revisions: seq<Revision>)

  /** A jsonb column keeps the value and forgets the key order. */
  function StoredFilters(fs: seq<Filter>): (r: seq<Filter>)
    ensures |r| == |fs| && forall i :: 0 <= i < |fs| ==> r[i] == fs[i].(layout := Stored)
  {
    if fs == [] then [] else [fs[0].(layout := Stored)] + StoredFilters(fs[1..])
  }

  function Store(c: Contract): Contract { c.(filters := StoredFilters(c.filters)) }

  function Find(rows: seq<Row>, key: string): (i: int)
    ensures i == -1 || (0 <= i < |rows| && rows[i].contract.key == key)
    ensures i == -1 ==> forall j :: 0 <= j < |rows| ==> rows[j].contract.key != key
  {
    if rows == [] then -1
    else if rows[0].contract.key == key then 0
    else var i := Find(rows[1..], key); if i == -1 then -1 else i + 1
  }

  function History(revisions: seq<Revision>, key: string): seq<Revision> {
    if revisions == [] then []
    else History(revisions[..|revisions| - 1], key)
         + if revisions[|revisions| - 1].key == key then [revisions[|revisions| - 1]] else []
  }

  // ----- diff -----

  datatype Operation = Create | Update | Noop
  datatype Change = Change(key: string, operation: Operation, before: Option<Contract>, after: Contract)

  /** `toContractSnapshot` of the row with a key. */
  function SnapshotOf(env: Env, rows: seq<Row>, key: string): Option<Contract> {
    var i := Find(rows, key);
    if i == -1 then None else Some(Canonical(env, rows[i].contract))
  }

  /** Digests are compared: two contracts have the same one when their JSON is the same, key order included. */
  function ChangeOf(env: Env, rows: seq<Row>, c: Contract): Change {
    var before := SnapshotOf(env, rows, c.key);
    Change(c.key, if before.None? then Create else if before.value == c then Noop else Update, before, c)
  }

  function ChangesOf(env: Env, rows: seq<Row>, cs: seq<Contract>): (r: seq<Change>)
    ensures |r| == |cs| && forall i :: 0 <= i < |cs| ==> r[i] == ChangeOf(env, rows, cs[i])
  {
    if cs == [] then [] else [ChangeOf(env, rows, cs[0])] + ChangesOf(env, rows, cs[1..])
  }

  function Diff(env: Env, t: Tables, declaration: seq<Contract>): seq<Change> {
    ChangesOf(env, t.rows, CanonicalDeclaration(env, declaration))
  }

  predicate ChangesExisting(changes: seq<Change>) {
    exists c :: c in changes && c.operation == Update
  }

  function RowContracts(rows: seq<Row>): (r: seq<Contract>)
    ensures |r| == |rows| && forall i :: 0 <= i < |rows| ==> r[i] == rows[i].contract
  {
    if rows == [] then [] else [rows[0].contract] + RowContracts(rows[1..])
  }

  /** `currentRevision`, as the declaration whose digest it is; the rows pass through the canonical form twice. */
  function CurrentRevision(env: Env, t: Tables): seq<Contract> {
    CanonicalDeclaration(env, CanonicalAll(env, RowContracts(t.rows)))
  }

  // ----- apply -----

  function InsertContract(t: Tables, c: Contract, actor: string): Tables {
    Tables(t.rows + [Row(Store(c), 1, c, actor)], t.revisions + [Revision(c.key, 1, Created, c, Store(c), actor)])
  }

  function UpdateContract(t: Tables, c: Contract, actor: string): Tables
    requires Find(t.rows, c.key) != -1
  {
    var i := Find(t.rows, c.key);
    var number := t.rows[i].revision + 1;
    Tables(t.rows[i := Row(Store(c), number, c, t.rows[i].createdBy)],
           t.revisions + [Revision(c.key, number, if c.status.Archived? then ArchivedAction else Updated, c, Store(c), actor)])
  }

  function ApplyChange(t: Tables, change: Change, actor: string): Tables {
    if change.operation == Noop then t
    else if change.operation == Create then InsertContract(t, change.after, actor)
    else if Find(t.rows, change.after.key) == -1 then t
    else UpdateContract(t, change.after, actor)
  }

  function ApplyChanges(t: Tables, changes: seq<Change>, actor: string): Tables {
    if changes == [] then t
    else ApplyChange(ApplyChanges(t, changes[..|changes| - 1], actor), changes[|changes| - 1], actor)
  }

  datatype Request = Request(declaration: seq<Contract>, confirm: bool, expected: Option<seq<Contract>>, actor: string)

  datatype Outcome = Invalid | Conflict | ConfirmationRequired | Applied(changes: seq<Change>)

  /** `valid` is the verdict of the checks against the metric, property, flag and experiment registries. */
  function Decide(env: Env, t: Tables, r: Request, valid: bool): Outcome {
    var changes := Diff(env, t, r.declaration);
    if !valid then Invalid
    else if r.expected.Some? && r.expected.value != CurrentRevision(env, t) then Conflict
    else if ChangesExisting(changes) && !r.confirm then ConfirmationRequired
    else Applied(changes)
  }

  /** `applyDeclaration`: one transaction, which leaves the tables alone unless it applies. */
  function Apply(env: Env, t: Tables, r: Request, valid: bool): Tables {
    match Decide(env, t, r, valid)
    case Applied(changes) => ApplyChanges(t, changes, r.actor)
    case _ => t
  }

  // ----- what the schema guarantees about a declaration -----

  predicate DistinctKeys(cs: seq<Contract>) {
    forall i, j :: 0 <= i < j < |cs| ==> cs[i].key != cs[j].key
  }

  predicate AllLayout(fs: seq<Filter>, layout: Layout) {
    forall f :: f in fs ==> f.layout == layout
  }

  predicate Parsed(cs: seq<Contract>) {
    DistinctKeys(cs) && forall c :: c in cs ==> AllLayout(c.filters, Declared)
  }
}
