/** `viewFingerprint` of src/services/analysisViews.ts, up to its hash. */
module ViewFingerprint {
  import opened Wrappers
  import opened JsonText
  import opened StableSort
  import opened CanonicalJson
  import opened CanonicalReadback
  import opened CanonicalOrder

  datatype Snapshot = Snapshot(spec: Value, answer: Value, evidence: Value)

  function Members(s: Snapshot): seq<Member> {
    [Member(Name("schema_version"), Num([0x31])),
     Member(Name("visualization_spec"), s.spec),
     Member(Name("answer"), s.answer),
     Member(Name("evidence"), s.evidence)]
  }

  /** The record that is hashed. */
  function Record(s: Snapshot): Value {
    Obj(Members(s))
  }

  lemma MembersMeaningAt(ms: seq<Member>, i: nat)
    requires DistinctKeys(ms) && i < |ms|
    ensures ms[i].key in MembersMeaning(ms) && MembersMeaning(ms)[ms[i].key] == Meaning(ms[i].value)
    decreases i
  {
    hide Meaning;
    if i > 0 {
      assert ms[0].key != ms[i].key;
      MembersMeaningAt(ms[1..], i - 1);
    }
  }

  lemma {:induction false} MeaningOfParts(ms: seq<Member>, ns: seq<Member>)
    requires |ms| == |ns| && forall i :: 0 <= i < |ms| ==> ms[i].key == ns[i].key && Meaning(ms[i].value) == Meaning(ns[i].value)
    ensures MembersMeaning(ms) == MembersMeaning(ns)
  {
    hide Meaning;
    if ms != [] {
      MeaningOfParts(ms[1..], ns[1..]);
    }
  }

  lemma SameKeysIff(ms: seq<Member>, ns: seq<Member>)
    requires DistinctKeys(ms) && DistinctKeys(ns)
    requires |ms| == |ns| && forall i :: 0 <= i < |ms| ==> ms[i].key == ns[i].key
    ensures MembersMeaning(ms) == MembersMeaning(ns)
       <==> forall i :: 0 <= i < |ms| ==> Meaning(ms[i].value) == Meaning(ns[i].value)
  {
    hide MembersMeaning, Meaning, DistinctKeys;
    if MembersMeaning(ms) == MembersMeaning(ns) {
      forall i | 0 <= i < |ms| ensures Meaning(ms[i].value) == Meaning(ns[i].value) {
        MembersMeaningAt(ms, i);
        MembersMeaningAt(ns, i);
      }
    } else if forall i :: 0 <= i < |ms| ==> Meaning(ms[i].value) == Meaning(ns[i].value) {
      MeaningOfParts(ms, ns);
    }
  }

  lemma DistinctNames(s: Snapshot)
    ensures DistinctKeys(Members(s))
  {
    hide Name;
  }

  /**
   * Two snapshots give the same hashed text exactly when their specifications, their answers and
   * their evidence agree up to the order of keys.
   */
  lemma FingerprintIff(le: Order, a: Snapshot, b: Snapshot)
    requires TotalPreorder(le) && TieFree(le, Record(a)) && Valid(Record(a)) && Valid(Record(b))
    ensures Print(le, Record(a)) == Print(le, Record(b))
       <==> Meaning(a.spec) == Meaning(b.spec) && Meaning(a.answer) == Meaning(b.answer)
            && Meaning(a.evidence) == Meaning(b.evidence)
  {
    hide Name, Print, TieFree, Valid, DistinctKeys, TotalPreorder, MembersMeaning;
    CanonicalTextIff(le, Record(a), Record(b));
    assert Canonical(le, Record(a)) == Some(Print(le, Record(a))) && Canonical(le, Record(b)) == Some(Print(le, Record(b)));
    DistinctNames(a);
    DistinctNames(b);
    assert Meaning(Record(a)) == JObj(MembersMeaning(Members(a)));
    assert Meaning(Record(b)) == JObj(MembersMeaning(Members(b)));
    hide Meaning;
    SameKeysIff(Members(a), Members(b));
    assert Members(a)[1].value == a.spec && Members(a)[2].value == a.answer && Members(a)[3].value == a.evidence;
    assert Members(b)[1].value == b.spec && Members(b)[2].value == b.answer && Members(b)[3].value == b.evidence;
  }
}
