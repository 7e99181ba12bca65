/** Resource ownership of the remote gateway: audit records on disk, ownership sets in memory, and the
    restart that rebuilds one from the other (`api/remote_http.py`). */
module Ownership {
  import opened Common

  const MAX_AUDIT_RECORDS := 100_000
  const MAX_VISITED := 100_000

  // ----- created references -----

  datatype Member = Member(name: string, value: Json)

  /** A response, as far as the search for created identities can see it.  `Ref` is a well-formed SHA-256 reference. */
  datatype Json = Members(members: seq<Member>) | Items(items: seq<Json>) | Ref(id: Id) | Scalar

  datatype Kind = FileKind | CollectionKind | RunKind | ModelStateKind | ReplayKind | OtherKind(name: string) {
    predicate Known() { !OtherKind? }
  }

  datatype Resource = Resource(kind: Kind, id: Id)

  /** The identities found under `key` anywhere in the value. */
  ghost function Found(v: Json, key: string): set<Id>
    decreases v, 0
  {
    match v
    case Members(ms) => set i, x | 0 <= i < |ms| && x in FoundIn(ms[i].name, ms[i].value, key) :: x
    case Items(vs) => set i, x | 0 <= i < |vs| && x in Found(vs[i], key) :: x
    case _ => {}
  }

  ghost function FoundIn(name: string, child: Json, key: string): set<Id>
    decreases child, 1
  {
    (if name == key && child.Ref? then {child.id} else {}) + Found(child, key)
  }

  /** How many values the search will take off its stack. */
  ghost function Weight(v: Json): nat {
    match v
    case Members(ms) => 1 + WeightOfMembers(ms)
    case Items(vs) => 1 + WeightOfAll(vs)
    case _ => 1
  }

  ghost function WeightOfMembers(ms: seq<Member>): nat {
    if ms == [] then 0 else
      (if ms[0].value.Members? || ms[0].value.Items? then Weight(ms[0].value) else 0) + WeightOfMembers(ms[1..])
  }

  ghost function WeightOfAll(vs: seq<Json>): nat {
    if vs == [] then 0 else Weight(vs[0]) + WeightOfAll(vs[1..])
  }

  ghost function FoundInAll(vs: seq<Json>, key: string): set<Id> {
    set i, x | 0 <= i < |vs| && x in Found(vs[i], key) :: x
  }

  lemma {:induction false} WeightConcat(a: seq<Json>, b: seq<Json>)
    ensures WeightOfAll(a + b) == WeightOfAll(a) + WeightOfAll(b)
  {
    if a == [] {
      assert a + b == b;
    } else {
      assert (a + b)[1..] == a[1..] + b;
      WeightConcat(a[1..], b);
    }
  }

  lemma FoundConcat(a: seq<Json>, b: seq<Json>, key: string)
    ensures FoundInAll(a + b, key) == FoundInAll(a, key) + FoundInAll(b, key)
  {
    forall x ensures x in FoundInAll(a + b, key) <==> x in FoundInAll(a, key) || x in FoundInAll(b, key) {
      if x in FoundInAll(a, key) {
        var i :| 0 <= i < |a| && x in Found(a[i], key);
        assert x in Found((a + b)[i], key);
      }
      if x in FoundInAll(b, key) {
        var i :| 0 <= i < |b| && x in Found(b[i], key);
        assert x in Found((a + b)[|a| + i], key);
      }
    }
  }

  /** The containers among the members, and the matching identities, of one object. */
  method VisitMembers(ms: seq<Member>, key: string) returns (direct: set<Id>, children: seq<Json>)
    ensures direct + FoundInAll(children, key) == Found(Members(ms), key)
    ensures direct <= Found(Members(ms), key)
    ensures WeightOfAll(children) == WeightOfMembers(ms)
  {
    hide Found, FoundInAll, WeightOfAll, WeightOfMembers;
    direct, children := {}, [];
    NothingVisited(ms, key);
    for i := 0 to |ms|
      invariant direct + FoundInAll(children, key) == Found(Members(ms[..i]), key)
      invariant WeightOfAll(children) + WeightOfMembers(ms[i..]) == WeightOfMembers(ms)
    {
      VisitOne(ms, key, i, children);
      if ms[i].name == key && ms[i].value.Ref? {
        direct := direct + {ms[i].value.id};
      } else if ms[i].value.Members? || ms[i].value.Items? {
        children := children + [ms[i].value];
      }
    }
    assert ms[..|ms|] == ms;
    AllVisited(ms);
  }

  lemma NothingVisited(ms: seq<Member>, key: string)
    ensures FoundInAll([], key) == {} && Found(Members(ms[..0]), key) == {} && WeightOfAll([]) == 0 && ms[0..] == ms
  {
  }

  lemma AllVisited(ms: seq<Member>)
    ensures WeightOfMembers(ms[|ms|..]) == 0
  {
  }

  lemma VisitOne(ms: seq<Member>, key: string, i: nat, children: seq<Json>)
    requires i < |ms|
    ensures Found(Members(ms[..i + 1]), key) == Found(Members(ms[..i]), key) + FoundIn(ms[i].name, ms[i].value, key)
    ensures !(ms[i].value.Members? || ms[i].value.Items?) ==> Found(ms[i].value, key) == {}
    ensures FoundInAll(children + [ms[i].value], key) == FoundInAll(children, key) + Found(ms[i].value, key)
    ensures WeightOfMembers(ms[i..]) == (if ms[i].value.Members? || ms[i].value.Items? then Weight(ms[i].value) else 0)
      + WeightOfMembers(ms[i + 1..])
    ensures WeightOfAll(children + [ms[i].value]) == WeightOfAll(children) + Weight(ms[i].value)
  {
    MembersSnoc(ms, key, i);
    FoundConcat(children, [ms[i].value], key);
    OneFound(ms[i].value, key);
    WeightConcat(children, [ms[i].value]);
    assert WeightOfAll([ms[i].value]) == Weight(ms[i].value) + WeightOfAll([ms[i].value][1..]);
    assert ms[i..][1..] == ms[i + 1..] && ms[i..][0] == ms[i];
  }

  lemma OneFound(v: Json, key: string)
    ensures FoundInAll([v], key) == Found(v, key)
  {
    assert [v][0] == v;
    forall x ensures x in FoundInAll([v], key) <==> x in Found(v, key) {
      if x in Found(v, key) { assert x in Found([v][0], key); }
    }
  }

  lemma MembersSnoc(ms: seq<Member>, key: string, i: nat)
    requires i < |ms|
    ensures Found(Members(ms[..i + 1]), key) == Found(Members(ms[..i]), key) + FoundIn(ms[i].name, ms[i].value, key)
  {
    var a, b := ms[..i], ms[..i + 1];
    forall x ensures x in Found(Members(b), key) <==>
      x in Found(Members(a), key) || x in FoundIn(ms[i].name, ms[i].value, key) {
      if x in Found(Members(b), key) {
        var j :| 0 <= j < |b| && x in FoundIn(b[j].name, b[j].value, key);
        if j < i { assert x in FoundIn(a[j].name, a[j].value, key); }
      }
      if x in Found(Members(a), key) {
        var j :| 0 <= j < |a| && x in FoundIn(a[j].name, a[j].value, key);
        assert x in FoundIn(b[j].name, b[j].value, key);
      }
      if x in FoundIn(ms[i].name, ms[i].value, key) { assert x in FoundIn(b[i].name, b[i].value, key); }
    }
  }

  lemma PopLast(stack: seq<Json>, key: string)
    requires stack != []
    ensures
      var rest, last := stack[..|stack| - 1], stack[|stack| - 1];
      && FoundInAll(stack, key) == FoundInAll(rest, key) + Found(last, key) && WeightOfAll(stack) == WeightOfAll(rest)
        + Weight(last)
      && Weight(last) >= 1 && (last.Members? ==> Weight(last) == 1 + WeightOfMembers(last.members))
      && (last.Items? ==>
        Weight(last) == 1 + WeightOfAll(last.items) && Found(last, key) == FoundInAll(last.items, key))
      && (last.Ref? || last.Scalar? ==> Found(last, key) == {} && Weight(last) == 1)
  {
    var rest, last := stack[..|stack| - 1], stack[|stack| - 1];
    assert stack == rest + [last];
    FoundConcat(rest, [last], key);
    OneFound(last, key);
    WeightConcat(rest, [last]);
    assert WeightOfAll([last]) == Weight(last) + WeightOfAll([last][1..]);
  }

  /** `_find_sha_key`: never finds anything that is not there, and misses nothing in a value small enough to be
      searched within the visit limit. */
  method FindShaKey(value: Json, key: string) returns (found: set<Id>)
    ensures found <= Found(value, key)
    ensures Weight(value) <= MAX_VISITED ==> found == Found(value, key)
  {
    hide Found, FoundInAll, WeightOfAll, Weight;
    found := {};
    var stack := [value];
    var visited := 0;
    PopLast(stack, key);
    assert stack[..0] == [];
    NothingVisited([], key);
    while stack != []
      invariant found + FoundInAll(stack, key) == Found(value, key)
      invariant visited + WeightOfAll(stack) == Weight(value) && visited <= MAX_VISITED
      decreases WeightOfAll(stack)
    {
      PopLast(stack, key);
      var current := stack[|stack| - 1];
      stack := stack[..|stack| - 1];
      visited := visited + 1;
      if visited > MAX_VISITED {
        break;
      }
      if current.Members? {
        var direct, children := VisitMembers(current.members, key);
        FoundConcat(stack, children, key);
        WeightConcat(stack, children);
        found := found + direct;
        stack := stack + children;
      } else if current.Items? {
        FoundConcat(stack, current.items, key);
        WeightConcat(stack, current.items);
        stack := stack + current.items;
      }
    }
  }

  datatype Operation = FilePut | CollectionCreate | Ask | ReplayExecute | OtherOperation

  /** The members of a response that name what an operation created. */
  function CreatedKeys(op: Operation): seq<(string, Kind)> {
    match op
    case FilePut => [("file_id", FileKind)]
    case CollectionCreate => [("collection_id", CollectionKind)]
    case Ask => [("run_id", RunKind)]
    case ReplayExecute => [("replay_id", ReplayKind), ("replay_run_id", RunKind)]
    case OtherOperation => []
  }

  /** Storing a File, creating a Collection, asking and replaying create what their responses name so. */
  ghost predicate Creates(op: Operation, result: Json, x: Resource) {
    match x.kind
    case FileKind => op.FilePut? && x.id in Found(result, "file_id")
    case CollectionKind => op.CollectionCreate? && x.id in Found(result, "collection_id")
    case RunKind =>
      || (op.Ask? && x.id in Found(result, "run_id"))
      || (op.ReplayExecute? && x.id in Found(result, "replay_run_id"))
    case ReplayKind => op.ReplayExecute? && x.id in Found(result, "replay_id")
    case _ => false
  }

  lemma CreatedUnderKey(op: Operation, result: Json, x: Resource)
    ensures Creates(op, result, x) <==> exists i ::
      0 <= i < |CreatedKeys(op)| && x.kind == CreatedKeys(op)[i].1 && x.id in Found(result, CreatedKeys(op)[i].0)
  {
    hide Found;
    var keys := CreatedKeys(op);
    if Creates(op, result, x) {
      assert x.id in Found(result, keys[if op.ReplayExecute? && x.kind.RunKind? then 1 else 0].0);
    }
  }

  /** `_extract_created_refs`: only what the response really names, and only kinds a restart accepts. */
  method ExtractCreatedRefs(op: Operation, ok: bool, result: Json) returns (refs: set<Resource>)
    ensures forall x :: x in refs ==> ok && Creates(op, result, x) && x.kind.Known()
    ensures ok && Weight(result) <= MAX_VISITED ==> forall x :: Creates(op, result, x) ==> x in refs
  {
    hide Found, Weight, Creates;
    refs := {};
    if !ok {
      return;
    }
    forall x
      ensures Creates(op, result, x) <==> exists i ::
        0 <= i < |CreatedKeys(op)| && x.kind == CreatedKeys(op)[i].1 && x.id in Found(result, CreatedKeys(op)[i].0)
    {
      CreatedUnderKey(op, result, x);
    }
    var keys := CreatedKeys(op);
    for i := 0 to |keys|
      invariant forall x :: x in refs ==> Creates(op, result, x) && x.kind.Known()
      invariant Weight(result) <= MAX_VISITED ==>
        forall x: Resource, j :: 0 <= j < i && x.kind == keys[j].1 && x.id in Found(result, keys[j].0) ==> x in refs
    {
      var found := FindShaKey(result, keys[i].0);
      refs := refs + set identity | identity in found :: Resource(keys[i].1, identity);
    }
  }

  // ----- audit and restart -----

  datatype Stage = Started | Completed

  datatype Outcome = Pending | Okay | Failed | Denied

  datatype Payload = Payload(principal: string, stage: Stage, outcome: Outcome, created: set<Resource>, rest: string) {
    predicate Grants() { stage.Completed? && outcome.Okay? }
  }

  datatype Record = Record(id: Id, payload: Payload)

  /** What the audit records say a principal owns. */
  ghost function Recorded(records: map<Id, Record>, principal: string): set<Resource> {
    set k, x | k in records && records[k].payload.Grants() && records[k].payload.principal == principal
               && x in records[k].payload.created && x.kind.Known() :: x
  }

  lemma RecordAdds(records: map<Id, Record>, k: Id, r: Record, principal: string)
    requires k in records ==> records[k] == r
    ensures Recorded(records[k := r], principal) ==
      Recorded(records, principal)
      + (if r.payload.Grants() && r.payload.principal == principal then set x | x in r.payload.created && x.kind.Known()
        else {})
  {
    var after := records[k := r];
    forall x | x in Recorded(records, principal) ensures x in Recorded(after, principal) {
      var j :| j in records && records[j].payload.Grants() && records[j].payload.principal == principal
        && x in records[j].payload.created && x.kind.Known();
      assert j in after && after[j] == records[j];
    }
    if r.payload.Grants() && r.payload.principal == principal {
      forall x | x in r.payload.created && x.kind.Known() ensures x in Recorded(after, principal) {
        assert k in after && after[k] == r;
      }
    }
  }

  lemma OneFewer(records: map<Id, Record>, todo: set<Id>, k: Id)
    requires todo <= records.Keys && k in todo
    ensures records - (todo - {k}) == (records - todo)[k := records[k]]
  {
  }

  lemma NothingRecorded()
    ensures forall p :: Recorded(map[], p) == {}
  {
  }

  class Gateway {
    const principals: set<string>
    const hash: Payload -> Id

    /** The audit directory, which outlives the process. */
    var records: map<Id, Record>
    var owned: map<string, set<Resource>>

    ghost predicate RecordsNamed()
      reads this
    {
      Injective(hash) && forall k :: k in records ==> records[k].id == k && hash(records[k].payload) == k
    }

    ghost predicate Valid()
      reads this
    {
      && RecordsNamed() && owned.Keys == principals
      && forall p :: p in principals ==> owned[p] == Recorded(records, p)
    }

    constructor (principals: set<string>, hash: Payload -> Id, records: map<Id, Record>)
      ensures this.principals == principals && this.hash == hash && this.records == records
      ensures owned == map p | p in principals :: {}
    {
      this.principals, this.hash, this.records := principals, hash, records;
      owned := map p | p in principals :: {};
    }

    /** `_load_audit_ownership`: refuses a directory that is too large or holds a record under a wrong name. */
    method LoadAuditOwnership() returns (ok: bool)
      requires owned == map p | p in principals :: {}
      modifies this`owned
      ensures ok <==> |records| <= MAX_AUDIT_RECORDS && forall k :: k in records ==>
        hash(records[k].payload) == records[k].id
      ensures ok ==> owned.Keys == principals && forall p :: p in principals ==> owned[p] == Recorded(records, p)
    {
      hide Recorded;
      if |records| > MAX_AUDIT_RECORDS {
        return false;
      }
      var todo := records.Keys;
      NothingRecorded();
      assert records - todo == map[];
      while todo != {}
        invariant todo <= records.Keys && Holds(records - todo)
        invariant forall k :: k in records && k !in todo ==> hash(records[k].payload) == records[k].id
        decreases todo
      {
        var k :| k in todo;
        var record := records[k];
        if record.id != hash(record.payload) {
          return false;
        }
        TakeRecord(k, record, records - todo);
        OneFewer(records, todo, k);
        todo := todo - {k};
      }
      assert records - todo == records;
      ok := true;
    }

    ghost predicate Holds(loaded: map<Id, Record>)
      reads this
    {
      owned.Keys == principals && forall p :: p in principals ==> owned[p] == Recorded(loaded, p)
    }

    /** One record: unknown principals and failed requests are passed over. */
    method TakeRecord(k: Id, record: Record, ghost done: map<Id, Record>)
      requires Holds(done) && k !in done
      modifies this`owned
      ensures Holds(done[k := record])
    {
      hide Recorded;
      forall p | p in principals
        ensures Recorded(done[k := record], p) == Recorded(done, p)
          + (if record.payload.Grants() && record.payload.principal == p then set x | x in record.payload.created
            && x.kind.Known() else {})
      {
        RecordAdds(done, k, record, p);
      }
      var p := record.payload.principal;
      if p in owned && record.payload.Grants() {
        owned := owned[p := owned[p] + set x | x in record.payload.created && x.kind.Known()];
      }
    }

    /** `audit`: the record is on disk before memory changes. */
    method Audit(payload: Payload) returns (id: Id)
      requires Valid() && payload.principal in principals && forall x :: x in payload.created ==> x.kind.Known()
      modifies this`records, this`owned
      ensures Valid() && id == hash(payload) && records == old(records)[id := Record(id, payload)]
      ensures forall p :: p in principals ==>
        owned[p] == old(owned)[p] + (if p == payload.principal && payload.Grants() then payload.created else {})
    {
      id := hash(payload);
      ghost var before := records;
      if id in records { assert hash(records[id].payload) == hash(payload); }
      forall p | p in principals
        ensures Recorded(before[id := Record(id, payload)], p) == Recorded(before, p)
          + (if payload.Grants() && payload.principal == p then set x | x in payload.created && x.kind.Known() else {})
      {
        RecordAdds(before, id, Record(id, payload), p);
      }
      records := records[id := Record(id, payload)];
      assert (set x | x in payload.created && x.kind.Known()) == payload.created;
      if payload.Grants() {
        owned := owned[payload.principal := owned[payload.principal] + payload.created];
      }
    }
  }

  /** A restart with the same configuration rebuilds exactly the ownership held in memory, as long as the
      directory is within the record limit; beyond it the gateway does not start. */
  method Restart(g: Gateway) returns (started: bool, next: Gateway)
    requires g.Valid()
    ensures started <==> |g.records| <= MAX_AUDIT_RECORDS
    ensures started ==> next.Valid() && next.owned == g.owned && next.records == g.records
    ensures fresh(next)
  {
    next := new Gateway(g.principals, g.hash, g.records);
    started := next.LoadAuditOwnership();
  }
}
