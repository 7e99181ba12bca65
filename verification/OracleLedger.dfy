/** The hash-chained ORACLE ledger as the adapter verifies it, evidence queries over it, and cached
    responses held against a later ledger (`adapters/oracle.py`). */
module OracleLedger {
  import opened Common
  import LineageDag

  const MAX_LEDGER_EVENTS := 100_000

  datatype Evidence = Observed | Conflicting | Undetermined

  /** The verifier lets an event leave `payload_sha256` out; a reference to such an event cannot be made. */
  datatype Payload = NoField | NoPayload | Payload(sha: Id)

  datatype Provenance = Correction | Supersession | OtherProvenance(name: string)

  datatype EventType = EvidenceCorrection | EvidenceSupersession | OtherType(name: string)

  datatype Basis = Basis(
    sequence: int, eventId: string, eventType: EventType, subject: string, observedAt: string, source: (string, string),
    provenance: Provenance, evidence: Evidence, payload: Payload, previous: Option<Id>, derivedFrom: Option<seq<Id>>,
      rest: string)

  datatype Event = Event(hash: Id, basis: Basis)

  /** SHA-256 over canonical JSON, the syntax of times and of query subjects, and the provenance kinds the
      manifest allows. */
  datatype Rules = Rules(
    event: Basis -> Id, response: ResponseBasis -> Id, timeValid: string -> bool, queryable: string -> bool,
      allowed: Provenance -> bool)
  {
    ghost predicate Sound() {
      Injective(event) && Injective(response) && !queryable("")
    }
  }

  datatype State = Known | Conflict | Unknown

  datatype EventRef = EventRef(
    eventId: string, hash: Id, eventType: EventType, subject: string, observedAt: string, source: (string, string),
    provenance: Provenance, evidence: Evidence, payload: Option<Id>)

  /** A query response without its own hash; `rest` stands for freshness, suggestions and constants. */
  datatype ResponseBasis = ResponseBasis(subject: string, state: State, refs: seq<EventRef>, head: Id, rest: string)

  datatype Response = Response(sha: Id, basis: ResponseBasis)

  // ----- the ledger -----

  predicate Shaped(r: Rules, b: Basis) {
    && b.eventId != "" && b.subject != "" && b.eventType != OtherType("") && b.source.0 != "" && b.source.1 != ""
    && r.timeValid(b.observedAt) && r.allowed(b.provenance)
  }

  function HashBefore(es: seq<Event>, i: nat): Option<Id>
    requires i <= |es|
  {
    if i == 0 then None else Some(es[i - 1].hash)
  }

  /** Event `i` continues the chain and derives only from events before it. */
  ghost predicate Linked(r: Rules, es: seq<Event>, i: nat)
    requires i < |es|
  {
    var b := es[i].basis;
    && Shaped(r, b) && b.sequence == i && b.previous == HashBefore(es, i) && es[i].hash == r.event(b)
    && (forall j :: 0 <= j < i ==> es[j].basis.eventId != b.eventId)
    && (b.derivedFrom.Some? ==>
          && b.derivedFrom.value != [] && Distinct(b.derivedFrom.value)
          && forall x :: x in b.derivedFrom.value ==> exists j :: 0 <= j < i && es[j].hash == x)
  }

  ghost predicate Accepted(r: Rules, es: seq<Event>) {
    0 < |es| <= MAX_LEDGER_EVENTS && forall i: nat :: i < |es| ==> Linked(r, es, i)
  }

  lemma LinkedInPrefix(r: Rules, es: seq<Event>, n: nat, i: nat)
    requires i < n <= |es|
    ensures Linked(r, es[..n], i) <==> Linked(r, es, i)
  {
    var p := es[..n];
    assert HashBefore(p, i) == HashBefore(es, i);
    assert forall j :: 0 <= j < i ==> p[j] == es[j];
  }

  /** `_verified_ledger` over the parsed lines: accepts exactly the well-linked ledgers. */
  method VerifyLedger(r: Rules, es: seq<Event>) returns (accepted: bool)
    ensures accepted <==> Accepted(r, es)
  {
    hide Shaped;
    if |es| > MAX_LEDGER_EVENTS || es == [] {
      return false;
    }
    var previous: Option<Id> := None;
    var seenIds: set<string> := {};
    var seenHashes: set<Id> := {};
    for i := 0 to |es|
      invariant previous == HashBefore(es, i)
      invariant forall x :: x in seenIds <==> exists j :: 0 <= j < i && es[j].basis.eventId == x
      invariant forall x :: x in seenHashes <==> exists j :: 0 <= j < i && es[j].hash == x
      invariant forall j: nat :: j < i ==> Linked(r, es, j)
    {
      var e := es[i];
      var b := e.basis;
      var derived := CheckDerivation(b.derivedFrom, seenHashes);
      if !Shaped(r, b) || b.sequence != i || b.eventId in seenIds || b.previous != previous || !derived
        || e.hash != r.event(b) {
        assert !Linked(r, es, i);
        return false;
      }
      assert Linked(r, es, i);
      seenIds := seenIds + {b.eventId};
      seenHashes := seenHashes + {e.hash};
      previous := Some(e.hash);
    }
    accepted := true;
  }

  method CheckDerivation(derivedFrom: Option<seq<Id>>, seen: set<Id>) returns (ok: bool)
    ensures ok <==> (derivedFrom.Some? ==>
      derivedFrom.value != [] && Distinct(derivedFrom.value) && forall x :: x in derivedFrom.value ==> x in seen)
  {
    if derivedFrom.None? {
      return true;
    }
    var hashes := derivedFrom.value;
    if hashes == [] || !Distinct(hashes) {
      return false;
    }
    for k := 0 to |hashes|
      invariant forall j :: 0 <= j < k ==> hashes[j] in seen
    {
      if hashes[k] !in seen {
        return false;
      }
    }
    ok := true;
  }

  /** Every non-empty prefix of an accepted ledger is accepted. */
  lemma PrefixAccepted(r: Rules, es: seq<Event>, n: nat)
    requires Accepted(r, es) && 0 < n <= |es|
    ensures Accepted(r, es[..n])
  {
    hide Linked;
    forall i: nat | i < n ensures Linked(r, es[..n], i) {
      LinkedInPrefix(r, es, n, i);
    }
  }

  lemma HashesDistinct(r: Rules, es: seq<Event>)
    requires r.Sound() && Accepted(r, es)
    ensures forall i, j :: 0 <= i < |es| && 0 <= j < |es| && es[i].hash == es[j].hash ==> i == j
  {
    forall i: nat, j: nat | i < |es| && j < |es| && es[i].hash == es[j].hash ensures i == j {
      assert Linked(r, es, i) && Linked(r, es, j);
      assert r.event(es[i].basis) == r.event(es[j].basis);
    }
  }

  lemma LastLinked(r: Rules, es: seq<Event>)
    requires Accepted(r, es)
    ensures
      var last := es[|es| - 1];
      last.hash == r.event(last.basis) && last.basis.sequence == |es| - 1
        && last.basis.previous == HashBefore(es, |es| - 1)
  {
    assert Linked(r, es, |es| - 1);
  }

  /** Accepted ledgers with the same head hash are the same ledger. */
  lemma {:induction false} HeadDetermines(r: Rules, a: seq<Event>, b: seq<Event>)
    requires r.Sound() && Accepted(r, a) && Accepted(r, b) && a[|a| - 1].hash == b[|b| - 1].hash
    ensures a == b
    decreases |a|
  {
    hide Linked, Accepted;
    NonEmpty(r, a);
    NonEmpty(r, b);
    LastLinked(r, a);
    LastLinked(r, b);
    var n := |a| - 1;
    SameBasis(r, a[n], b[|b| - 1]);
    if n > 0 {
      PrefixAccepted(r, a, n);
      PrefixAccepted(r, b, n);
      assert a[..n][n - 1] == a[n - 1] && b[..n][n - 1] == b[n - 1];
      HeadDetermines(r, a[..n], b[..n]);
      assert a == a[..n] + [a[n]] && b == b[..n] + [b[n]];
    }
  }

  lemma NonEmpty(r: Rules, es: seq<Event>)
    requires Accepted(r, es)
    ensures es != []
  {
  }

  lemma SameBasis(r: Rules, a: Event, b: Event)
    requires r.Sound() && a.hash == r.event(a.basis) && b.hash == r.event(b.basis) && a.hash == b.hash
    ensures a == b
  {
  }

  function Derivations(es: seq<Event>): seq<LineageDag.Node> {
    seq(|es|, i requires 0 <= i < |es| => LineageDag.Node(es[i].hash, if es[i].basis.derivedFrom.Some?
      then es[i].basis.derivedFrom.value else []))
  }

  lemma {:induction false} NodesStored(ns: seq<LineageDag.Node>)
    requires forall i, j :: 0 <= i < j < |ns| ==> ns[i].id != ns[j].id
    ensures forall i :: 0 <= i < |ns| ==>
      ns[i].id in LineageDag.ById(ns) && LineageDag.ById(ns)[ns[i].id] == ns[i].parents
  {
    hide LineageDag.ById;
    if ns != [] {
      var n := |ns| - 1;
      NodesStored(ns[..n]);
      LastStored(ns);
      forall i | 0 <= i < |ns| ensures ns[i].id in LineageDag.ById(ns)
        && LineageDag.ById(ns)[ns[i].id] == ns[i].parents {
        if i < n { assert ns[..n][i] == ns[i]; }
      }
    }
  }

  lemma LastStored(ns: seq<LineageDag.Node>)
    requires ns != []
    ensures
      var last := ns[|ns| - 1];
      LineageDag.ById(ns) == LineageDag.ById(ns[..|ns| - 1])[last.id := last.parents]
  {
  }

  lemma DerivesEarlier(r: Rules, es: seq<Event>, i: nat, y: Id) returns (j: nat)
    requires Accepted(r, es) && i < |es| && y in Derivations(es)[i].parents
    ensures j < i && es[j].hash == y
  {
    assert Linked(r, es, i);
    j :| 0 <= j < i && es[j].hash == y;
  }

  /** `derived_from` is well-founded: every reference leads to an event of the ledger and none leads back. */
  lemma DerivationWellFounded(r: Rules, es: seq<Event>)
    requires r.Sound() && Accepted(r, es)
    ensures
      var g := LineageDag.ById(Derivations(es));
      LineageDag.Closed(g) && !LineageDag.Cyclic(g)
  {
    hide LineageDag.Cyclic, LineageDag.Closed, LineageDag.ById, Accepted;
    var ns := Derivations(es);
    var g, hashes := LineageDag.ById(ns), seq(|ns|, i requires 0 <= i < |ns| => ns[i].id);
    HashesDistinct(r, es);
    NodesStored(ns);
    forall i, y | 0 <= i < |hashes| && y in g[hashes[i]] ensures y in hashes[..i] {
      var j := DerivesEarlier(r, es, i, y);
      assert hashes[..i][j] == y;
    }
    forall x | x in g ensures x in hashes {
      var i :| 0 <= i < |ns| && ns[i].id == x;
      assert hashes[i] == x;
    }
    LineageDag.AllFinishedIsAcyclic(g, hashes);
  }

  // ----- queries -----

  function Relevant(es: seq<Event>, subject: string): seq<Event> {
    if es == [] then []
    else Relevant(es[..|es| - 1], subject) + (if es[|es| - 1].basis.subject == subject then [es[|es| - 1]] else [])
  }

  predicate Corrects(e: Event) {
    e.basis.provenance.Correction? || e.basis.provenance.Supersession? || e.basis.eventType.EvidenceCorrection?
      || e.basis.eventType.EvidenceSupersession?
  }

  /** `_response_state`: a conflict outweighs a correction, and a correction outweighs any observation. */
  function ResponseState(es: seq<Event>): State {
    if exists i :: 0 <= i < |es| && es[i].basis.evidence.Conflicting? then Conflict
    else if exists i :: 0 <= i < |es| && Corrects(es[i]) then Unknown
    else if exists i :: 0 <= i < |es| && es[i].basis.evidence.Observed? then Known
    else Unknown
  }

  predicate Referable(es: seq<Event>) {
    forall i :: 0 <= i < |es| ==> !es[i].basis.payload.NoField?
  }

  function RefOf(e: Event): EventRef {
    var b := e.basis;
    EventRef(b.eventId, e.hash, b.eventType, b.subject, b.observedAt, b.source, b.provenance, b.evidence,
             if b.payload.Payload? then Some(b.payload.sha) else None)
  }

  function RefsOf(es: seq<Event>): seq<EventRef> {
    seq(|es|, i requires 0 <= i < |es| => RefOf(es[i]))
  }

  /** What a query of `subject` against this ledger answers. */
  function Answer(r: Rules, es: seq<Event>, subject: string, rest: string): Response
    requires es != []
  {
    var relevant := Relevant(es, subject);
    var basis := ResponseBasis(subject, ResponseState(relevant), RefsOf(relevant), es[|es| - 1].hash, rest);
    Response(r.response(basis), basis)
  }

  /** For every subject that may be asked about, a ledger that is accepted and cannot answer about it: its one
      event leaves the payload field out. */
  lemma FieldLeftOut(r: Rules, subject: string, at: string, kind: Provenance) returns (es: seq<Event>)
    requires r.Sound() && r.queryable(subject) && r.timeValid(at) && r.allowed(kind)
    ensures Accepted(r, es) && |es| == 1 && es[0].basis.payload.NoField? && !Referable(Relevant(es, subject))
  {
    var b := Basis(0, "id", OtherType("type"), subject, at, ("kind", "locator"), kind, Observed, NoField, None, None,
      "");
    es := [Event(r.event(b), b)];
    assert es[..0] == [] && Relevant(es, subject) == [es[0]];
    assert Linked(r, es, 0);
  }

  /** A correction or supersession, by its provenance or by its event type. */
  ghost predicate IsCorrection(b: Basis) {
    b.provenance in {Correction, Supersession} || b.eventType in {EvidenceCorrection, EvidenceSupersession}
  }

  ghost predicate RefersTo(ref: EventRef, e: Event) {
    var b := e.basis;
    && ref.eventId == b.eventId && ref.hash == e.hash && ref.eventType == b.eventType && ref.subject == b.subject
    && ref.observedAt == b.observedAt && ref.source == b.source && ref.provenance == b.provenance
    && ref.evidence == b.evidence
    && (b.payload == NoPayload ==> ref.payload == None)
    && forall sha: Id :: b.payload == Payload(sha) ==> ref.payload == Some(sha)
  }

  /** The positions of the events about a subject, in ledger order. */
  ghost predicate PositionsOf(es: seq<Event>, subject: string, at: seq<nat>) {
    && (forall k, l :: 0 <= k < l < |at| ==> at[k] < at[l])
    && (forall k :: 0 <= k < |at| ==> at[k] < |es| && es[at[k]].basis.subject == subject)
    && forall i: nat :: i < |es| && es[i].basis.subject == subject ==> i in at
  }

  ghost predicate References(es: seq<Event>, subject: string, refs: seq<EventRef>, at: seq<nat>) {
    && PositionsOf(es, subject, at) && |refs| == |at|
    && forall k :: 0 <= k < |refs| ==> RefersTo(refs[k], es[at[k]])
  }

  ghost predicate SomeAbout(es: seq<Event>, subject: string, evidence: Evidence) {
    exists e :: e in es && e.basis.subject == subject && e.basis.evidence == evidence
  }

  /** The answer names the head of the ledger and refers to each event about the subject once, in order.  Any
      conflicting one makes it a conflict; otherwise something observed makes it known, unless anything was
      corrected. */
  ghost predicate Reports(es: seq<Event>, subject: string, b: ResponseBasis) {
    && es != [] && b.subject == subject && b.head == es[|es| - 1].hash
    && (exists at :: References(es, subject, b.refs, at))
    && (b.state == Conflict <==> SomeAbout(es, subject, Conflicting))
    && (b.state == Known <==>
          && SomeAbout(es, subject, Observed) && !SomeAbout(es, subject, Conflicting)
          && forall e :: e in es && e.basis.subject == subject ==> !IsCorrection(e.basis))
  }

  lemma PositionsExtend(es: seq<Event>, subject: string, e: Event, before: seq<nat>)
    requires PositionsOf(es, subject, before)
    ensures PositionsOf(es + [e], subject, if e.basis.subject == subject then before + [|es|] else before)
  {
    var at := if e.basis.subject == subject then before + [|es|] else before;
    forall i: nat | i < |es + [e]| && (es + [e])[i].basis.subject == subject ensures i in at {
      if i < |es| {
        assert i in before;
      } else {
        assert at[|at| - 1] == i;
      }
    }
  }

  lemma {:induction false} RelevantAt(es: seq<Event>, subject: string) returns (at: seq<nat>)
    ensures PositionsOf(es, subject, at) && |at| == |Relevant(es, subject)|
    ensures forall k :: 0 <= k < |at| ==> at[k] < |es| && Relevant(es, subject)[k] == es[at[k]]
  {
    hide PositionsOf, Relevant;
    RelevantStep(es, subject);
    if es == [] {
      at := [];
      NoPositions(subject);
    } else {
      var n := |es| - 1;
      var before := RelevantAt(es[..n], subject);
      at := if es[n].basis.subject == subject then before + [n] else before;
      PositionsExtend(es[..n], subject, es[n], before);
      assert es[..n] + [es[n]] == es;
      forall k | 0 <= k < |at| ensures at[k] < |es| && Relevant(es, subject)[k] == es[at[k]] {
        if k < |before| { assert at[k] == before[k] && Relevant(es, subject)[k] == Relevant(es[..n], subject)[k]; }
      }
    }
  }

  lemma RelevantStep(es: seq<Event>, subject: string)
    ensures es == [] ==> Relevant(es, subject) == []
    ensures es != [] ==>
      var n := |es| - 1;
      Relevant(es, subject) == Relevant(es[..n], subject) + (if es[n].basis.subject == subject then [es[n]] else [])
  {
  }

  lemma NoPositions(subject: string)
    ensures PositionsOf([], subject, [])
  {
  }

  lemma RefsRefer(es: seq<Event>, subject: string, relevant: seq<Event>, at: seq<nat>)
    requires PositionsOf(es, subject, at) && |at| == |relevant|
    requires forall k :: 0 <= k < |at| ==> at[k] < |es| && relevant[k] == es[at[k]]
    ensures References(es, subject, RefsOf(relevant), at)
  {
    hide PositionsOf;
    var refs := RefsOf(relevant);
    forall k | 0 <= k < |refs| ensures RefersTo(refs[k], es[at[k]]) {
      assert refs[k] == RefOf(es[at[k]]);
    }
  }

  lemma StateReports(es: seq<Event>, subject: string)
    ensures
      var state := ResponseState(Relevant(es, subject));
      && (state == Conflict <==> SomeAbout(es, subject, Conflicting))
      && (state == Known <==>
            && SomeAbout(es, subject, Observed) && !SomeAbout(es, subject, Conflicting)
            && forall e :: e in es && e.basis.subject == subject ==> !IsCorrection(e.basis))
  {
    hide Relevant, ResponseState;
    RelevantMembers(es, subject);
    StateByMembers(Relevant(es, subject));
    forall e: Event ensures Corrects(e) <==> IsCorrection(e.basis) {}
  }

  lemma AnswerReports(r: Rules, es: seq<Event>, subject: string, rest: string)
    requires es != []
    ensures Reports(es, subject, Answer(r, es, subject, rest).basis)
  {
    hide Relevant, ResponseState, References, SomeAbout, IsCorrection, RefsOf;
    var at := RelevantAt(es, subject);
    RefsRefer(es, subject, Relevant(es, subject), at);
    StateReports(es, subject);
  }

  /** `query_evidence` on a verified ledger: answers unless an event of the subject left its payload field out. */
  method QueryEvidence(r: Rules, es: seq<Event>, subject: string, rest: string) returns (answer: Option<Response>)
    ensures answer.Some? <==>
      && Accepted(r, es) && r.queryable(subject)
      && forall e :: e in es && e.basis.subject == subject ==> !e.basis.payload.NoField?
    ensures answer.Some? ==>
      && Reports(es, subject, answer.value.basis) && answer.value.basis.rest == rest
      && answer.value.sha == r.response(answer.value.basis)
    ensures answer.Some? ==> answer.value == Answer(r, es, subject, rest)
  {
    hide Accepted, Relevant, Reports;
    RelevantMembers(es, subject);
    if !r.queryable(subject) {
      return None;
    }
    var verified := VerifyLedger(r, es);
    if !verified {
      return None;
    }
    NonEmpty(r, es);
    var relevant := Relevant(es, subject);
    if !Referable(relevant) {
      return None;
    }
    AnswerReports(r, es, subject, rest);
    answer := Some(Answer(r, es, subject, rest));
  }

  /** What the check of a cached response looks for. */
  ghost predicate HoldsAt(r: Rules, es: seq<Event>, q: Response, n: nat)
    requires n < |es|
  {
    var relevant := Relevant(es[..n + 1], q.basis.subject);
    es[n].hash == q.basis.head && Referable(relevant) && q.basis.refs == RefsOf(relevant)
      && q.basis.state == ResponseState(relevant)
  }

  ghost predicate CachedHolds(r: Rules, es: seq<Event>, q: Response) {
    && q.sha == r.response(q.basis) && q.basis.subject != "" && Accepted(r, es)
    && exists n: nat :: n < |es| && HoldsAt(r, es, q, n)
  }

  /** `_verify_cached_query_response`. */
  method VerifyCached(r: Rules, es: seq<Event>, q: Response) returns (ok: bool)
    requires r.Sound()
    ensures ok <==> CachedHolds(r, es, q)
  {
    hide Accepted, Relevant, ResponseState;
    if q.sha != r.response(q.basis) {
      return false;
    }
    var verified := VerifyLedger(r, es);
    if !verified {
      return false;
    }
    HashesDistinct(r, es);
    var at := 0;
    while at < |es| && es[at].hash != q.basis.head
      invariant 0 <= at <= |es| && forall j :: 0 <= j < at ==> es[j].hash != q.basis.head
    {
      at := at + 1;
    }
    if at == |es| {
      assert forall n: nat :: n < |es| ==> !HoldsAt(r, es, q, n);
      return false;
    }
    assert forall n: nat :: n < |es| && n != at ==> !HoldsAt(r, es, q, n);
    if q.basis.subject == "" {
      return false;
    }
    var relevant := Relevant(es[..at + 1], q.basis.subject);
    if !Referable(relevant) || q.basis.refs != RefsOf(relevant) || q.basis.state != ResponseState(relevant) {
      assert !HoldsAt(r, es, q, at);
      return false;
    }
    assert HoldsAt(r, es, q, at);
    ok := true;
  }

  /** A response computed at ledger `a` passes against an accepted ledger `b` exactly when `b` extends `a`,
      whatever the later events say: history may grow under a cached response but never change. */
  lemma CachedIffExtension(r: Rules, a: seq<Event>, b: seq<Event>, subject: string, rest: string)
    requires r.Sound() && Accepted(r, a) && Accepted(r, b) && r.queryable(subject) && Referable(Relevant(a, subject))
    ensures CachedHolds(r, b, Answer(r, a, subject, rest)) <==> IsPrefix(a, b)
  {
    hide Linked, Relevant, ResponseState, Referable;
    var q := Answer(r, a, subject, rest);
    if IsPrefix(a, b) {
      assert b[..|a| - 1 + 1] == a && b[|a| - 1] == a[|a| - 1];
      assert HoldsAt(r, b, q, |a| - 1);
    }
    if CachedHolds(r, b, q) {
      var n: nat :| n < |b| && HoldsAt(r, b, q, n);
      PrefixAccepted(r, b, n + 1);
      assert b[..n + 1][n] == b[n];
      HeadDetermines(r, a, b[..n + 1]);
    }
  }

  lemma {:induction false} RelevantMembers(es: seq<Event>, subject: string)
    ensures forall e :: e in Relevant(es, subject) <==> e in es && e.basis.subject == subject
  {
    if es != [] {
      RelevantMembers(es[..|es| - 1], subject);
    }
  }

  lemma StateByMembers(es: seq<Event>)
    ensures ResponseState(es).Conflict? <==> exists e :: e in es && e.basis.evidence.Conflicting?
    ensures ResponseState(es).Known? <==>
      (exists e :: e in es && e.basis.evidence.Observed?) && forall e :: e in es ==>
        !e.basis.evidence.Conflicting? && !Corrects(e)
  {
    if e :| e in es && e.basis.evidence.Conflicting? {
      var i :| 0 <= i < |es| && es[i] == e;
    }
    if e :| e in es && Corrects(e) {
      var i :| 0 <= i < |es| && es[i] == e;
    }
    if e :| e in es && e.basis.evidence.Observed? {
      var i :| 0 <= i < |es| && es[i] == e;
    }
  }

  /** A conflict is permanent; and a subject once corrected never becomes known again. */
  lemma ConflictIsPermanent(a: seq<Event>, b: seq<Event>, subject: string)
    requires IsPrefix(a, b)
    ensures ResponseState(Relevant(a, subject)).Conflict? ==> ResponseState(Relevant(b, subject)).Conflict?
    ensures (exists e :: e in Relevant(a, subject) && Corrects(e)) ==> !ResponseState(Relevant(b, subject)).Known?
  {
    hide ResponseState, Corrects;
    RelevantMembers(a, subject);
    RelevantMembers(b, subject);
    StateByMembers(Relevant(a, subject));
    StateByMembers(Relevant(b, subject));
    assert forall e :: e in a ==> e in b;
  }
}
