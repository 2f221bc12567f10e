/**
  The append-only ledger with hash chaining (src/behavior_lab/ledger.py).

  A hash is a constructor over what it digests, so two digests are equal only
  when the digested bodies are; `Genesis` is a separate constructor.  The file
  is the field `records`; `exclusive()` is a method call, which is atomic.
*/
module Ledger {
  import opened Wrappers

  /** A record id: plain text, or a prefix followed by the stable hash of some fields. */
  datatype RecordId = Text(text: string) | Hashed(prefix: string, parts: seq<string>)

  datatype Hash<P> = Genesis | Digest(body: Body<P>)

  datatype Body<P> = Body(
    recordId: RecordId, recordType: string, writtenAt: int, previousHash: Hash<P>, payload: P)

  /** What one line of the file holds.  Nothing ties `recordHash` to `body`: a file can be edited. */
  datatype Record<P> = Record(body: Body<P>, recordHash: Hash<P>) {
    function Id(): RecordId { body.recordId }
    function Type(): string { body.recordType }
    function WrittenAt(): int { body.writtenAt }
    function Payload(): P { body.payload }
  }

  datatype Entry<P> = Entry(recordType: string, payload: P, recordId: RecordId)

  datatype Error = EmptyRecordType | IntegrityFailure | DuplicateId | Refused(reason: string)

  /** A guard inspects the current records and may refuse the append, giving a reason. */
  type Guard<!P> = seq<Record<P>> -> Option<string>

  // ---------------------------------------------------------------- the chain

  function Head<P>(records: seq<Record<P>>): Hash<P> {
    if records == [] then Genesis else records[|records|-1].recordHash
  }

  /** One record continues the chain whose head is `previous`. */
  predicate Links<P(==)>(previous: Hash<P>, r: Record<P>) {
    r.body.previousHash == previous && r.recordHash == Digest(r.body)
  }

  predicate Verified<P(==)>(records: seq<Record<P>>) {
    records == [] ||
    (Verified(records[..|records|-1]) && Links(Head(records[..|records|-1]), records[|records|-1]))
  }

  lemma {:induction false} VerifiedPrefix<P>(records: seq<Record<P>>, k: nat)
    requires Verified(records) && k <= |records|
    ensures Verified(records[..k])
  {
    if k < |records| {
      VerifiedPrefix(records[..|records|-1], k);
      assert records[..|records|-1][..k] == records[..k];
    } else {
      assert records[..k] == records;
    }
  }

  /** Two verified ledgers with the same head are the same ledger, record for record. */
  lemma {:induction false} TamperEvidence<P>(a: seq<Record<P>>, b: seq<Record<P>>)
    requires Verified(a) && Verified(b)
    ensures Head(a) == Head(b) <==> a == b
  {
    if a != [] && b != [] && Head(a) == Head(b) {
      TamperEvidence(a[..|a|-1], b[..|b|-1]);
      assert a == a[..|a|-1] + [a[|a|-1]] && b == b[..|b|-1] + [b[|b|-1]];
    }
  }

  /** Replacing any one record of a verified ledger and keeping its head breaks verification. */
  lemma EditIsDetected<P>(a: seq<Record<P>>, k: nat, r: Record<P>)
    requires Verified(a) && k < |a| && r != a[k]
    requires Head(a[k := r]) == Head(a)
    ensures !Verified(a[k := r])
  {
    assert a[k := r][k] != a[k];
    if Verified(a[k := r]) {
      TamperEvidence(a, a[k := r]);
    }
  }

  // ---------------------------------------------------------------- appending

  predicate Blank(text: string) {
    forall c :: c in text ==> c in [' ', '\t', '\n', '\r']
  }

  predicate HasId<P>(records: seq<Record<P>>, id: RecordId) {
    exists i :: 0 <= i < |records| && records[i].Id() == id
  }

  /** The last record with that id and type. */
  function LastMatch<P>(records: seq<Record<P>>, id: RecordId, recordType: string): Option<Record<P>> {
    if records == [] then None
    else
      var last := records[|records|-1];
      if last.Id() == id && last.Type() == recordType then Some(last)
      else LastMatch(records[..|records|-1], id, recordType)
  }

  /** `find_record` answers exactly when there is a match, and with one. */
  lemma {:induction false} LastMatchFinds<P>(records: seq<Record<P>>, id: RecordId, recordType: string)
    ensures var found := LastMatch(records, id, recordType);
            && (found.Some? ==> found.value in records && found.value.Id() == id && found.value.Type() == recordType)
            && (found.None? ==> forall r :: r in records ==> !(r.Id() == id && r.Type() == recordType))
  {
    if records != [] {
      LastMatchFinds(records[..|records|-1], id, recordType);
      assert records == records[..|records|-1] + [records[|records|-1]];
    }
  }

  /** ... the last one, in ledger order. */
  lemma {:induction false} LastMatchIsLast<P>(records: seq<Record<P>>, id: RecordId, recordType: string, i: nat)
    requires i < |records| && records[i].Id() == id && records[i].Type() == recordType
    requires forall j :: i < j < |records| ==> !(records[j].Id() == id && records[j].Type() == recordType)
    ensures LastMatch(records, id, recordType) == Some(records[i])
  {
    if i < |records| - 1 {
      var front := records[..|records|-1];
      assert forall j :: 0 <= j < |front| ==> front[j] == records[j];
      LastMatchIsLast(front, id, recordType, i);
    }
  }

  function Seal<P>(records: seq<Record<P>>, entry: Entry<P>, now: int): Record<P> {
    var body := Body(entry.recordId, entry.recordType, now, Head(records), entry.payload);
    Record(body, Digest(body))
  }

  function SealAll<P>(records: seq<Record<P>>, entries: seq<Entry<P>>, now: int): (r: seq<Record<P>>)
    ensures |r| == |records| + |entries| && records <= r
    decreases |entries|
  {
    if entries == [] then records
    else SealAll(records + [Seal(records, entries[0], now)], entries[1..], now)
  }

  /** What `append_guarded` leaves in the file, or the error it raises. */
  function Appended<P(==)>(records: seq<Record<P>>, entry: Entry<P>, now: int, unique: bool, guard: Guard<P>)
    : Result<seq<Record<P>>, Error>
  {
    if Blank(entry.recordType) then Failure(EmptyRecordType)
    else if !Verified(records) then Failure(IntegrityFailure)
    else if unique && HasId(records, entry.recordId) then Failure(DuplicateId)
    else match guard(records)
      case Some(reason) => Failure(Refused(reason))
      case None => Success(records + [Seal(records, entry, now)])
  }

  /**
    An append goes through exactly when the record has a type, the chain verifies,
    the id is new where it must be and the guard does not object; what it adds is
    one record with what the caller gave, linked to the last one.
  */
  lemma AppendedExactly<P>(records: seq<Record<P>>, entry: Entry<P>, now: int, unique: bool, guard: Guard<P>)
    ensures var after := Appended(records, entry, now, unique, guard);
            && (after.Success? <==>
                  && !Blank(entry.recordType) && Verified(records)
                  && (unique ==> forall i :: 0 <= i < |records| ==> records[i].Id() != entry.recordId)
                  && guard(records) == None)
            && (after.Success? ==>
                  && |after.value| == |records| + 1 && after.value[..|records|] == records && Verified(after.value)
                  && var r := after.value[|records|];
                  && r.Id() == entry.recordId && r.Type() == entry.recordType && r.Payload() == entry.payload
                  && r.WrittenAt() == now)
            && (after == Failure(EmptyRecordType) <==> Blank(entry.recordType))
            && (after == Failure(IntegrityFailure) <==> !Blank(entry.recordType) && !Verified(records))
            && (after == Failure(DuplicateId) <==>
                  && !Blank(entry.recordType) && Verified(records) && unique
                  && exists i :: 0 <= i < |records| && records[i].Id() == entry.recordId)
            && (forall reason :: after == Failure(Refused(reason)) ==> guard(records) == Some(reason))
  {
    hide Verified, Blank;
    if Verified(records) {
      SealVerified(records, entry, now);
    }
  }

  /** No new id is taken, and none repeats within the batch. */
  predicate FreshIds<P>(records: seq<Record<P>>, entries: seq<Entry<P>>) {
    && (forall i :: 0 <= i < |entries| ==> !HasId(records, entries[i].recordId))
    && (forall i, j :: 0 <= i < j < |entries| ==> entries[i].recordId != entries[j].recordId)
  }

  /** What `append_many_guarded` leaves in the file, or the error it raises. */
  function BatchAppended<P(==)>(
    records: seq<Record<P>>, entries: seq<Entry<P>>, now: int, unique: bool, guard: Guard<P>)
    : Result<seq<Record<P>>, Error>
  {
    if entries == [] then Success(records)
    else if exists i :: 0 <= i < |entries| && Blank(entries[i].recordType) then Failure(EmptyRecordType)
    else if !Verified(records) then Failure(IntegrityFailure)
    else match guard(records)
      case Some(reason) => Failure(Refused(reason))
      case None =>
        if unique && !FreshIds(records, entries) then Failure(DuplicateId)
        else Success(SealAll(records, entries, now))
  }

  function NoGuard<P>(): Guard<P> { records => None }

  /** The entries appended one `append` at a time, stopping at the first error. */
  function AppendedSingly<P(==)>(records: seq<Record<P>>, entries: seq<Entry<P>>, now: int)
    : Result<seq<Record<P>>, Error>
    decreases |entries|
  {
    if entries == [] then Success(records)
    else match Appended(records, entries[0], now, true, NoGuard())
      case Failure(error) => Failure(error)
      case Success(longer) => AppendedSingly(longer, entries[1..], now)
  }

  lemma SealVerified<P>(records: seq<Record<P>>, entry: Entry<P>, now: int)
    requires Verified(records)
    ensures Verified(records + [Seal(records, entry, now)])
  {
    var longer := records + [Seal(records, entry, now)];
    assert longer[..|longer|-1] == records;
  }

  /** A batch extends a verified chain to a verified chain. */
  lemma {:induction false} SealAllVerified<P>(records: seq<Record<P>>, entries: seq<Entry<P>>, now: int)
    requires Verified(records)
    ensures Verified(SealAll(records, entries, now))
    decreases |entries|
  {
    if entries != [] {
      SealVerified(records, entries[0], now);
      SealAllVerified(records + [Seal(records, entries[0], now)], entries[1..], now);
    }
  }

  lemma HasIdSnoc<P>(records: seq<Record<P>>, r: Record<P>, id: RecordId)
    ensures HasId(records + [r], id) <==> HasId(records, id) || r.Id() == id
  {
    var longer := records + [r];
    if HasId(records, id) {
      var i :| 0 <= i < |records| && records[i].Id() == id;
      assert longer[i].Id() == id;
    }
    if r.Id() == id {
      assert longer[|records|].Id() == id;
    }
  }

  lemma FreshIdsStep<P>(records: seq<Record<P>>, entries: seq<Entry<P>>, now: int)
    requires entries != []
    ensures FreshIds(records, entries) <==>
      !HasId(records, entries[0].recordId) && FreshIds(records + [Seal(records, entries[0], now)], entries[1..])
  {
    var r := Seal(records, entries[0], now);
    var rest := entries[1..];
    forall i | 0 <= i < |rest|
      ensures HasId(records + [r], rest[i].recordId) <==>
              HasId(records, entries[i + 1].recordId) || entries[0].recordId == entries[i + 1].recordId
    {
      HasIdSnoc(records, r, rest[i].recordId);
    }
    if !HasId(records, entries[0].recordId) && FreshIds(records + [r], rest) {
      forall i | 0 <= i < |entries| ensures !HasId(records, entries[i].recordId) {
        if i > 0 { assert entries[i] == rest[i - 1]; }
      }
      forall i, j | 0 <= i < j < |entries| ensures entries[i].recordId != entries[j].recordId {
        assert entries[j] == rest[j - 1];
        if i > 0 { assert entries[i] == rest[i - 1]; }
      }
    }
  }

  /**
    A batch append refines iterated single appends: both succeed together and
    then leave the same verified extension of the old ledger.
  */
  lemma {:induction false} BatchRefinesSingleAppends<P>(records: seq<Record<P>>, entries: seq<Entry<P>>, now: int)
    ensures var batch := BatchAppended(records, entries, now, true, NoGuard());
            var singly := AppendedSingly(records, entries, now);
            && (batch.Success? <==> singly.Success?)
            && (batch.Success? ==> batch == singly && records <= batch.value &&
                                   (Verified(records) ==> Verified(batch.value)))
    decreases |entries|
  {
    hide Verified;
    if entries != [] {
      var longer := records + [Seal(records, entries[0], now)];
      var rest := entries[1..];
      FreshIdsStep(records, entries, now);
      assert (exists i :: 0 <= i < |entries| && Blank(entries[i].recordType)) <==>
             Blank(entries[0].recordType) || exists i :: 0 <= i < |rest| && Blank(rest[i].recordType)
      by {
        if i :| 0 <= i < |rest| && Blank(rest[i].recordType) {
          assert entries[i + 1] == rest[i];
        }
        if i :| 0 < i < |entries| && Blank(entries[i].recordType) {
          assert rest[i - 1] == entries[i];
        }
      }
      if Verified(records) {
        SealVerified(records, entries[0], now);
        SealAllVerified(records, entries, now);
        BatchRefinesSingleAppends(longer, rest, now);
        if !Blank(entries[0].recordType) && !HasId(records, entries[0].recordId) {
          assert AppendedSingly(records, entries, now) == AppendedSingly(longer, rest, now);
          assert SealAll(records, entries, now) == SealAll(longer, rest, now);
          assert rest == [] ==> SealAll(longer, rest, now) == longer;
        }
      }
    }
  }

  // ---------------------------------------------------------------- the class

  class ImmutableLedger<P(==)> {
    var records: seq<Record<P>>

    constructor ()
      ensures records == []
    {
      records := [];
    }

    method VerifyRecords() returns (ok: bool)
      ensures ok == Verified(records)
    {
      var previous: Hash<P> := Genesis;
      var i := 0;
      while i < |records|
        invariant 0 <= i <= |records|
        invariant Verified(records[..i]) && previous == Head(records[..i])
      {
        assert records[..i + 1][..i] == records[..i];
        if !Links(previous, records[i]) {
          if Verified(records) {
            VerifiedPrefix(records, i + 1);
          }
          return false;
        }
        previous := records[i].recordHash;
        i := i + 1;
      }
      assert records[..i] == records;
      return true;
    }

    method AppendGuarded(entry: Entry<P>, now: int, unique: bool, guard: Guard<P>)
      returns (result: Result<Record<P>, Error>)
      modifies this
      ensures match Appended(old(records), entry, now, unique, guard)
              case Success(longer) => records == longer && result == Success(longer[|longer|-1])
              case Failure(error) => records == old(records) && result == Failure(error)
    {
      if Blank(entry.recordType) {
        return Failure(EmptyRecordType);
      }
      var ok := VerifyRecords();
      if !ok {
        return Failure(IntegrityFailure);
      }
      if unique && HasId(records, entry.recordId) {
        return Failure(DuplicateId);
      }
      match guard(records) {
        case Some(reason) =>
          return Failure(Refused(reason));
        case None =>
      }
      var previous := Head(records);
      var body := Body(entry.recordId, entry.recordType, now, previous, entry.payload);
      var record := Record(body, Digest(body));
      records := records + [record];
      return Success(record);
    }

    method AppendManyGuarded(entries: seq<Entry<P>>, now: int, unique: bool, guard: Guard<P>)
      returns (result: Result<seq<Record<P>>, Error>)
      modifies this
      ensures match BatchAppended(old(records), entries, now, unique, guard)
              case Success(longer) => records == longer && result == Success(longer[|old(records)|..])
              case Failure(error) => records == old(records) && result == Failure(error)
    {
      if entries == [] {
        assert records[|records|..] == [];
        return Success([]);
      }
      if exists i :: 0 <= i < |entries| && Blank(entries[i].recordType) {
        return Failure(EmptyRecordType);
      }
      var ok := VerifyRecords();
      if !ok {
        return Failure(IntegrityFailure);
      }
      match guard(records) {
        case Some(reason) =>
          return Failure(Refused(reason));
        case None =>
      }
      if unique && !FreshIds(records, entries) {
        return Failure(DuplicateId);
      }
      var previous := Head(records);
      var bodies: seq<Record<P>> := [];
      var i := 0;
      assert records + bodies == records && entries[0..] == entries;
      while i < |entries|
        invariant 0 <= i <= |entries|
        invariant previous == Head(records + bodies)
        invariant SealAll(records, entries, now) == SealAll(records + bodies, entries[i..], now)
      {
        var body := Body(entries[i].recordId, entries[i].recordType, now, previous, entries[i].payload);
        var record := Record(body, Digest(body));
        assert record == Seal(records + bodies, entries[i..][0], now);
        assert records + (bodies + [record]) == records + bodies + [record];
        assert entries[i..][1..] == entries[i + 1..];
        previous := record.recordHash;
        bodies := bodies + [record];
        i := i + 1;
      }
      records := records + bodies;
      return Success(bodies);
    }

    /** The head identifies the ledger: no other verified ledger ends in it. */
    method LastHash() returns (h: Hash<P>)
      ensures h == Head(records)
      ensures Verified(records) ==>
        forall other: seq<Record<P>> :: Verified(other) ==> (Head(other) == h <==> other == records)
    {
      if Verified(records) {
        forall other: seq<Record<P>> | Verified(other) ensures Head(other) == Head(records) <==> other == records {
          TamperEvidence(other, records);
        }
      }
      h := if records == [] then Genesis else records[|records|-1].recordHash;
    }

    /** The last record of that type with that id. */
    method FindRecord(id: RecordId, recordType: string) returns (found: Option<Record<P>>)
      ensures found == LastMatch(records, id, recordType)
    {
      found := None;
      var i := 0;
      while i < |records|
        invariant 0 <= i <= |records|
        invariant found == LastMatch(records[..i], id, recordType)
      {
        assert records[..i + 1][..i] == records[..i];
        if records[i].Id() == id && records[i].Type() == recordType {
          found := Some(records[i]);
        }
        i := i + 1;
      }
      assert records[..i] == records;
    }
  }
}
