/**
  The ledger file, the clock, and everyone else at work on them.

  The methods of the laboratory run in one process while others go on: wherever
  another process could act between two steps of a method, the method takes as a
  parameter what they all do there, as actions of the protocol.
*/
module LabSite {
  import opened Wrappers
  import opened Ledger
  import opened LabRecords
  import opened Laboratory
  import opened Legality
  import opened LabFacts
  import opened LabSteps
  import opened LabRuns

  /** The world after several rounds of actions. */
  function After(w: World, rounds: seq<seq<Action>>): World {
    if rounds == [] then w else Run(After(w, rounds[..|rounds|-1]), rounds[|rounds|-1])
  }

  lemma {:induction false} AfterOk(w: World, rounds: seq<seq<Action>>)
    requires WorldOk(w)
    ensures WorldOk(After(w, rounds)) && w.records <= After(w, rounds).records
  {
    hide WorldOk, Run;
    if rounds != [] {
      AfterOk(w, rounds[..|rounds|-1]);
      RunKeepsOk(After(w, rounds[..|rounds|-1]), rounds[|rounds|-1]);
    }
  }

  lemma NoRounds(w: World, rounds: seq<seq<Action>>)
    ensures After(w, rounds[..0]) == w
  {
  }

  lemma AfterSnoc(w: World, rounds: seq<seq<Action>>, k: nat)
    requires k < |rounds|
    ensures After(w, rounds[..k + 1]) == Run(After(w, rounds[..k]), rounds[k])
  {
    assert rounds[..k + 1][..k] == rounds[..k];
  }

  /** Nobody else does anything. */
  predicate AllQuiet(rivals: seq<seq<Action>>) {
    forall k :: 0 <= k < |rivals| ==> rivals[k] == []
  }

  lemma {:induction false} QuietRounds(w: World, rivals: seq<seq<Action>>, n: nat)
    requires n <= |rivals|
    ensures AllQuiet(rivals) ==> After(w, rivals[..n]) == w
  {
    if n > 0 {
      QuietRounds(w, rivals, n - 1);
      AfterSnoc(w, rivals, n - 1);
    }
  }

  /** A world whose ledger gained one record. */
  function Plus(w: World, p: Payload): World {
    w.(records := w.records + [Seal(w.records, FileEntry(p), w.now)])
  }

  lemma OkFacts(w: World)
    requires WorldOk(w)
    ensures Healthy(w.records, w.now) && Verified(w.records) && LegalLedger(w.records)
  {
    hide Verified, LegalLedger, BatchesComplete, WrittenBy;
  }

  class Site {
    const ledger: ImmutableLedger<Payload>
    var now: int
    var clients: map<nat, Client>

    constructor (ledger: ImmutableLedger<Payload>, now: int)
      ensures this.ledger == ledger && this.now == now && clients == map[]
    {
      this.ledger, this.now, this.clients := ledger, now, map[];
    }

    function Here(): World
      reads this, ledger
    {
      World(ledger.records, now, clients)
    }

    /** Others act. */
    method Others(actions: seq<Action>)
      modifies this, ledger
      ensures Here() == Run(old(Here()), actions)
    {
      hide Step;
      var i := 0;
      assert actions[..0] == [];
      while i < |actions|
        invariant 0 <= i <= |actions|
        invariant Here() == Run(old(Here()), actions[..i])
      {
        assert actions[..i + 1][..i] == actions[..i];
        var w := Step(Here(), actions[i]);
        ledger.records := w.records;
        now, clients := w.now, w.clients;
        i := i + 1;
      }
      assert actions[..i] == actions;
    }

    /** Others act, then the ledger is scanned. */
    method Look(actions: seq<Action>) returns (records: seq<Rec>)
      modifies this, ledger
      ensures Here() == Run(old(Here()), actions) && records == ledger.records
    {
      Others(actions);
      records := ledger.records;
    }

    /** A guarded append at the present time. */
    method Append(p: Payload, guard: Guard<Payload>) returns (result: Result<Rec, Error>)
      modifies this, ledger
      ensures Here() == old(Here()).(records := Guarded(old(Here()).records, p, old(Here()).now, guard, None,
                                                        None).records)
      ensures result.Success? ==> Here() == Plus(old(Here()), p) && guard(old(Here()).records) == None
      ensures result.Failure? ==> Here() == old(Here())
      ensures match result
              case Success(_) => FiledOnce(p) ==> !HasId(old(ledger.records), Text(FileId(p)))
              case Failure(DuplicateId) => FiledOnce(p) && HasId(old(ledger.records), Text(FileId(p)))
              case Failure(Refused(reason)) => guard(old(ledger.records)) == Some(reason)
              case Failure(IntegrityFailure) => !Verified(old(ledger.records))
              case Failure(EmptyRecordType) => false
    {
      hide Verified;
      TypeNotBlank(p);
      result := ledger.AppendGuarded(FileEntry(p), now, FiledOnce(p), guard);
    }

    /** An atomic batch at the present time. */
    method AppendAll(payloads: seq<Payload>)
      modifies this, ledger
      ensures Here() == old(Here()).(records := Batch(old(Here()).records, payloads, old(Here()).now))
    {
      hide Verified;
      var result := ledger.AppendManyGuarded(FileEntries(payloads), now, true, NoGuard());
    }
  }
}
