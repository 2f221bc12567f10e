/**
  What holds of the laboratory ledger after every run, in any interleaving of
  any number of clients.
*/
module LabTheorems {
  import opened Wrappers
  import opened Ledger
  import opened LabRecords
  import opened Counting
  import opened Laboratory
  import opened Legality
  import opened LabFacts
  import opened LabSteps
  import opened LabRuns

  /** The world can come about from an empty ledger. */
  ghost predicate Ran(w: World) {
    exists now, actions :: w == Run(Start(now), actions)
  }

  lemma RanOk(w: World)
    requires Ran(w)
    ensures WorldOk(w) && LegalLedger(w.records) && Verified(w.records) && BatchesComplete(w.records)
  {
    hide WorldOk, Run;
    var now, actions :| w == Run(Start(now), actions);
    StartOk(now);
    RunKeepsOk(Start(now), actions);
    OkIsLegal(w);
  }

  lemma OkIsLegal(w: World)
    requires WorldOk(w)
    ensures LegalLedger(w.records) && Verified(w.records) && BatchesComplete(w.records)
  {
    hide LegalLedger, Verified, BatchesComplete;
  }

  /** `n` scans that all show the same ledger. */
  function Everywhere(n: nat, records: seq<Rec>): seq<Observation> { seq(n, i => Saw(records)) }

  // ---------------------------------------------------------------- experiments

  predicate Registers(p: Payload, design: Design) {
    p.Preregistration? && p.design == design
  }

  lemma PreregistrationLegalAt(records: seq<Rec>, k: nat)
    requires LegalLedger(records) && k < |records| && records[k].Payload().Preregistration?
    ensures records[k].Payload().sequence == CountDesign(records[..k], records[k].Payload().design)
  {
    hide LegalLedger;
    LegalAt(records, k);
  }

  lemma SequencesIncrease(records: seq<Rec>, i: nat, j: nat)
    requires LegalLedger(records) && i < j < |records|
    requires records[i].Payload().Preregistration? && records[j].Payload().Preregistration?
    requires records[i].Payload().design == records[j].Payload().design
    ensures records[i].Payload().sequence < records[j].Payload().sequence
  {
    hide LegalLedger;
    PreregistrationLegalAt(records, i);
    PreregistrationLegalAt(records, j);
    var d := records[i].Payload().design;
    assert records[..j][..i + 1] == records[..i + 1] && records[..i + 1][..i] == records[..i];
    DesignsGrow(records[..j], d, i + 1);
  }

  /** The k-th preregistration of a design has sequence k, so two preregistrations of a design never share one. */
  lemma PreregistrationsAreNumbered(w: World, k: nat)
    requires Ran(w) && k < |w.records| && w.records[k].Payload().Preregistration?
    ensures var p := w.records[k].Payload();
            && p.sequence == |set i | 0 <= i < |w.records[..k]| && w.records[..k][i].Payload().Preregistration? &&
                                w.records[..k][i].Payload().design == p.design|
            && forall j :: 0 <= j < |w.records| && j != k && Registers(w.records[j].Payload(), p.design) ==>
                 w.records[j].Payload().sequence != p.sequence
  {
    hide Ran, LegalLedger;
    RanOk(w);
    PreregistrationLegalAt(w.records, k);
    CountDesignExactly(w.records[..k], w.records[k].Payload().design);
    forall j | 0 <= j < |w.records| && j != k && Registers(w.records[j].Payload(), w.records[k].Payload().design)
      ensures w.records[j].Payload().sequence != w.records[k].Payload().sequence
    {
      if j < k { SequencesIncrease(w.records, j, k); } else { SequencesIncrease(w.records, k, j); }
    }
  }

  lemma AssignmentLegalAt(records: seq<Rec>, k: nat)
    requires LegalLedger(records) && k < |records| && records[k].Payload().Assignment?
    ensures LegalAssignment(records[..k], records[k].Payload())
  {
    hide LegalLedger, LegalAssignment;
    LegalAt(records, k);
  }

  lemma IndicesIncrease(records: seq<Rec>, i: nat, j: nat)
    requires LegalLedger(records) && i < j < |records|
    requires records[i].Payload().Assignment? && records[j].Payload().Assignment?
    requires InStream(records[i].Payload(), records[j].Payload().prereg, records[j].Payload().comparison)
    ensures records[i].Payload().index < records[j].Payload().index
  {
    hide LegalLedger;
    AssignmentLegalAt(records, i);
    AssignmentLegalAt(records, j);
    var a := records[j].Payload();
    SameStream(records[..i], records[i].Payload().comparison, a.prereg, a.comparison);
    assert records[..j][..i + 1] == records[..i + 1] && records[..i + 1][..i] == records[..i];
    StreamGrows(records[..j], a.prereg, a.comparison, i + 1);
  }

  /** A preregistered stream does not depend on the comparison named. */
  lemma {:induction false} SameStream(records: seq<Rec>, c: Comparison, prereg: Option<string>, d: Comparison)
    requires prereg == None ==> c == d
    ensures StreamLength(records, prereg, c) == StreamLength(records, prereg, d)
  {
    if records != [] {
      SameStream(records[..|records|-1], c, prereg, d);
    }
  }

  lemma AuthorizedBy(records: seq<Rec>, k: nat) returns (r: nat)
    requires LegalLedger(records) && k < |records| && records[k].Payload().Assignment?
    requires records[k].Payload().prereg.Some?
    ensures r < k && Authorizes(records[r].Payload(), records[k].Payload())
  {
    hide LegalLedger, Authorizes;
    AssignmentLegalAt(records, k);
    r :| 0 <= r < k && Authorizes(records[..k][r].Payload(), records[k].Payload());
    assert records[..k][r] == records[r];
  }

  /** The k-th assignment of a stream has index k, below the number of trials its preregistration plans. */
  lemma AssignmentsAreNumbered(w: World, k: nat)
    requires Ran(w) && k < |w.records| && w.records[k].Payload().Assignment?
    ensures var a := w.records[k].Payload();
            && a.index == |set i | 0 <= i < |w.records[..k]| && w.records[..k][i].Payload().Assignment? &&
                             w.records[..k][i].Payload().prereg == a.prereg &&
                             (a.prereg == None ==> w.records[..k][i].Payload().comparison == a.comparison)|
            && (a.prereg.Some? ==>
                  exists r :: 0 <= r < k && w.records[r].Payload().Preregistration? &&
                    w.records[r].Payload().preregId == a.prereg.value &&
                      a.index < w.records[r].Payload().design.plannedTrials)
  {
    hide Ran, LegalLedger;
    RanOk(w);
    AssignmentLegalAt(w.records, k);
    StreamLengthExactly(w.records[..k], w.records[k].Payload().prereg, w.records[k].Payload().comparison);
    if w.records[k].Payload().prereg.Some? {
      var r := AuthorizedBy(w.records, k);
    }
  }

  lemma NamespaceTellsStream(records: seq<Rec>, i: nat, j: nat)
    requires LegalLedger(records) && i < |records| && j < |records|
    requires records[i].Payload().Assignment? && records[j].Payload().Assignment?
    requires records[i].Payload().namespace == records[j].Payload().namespace
    ensures InStream(records[i].Payload(), records[j].Payload().prereg, records[j].Payload().comparison)
  {
    hide LegalLedger;
    AssignmentLegalAt(records, i);
    AssignmentLegalAt(records, j);
    var a, b := records[i].Payload(), records[j].Payload();
    if a.prereg.Some? && b.prereg.Some? {
      var r := AuthorizedBy(records, i);
      var s := AuthorizedBy(records, j);
      if r < s {
        SequencesIncrease(records, r, s);
      } else if s < r {
        SequencesIncrease(records, s, r);
      }
    } else if a.prereg.Some? {
      var r := AuthorizedBy(records, i);
    } else if b.prereg.Some? {
      var s := AuthorizedBy(records, j);
    }
  }

  /** No randomization draw is ever used twice: namespace and index together identify an assignment. */
  lemma DrawsAreDistinct(w: World, i: nat, j: nat)
    requires Ran(w) && i < j < |w.records|
    requires w.records[i].Payload().Assignment? && w.records[j].Payload().Assignment?
    ensures !(w.records[i].Payload().namespace == w.records[j].Payload().namespace &&
              w.records[i].Payload().index == w.records[j].Payload().index)
  {
    hide Ran, LegalLedger;
    RanOk(w);
    if w.records[i].Payload().namespace == w.records[j].Payload().namespace {
      NamespaceTellsStream(w.records, i, j);
      IndicesIncrease(w.records, i, j);
    }
  }

  lemma IndexFree(records: seq<Rec>, prereg: Option<string>, comparison: Comparison)
    requires LegalLedger(records)
    ensures !IndexTaken(records, prereg, comparison, StreamLength(records, prereg, comparison))
  {
    hide LegalLedger;
    forall i | 0 <= i < |records| && InStream(records[i].Payload(), prereg, comparison)
      ensures records[i].Payload().index < StreamLength(records, prereg, comparison)
    {
      AssignmentLegalAt(records, i);
      SameStream(records[..i], records[i].Payload().comparison, prereg, comparison);
      assert records[..i + 1][..i] == records[..i];
      StreamGrows(records, prereg, comparison, i + 1);
    }
  }

  /** The guard's last test is redundant: the next index of a stream is never taken. */
  lemma NextIndexIsFree(w: World, prereg: Option<string>, comparison: Comparison)
    requires Ran(w)
    ensures !IndexTaken(w.records, prereg, comparison, StreamLength(w.records, prereg, comparison))
  {
    hide Ran, LegalLedger;
    RanOk(w);
    IndexFree(w.records, prereg, comparison);
  }

  lemma TrialLegalAt(records: seq<Rec>, k: nat)
    requires LegalLedger(records) && k < |records| && records[k].Payload().Trial?
    ensures LegalTrial(records[..k], records[k].Payload())
  {
    hide LegalLedger, LegalTrial;
    LegalAt(records, k);
  }

  lemma TrialHasAssignment(records: seq<Rec>, k: nat) returns (a: nat)
    requires LegalLedger(records) && k < |records| && records[k].Payload().Trial?
    ensures a < k && Produces(records[a].Payload(), records[k].Payload())
  {
    hide LegalLedger, Produces;
    TrialLegalAt(records, k);
    a :| 0 <= a < k && Produces(records[..k][a].Payload(), records[k].Payload());
    assert records[..k][a] == records[a];
  }

  predicate OutcomeOf(p: Payload, assignment: string) {
    p.Trial? && p.assignmentOf == assignment
  }

  lemma LaterOutcomeDiffers(records: seq<Rec>, i: nat, j: nat)
    requires LegalLedger(records) && i < j < |records|
    requires records[i].Payload().Trial? && records[j].Payload().Trial?
    ensures records[i].Payload().assignmentOf != records[j].Payload().assignmentOf
  {
    hide LegalLedger;
    TrialLegalAt(records, j);
    assert records[..j][i] == records[i];
  }

  /** An assignment has at most one outcome, recorded after it and not dated before it. */
  lemma OneOutcomePerAssignment(w: World, k: nat)
    requires Ran(w) && k < |w.records| && w.records[k].Payload().Trial?
    ensures var t := w.records[k].Payload();
            && (exists a :: 0 <= a < k && Produces(w.records[a].Payload(), t))
            && forall j :: 0 <= j < |w.records| && OutcomeOf(w.records[j].Payload(), t.assignmentOf) ==> j == k
  {
    hide Ran, LegalLedger, Produces;
    RanOk(w);
    var records := w.records;
    var a := TrialHasAssignment(records, k);
    forall j | 0 <= j < |records| && OutcomeOf(records[j].Payload(), records[k].Payload().assignmentOf)
      ensures j == k
    {
      if j < k {
        LaterOutcomeDiffers(records, j, k);
      } else if k < j {
        LaterOutcomeDiffers(records, k, j);
      }
    }
  }

  // ---------------------------------------------------------------- splits

  /** The error for a case assigned twice never fires: each case has at most one split in a campaign. */
  lemma OneSplitPerCase(w: World, campaign: string)
    requires Ran(w)
    ensures ManifestReadable(w.records, campaign)
  {
    hide Ran, LegalLedger;
    RanOk(w);
    ManifestAlwaysReadable(w.records, campaign);
  }

  /** Once a campaign exists its training, development and hidden sets are fixed, and new cases go elsewhere. */
  lemma StandardSetsNeverChange(w: World, actions: seq<Action>, campaign: string)
    requires Ran(w) && CampaignExists(w.records, campaign)
    ensures var later := Run(w, actions).records;
            && (forall split :: Standard(split) ==>
                CasesIn(w.records, campaign, split) == CasesIn(later, campaign, split))
            && forall k :: |w.records| <= k < |later| && SplitsIn(later[k], campaign) ==>
                 later[k].Payload().split in {Staging, Prospective}
  {
    hide Ran, LegalLedger, Run, WorldOk, CampaignExists, CasesIn, BatchesComplete;
    RanOk(w);
    RunKeepsOk(w, actions);
    OkIsLegal(Run(w, actions));
    var later := Run(w, actions).records;
    forall split | Standard(split) ensures CasesIn(w.records, campaign, split) == CasesIn(later, campaign, split) {
      StandardSplitsFixed(w.records, later, campaign, split);
    }
    forall k | |w.records| <= k < |later| && SplitsIn(later[k], campaign)
      ensures later[k].Payload().split in {Staging, Prospective}
    {
      LateSplitNotStandard(w.records, later, campaign, k);
    }
  }

  lemma OtherSplits(split: Split)
    ensures Standard(split) || split in {Staging, Prospective}
  {
    match split
    case Training => case Development => case Hidden => case Prospective => case Staging =>
  }

  lemma LateSplitNotStandard(earlier: seq<Rec>, records: seq<Rec>, campaign: string, k: nat)
    requires LegalLedger(records) && earlier <= records && BatchesComplete(earlier) && CampaignExists(earlier, campaign)
    requires |earlier| <= k < |records| && SplitsIn(records[k], campaign)
    ensures records[k].Payload().split in {Staging, Prospective}
  {
    hide LegalLedger;
    OtherSplits(records[k].Payload().split);
    if Standard(records[k].Payload().split) {
      var s :| 0 <= s < |earlier| && earlier[s].Payload().CampaignStart? && earlier[s].Payload().campaign == campaign;
      assert records[s] == earlier[s];
      StandardSplitInBatch(records, k, s);
    }
  }
}
