/**
  The records of the laboratory ledger, and what its clients compute from a scan of it
  (src/behavior_lab/experiments.py, gym.py, registry.py).
*/
module LabRecords {
  import opened Wrappers
  import opened Ordering
  import opened Ledger

  datatype Split = Training | Development | Hidden | Prospective | Staging

  datatype Comparison = Comparison(treatment: string, comparator: string)

  /** The fields hashed into a preregistration's signature. */
  datatype Design = Design(
    question: string, comparison: Comparison, target: string, population: string, plannedTrials: int,
    stoppingRule: string, analysisPlan: string, approvalRequired: bool)

  datatype Signature = OfDesign(design: Design) | OfComparison(comparison: Comparison)

  /** What the randomization draw is keyed by, besides the index. */
  datatype Namespace = Namespace(signature: Signature, sequence: nat, unpreregistered: bool)

  /** What a budget is counted for: a hidden set, a freeze, or whatever else a caller of the registry names. */
  datatype Scope = HiddenScope(cases: set<string>) | ProspectiveScope(freezeId: string) | NamedScope(name: string)

  datatype Payload =
    | CampaignStart(campaign: string, availableCases: nat)
    | Episode(episodeId: string, decisionTime: int, usable: bool)
    | Preregistration(preregId: string, design: Design, sequence: nat)
    | Assignment(assignmentId: string, prereg: Option<string>, comparison: Comparison, index: nat,
                 namespace: Namespace, arm: string, assignedAt: int)
    | Trial(trialId: string, assignmentOf: string, recordedAt: int, outcomes: set<string>, usable: bool)
    | CaseSplit(campaign: string, caseId: string, split: Split, freezeOf: Option<string>,
                decidedAt: int, eligibleAt: int)
    | Fit(campaign: string, modelId: string, hypothesisId: string, artifact: string)
    | Freeze(freezeId: string, campaign: string, modelId: string, artifact: string,
             frozenAt: int, cutoff: int, head: Hash<Payload>)
    | BudgetUse(budgetId: string, campaign: string, modelId: string, split: Split, scope: Scope,
                cases: set<string>, artifact: string, freezeId: string)
    | Evaluation(campaign: string, modelId: string, split: Split, budgetOf: Option<string>)

  type Rec = Record<Payload>

  function TypeOf(p: Payload): string {
    match p
    case CampaignStart(_, _) => "campaign_start"
    case Episode(_, _, _) => "decision_episode"
    case Preregistration(_, _, _) => "experiment_preregistration"
    case Assignment(_, _, _, _, _, _, _) => "intervention_assignment"
    case Trial(_, _, _, _, _) => "intervention_trial"
    case CaseSplit(_, _, _, _, _, _) => "split_assignment"
    case Fit(_, _, _, _) => "model_fit"
    case Freeze(_, _, _, _, _, _, _) => "frozen_candidate"
    case BudgetUse(_, _, _, _, _, _, _, _) => "evaluation_budget_use"
    case Evaluation(_, _, _, _) => "evaluation"
  }

  /** Fits and evaluations are filed under a random id that is not checked for uniqueness. */
  predicate FiledOnce(p: Payload) {
    !p.Fit? && !p.Evaluation?
  }

  function StartId(campaign: string): string { "campaign_" + campaign }

  function SplitId(campaign: string, caseId: string): string { "split_" + campaign + "_" + caseId }

  function FileId(p: Payload): string {
    match p
    case CampaignStart(campaign, _) => StartId(campaign)
    case Episode(id, _, _) => id
    case Preregistration(id, _, _) => id
    case Assignment(id, _, _, _, _, _, _) => id
    case Trial(id, _, _, _, _) => id
    case CaseSplit(campaign, caseId, _, _, _, _) => SplitId(campaign, caseId)
    case Fit(_, modelId, _, _) => "fit_" + modelId
    case Freeze(id, _, _, _, _, _, _) => id
    case BudgetUse(id, _, _, _, _, _, _, _) => id
    case Evaluation(_, modelId, _, _) => "eval_" + modelId
  }

  function FileEntry(p: Payload): Entry<Payload> {
    Entry(TypeOf(p), p, Text(FileId(p)))
  }

  // ---------------------------------------------------------------- scans: experiments

  function CountDesign(records: seq<Rec>, design: Design): nat {
    if records == [] then 0
    else
      var p := records[|records|-1].Payload();
      CountDesign(records[..|records|-1], design) + if p.Preregistration? && p.design == design then 1 else 0
  }

  function StreamLength(records: seq<Rec>, prereg: Option<string>, comparison: Comparison): nat {
    if records == [] then 0
    else
      StreamLength(records[..|records|-1], prereg, comparison) +
      if InStream(records[|records|-1].Payload(), prereg, comparison) then 1 else 0
  }

  /** The last preregistration with that id. */
  function FindPreregistration(records: seq<Rec>, prereg: string): Option<Payload> {
    if records == [] then None
    else
      var p := records[|records|-1].Payload();
      if p.Preregistration? && p.preregId == prereg then Some(p)
      else FindPreregistration(records[..|records|-1], prereg)
  }

  /** The first assignment record with that id. */
  function FirstAssignment(records: seq<Rec>, id: string): Option<Payload> {
    if records == [] then None
    else if records[0].Type() == "intervention_assignment" && records[0].Id() == Text(id) then
      Some(records[0].Payload())
    else FirstAssignment(records[1..], id)
  }

  /** Some assignment of the stream already has that index. */
  predicate IndexTaken(records: seq<Rec>, prereg: Option<string>, comparison: Comparison, index: nat) {
    exists i :: 0 <= i < |records| && InStream(records[i].Payload(), prereg, comparison) &&
      records[i].Payload().index == index
  }

  /** Assignments of one preregistration share a randomization stream, and so do ad hoc ones of one comparison. */
  predicate InStream(p: Payload, prereg: Option<string>, comparison: Comparison) {
    p.Assignment? && p.prereg == prereg && (prereg == None ==> p.comparison == comparison)
  }

  predicate HasOutcome(records: seq<Rec>, assignment: string) {
    exists i :: 0 <= i < |records| && records[i].Payload().Trial? && records[i].Payload().assignmentOf == assignment
  }

  // ---------------------------------------------------------------- scans: cases

  /** A labelled case with the time its decision was made and the time it became eligible. */
  datatype Row = Row(caseId: string, decidedAt: int, eligibleAt: int)

  function RowKey(r: Row): Key { Key(r.decidedAt, 0, 0, r.caseId) }

  function EpisodeRows(episodes: seq<Rec>): seq<Row> {
    if episodes == [] then []
    else
      var r := episodes[|episodes|-1];
      var p := r.Payload();
      EpisodeRows(episodes[..|episodes|-1]) +
      if p.Episode? && p.usable then [Row(p.episodeId, p.decisionTime, r.WrittenAt())] else []
  }

  /** A trial is decided and eligible when its assignment was, if the scan of assignments shows it. */
  function TrialRow(assignments: seq<Rec>, r: Rec): Row
    requires r.Payload().Trial?
  {
    var p := r.Payload();
    match LastMatch(assignments, Text(p.assignmentOf), "intervention_assignment")
    case None => Row(p.trialId, p.recordedAt, r.WrittenAt())
    case Some(a) =>
      Row(p.trialId, if a.Payload().Assignment? then a.Payload().assignedAt else p.recordedAt, a.WrittenAt())
  }

  function TrialRows(assignments: seq<Rec>, trials: seq<Rec>): seq<Row> {
    if trials == [] then []
    else
      var r := trials[|trials|-1];
      TrialRows(assignments, trials[..|trials|-1]) +
      if r.Payload().Trial? && r.Payload().usable then [TrialRow(assignments, r)] else []
  }

  /** `rows()`: three scans, one after the other. */
  function RowsOf(episodes: seq<Rec>, assignments: seq<Rec>, trials: seq<Rec>): seq<Row> {
    SortBy(EpisodeRows(episodes) + TrialRows(assignments, trials), RowKey)
  }

  predicate IsSplit(records: seq<Rec>, campaign: string, caseId: string) {
    exists i :: 0 <= i < |records| && SplitsIn(records[i], campaign) && records[i].Payload().caseId == caseId
  }

  predicate SplitsIn(r: Rec, campaign: string) {
    r.Payload().CaseSplit? && r.Payload().campaign == campaign
  }

  /** `split_assignment_records` raises when a case has been assigned twice. */
  predicate ManifestReadable(records: seq<Rec>, campaign: string) {
    forall i, j :: 0 <= i < j < |records| ==>
      !(SplitsIn(records[i], campaign) && SplitsIn(records[j], campaign) &&
        records[i].Payload().caseId == records[j].Payload().caseId)
  }

  function CasesIn(records: seq<Rec>, campaign: string, split: Split): set<string> {
    set i | 0 <= i < |records| && SplitsIn(records[i], campaign) && records[i].Payload().split == split ::
      records[i].Payload().caseId
  }

  predicate CampaignExists(records: seq<Rec>, campaign: string) {
    exists i :: 0 <= i < |records| && records[i].Payload().CampaignStart? && records[i].Payload().campaign == campaign
  }

  // ---------------------------------------------------------------- scans: models

  function LatestFit(records: seq<Rec>, campaign: string, modelId: string): Option<Payload> {
    if records == [] then None
    else
      var p := records[|records|-1].Payload();
      if p.Fit? && p.campaign == campaign && p.modelId == modelId then Some(p)
      else LatestFit(records[..|records|-1], campaign, modelId)
  }

  function LatestFreeze(records: seq<Rec>, campaign: string): Option<Payload> {
    if records == [] then None
    else
      var p := records[|records|-1].Payload();
      if p.Freeze? && p.campaign == campaign then Some(p)
      else LatestFreeze(records[..|records|-1], campaign)
  }

  predicate FreezeKnown(records: seq<Rec>, campaign: string, freezeId: string) {
    exists i :: 0 <= i < |records| && records[i].Payload().Freeze? && records[i].Payload().campaign == campaign &&
      records[i].Payload().freezeId == freezeId
  }

  /** Every case in the ledger, labelled or not, has a split in the campaign. */
  predicate AllAssigned(records: seq<Rec>, campaign: string) {
    forall i :: 0 <= i < |records| && CaseOf(records[i].Payload()) !in {"", "None"} ==>
      IsSplit(records, campaign, CaseOf(records[i].Payload()))
  }

  /** The case a record is the observation of; empty for other records. */
  function CaseOf(p: Payload): string {
    match p
    case Episode(id, _, _) => id
    case Trial(id, _, _, _, _) => id
    case _ => ""
  }

  function CountUses(records: seq<Rec>, split: Split, scope: Scope): nat {
    if records == [] then 0
    else
      var p := records[|records|-1].Payload();
      CountUses(records[..|records|-1], split, scope) +
      if p.BudgetUse? && p.split == split && p.scope == scope then 1 else 0
  }

  predicate HiddenCaseSpent(records: seq<Rec>, cases: set<string>) {
    exists i :: 0 <= i < |records| && records[i].Payload().BudgetUse? && records[i].Payload().split == Hidden &&
      records[i].Payload().cases * cases != {}
  }

  // ---------------------------------------------------------------- the searches find what is there

  ghost predicate Holds(records: seq<Rec>, p: Payload) {
    exists i :: 0 <= i < |records| && records[i].Payload() == p
  }

  lemma HoldsMore(records: seq<Rec>, more: seq<Rec>, p: Payload)
    requires Holds(records, p) && records <= more
    ensures Holds(more, p)
  {
    var i :| 0 <= i < |records| && records[i].Payload() == p;
    assert more[i] == records[i];
  }

  lemma {:induction false} FindPreregistrationFinds(records: seq<Rec>, prereg: string)
    ensures var found := FindPreregistration(records, prereg);
            found.Some? ==>
              found.value.Preregistration? && found.value.preregId == prereg && Holds(records, found.value)
  {
    if records != [] {
      var front := records[..|records|-1];
      FindPreregistrationFinds(front, prereg);
      var found := FindPreregistration(records, prereg);
      if found.Some? && found == FindPreregistration(front, prereg) {
        HoldsMore(front, records, found.value);
      } else if found.Some? {
        assert records[|records|-1].Payload() == found.value;
      }
    }
  }

  lemma {:induction false} LatestFitFinds(records: seq<Rec>, campaign: string, modelId: string)
    ensures var found := LatestFit(records, campaign, modelId);
            found.Some? ==>
              found.value.Fit? && found.value.campaign == campaign && found.value.modelId == modelId &&
              Holds(records, found.value)
  {
    if records != [] {
      var front := records[..|records|-1];
      LatestFitFinds(front, campaign, modelId);
      var found := LatestFit(records, campaign, modelId);
      if found.Some? && found == LatestFit(front, campaign, modelId) {
        HoldsMore(front, records, found.value);
      } else if found.Some? {
        assert records[|records|-1].Payload() == found.value;
      }
    }
  }

  lemma {:induction false} LatestFreezeFinds(records: seq<Rec>, campaign: string)
    ensures var found := LatestFreeze(records, campaign);
            && (found.Some? ==> found.value.Freeze? && found.value.campaign == campaign && Holds(records, found.value))
            && (found.None? ==> forall i :: 0 <= i < |records| && records[i].Payload().Freeze? ==>
                                  records[i].Payload().campaign != campaign)
  {
    if records != [] {
      var front := records[..|records|-1];
      LatestFreezeFinds(front, campaign);
      var found := LatestFreeze(records, campaign);
      if found.Some? && found == LatestFreeze(front, campaign) {
        HoldsMore(front, records, found.value);
      } else if found.Some? {
        assert records[|records|-1].Payload() == found.value;
      }
    }
  }
}
