/**
  The laboratory as a protocol: any number of clients over one ledger and one clock
  (src/behavior_lab/registry.py, gym.py, research_api.py, experiments.py).

  A client works on a task.  Every scan of the ledger and every reading of the
  clock is a step of its own, at which the client remembers what it saw; the
  guarded append at the end is one step, whose guard looks at the ledger as it
  is then.  Steps of different clients interleave freely, and a client may stop
  anywhere.
*/
module Laboratory {
  import opened Wrappers
  import opened Ledger
  import opened LabRecords
  import TemporalSplit

  datatype Observation = Saw(records: seq<Rec>) | At(time: int)

  datatype Task =
    | Register(preregId: string, design: Design)
    | Assign(prereg: Option<string>, comparison: Comparison, assignmentId: string, arm: string, assignedAt: int)
    | EnsureManifest(campaign: string)
    | FreezeCandidate(campaign: string, modelId: string, freezeId: string, cutoff: int)
    | SubmitHidden(campaign: string, modelId: string, budgetId: string, limit: int)
    | SubmitProspective(campaign: string, modelId: string, budgetId: string, limit: int)

  datatype Client =
    | Working(task: Task, seen: seq<Observation>)
    | Evaluating(use: Payload)  // holds a reservation, about to record the evaluation

  datatype World = World(records: seq<Rec>, now: int, clients: map<nat, Client>)

  datatype Action =
    | Wait(until: int)
    | Begin(client: nat, task: Task)
    | Observe(client: nat)
    | Commit(client: nat)
    | Stop(client: nat)
    | Seed(episodes: seq<Payload>)
    | RecordOutcome(trial: Payload, claimed: Payload)
    | RecordFit(fit: Payload)
    | RecordOpenEvaluation(campaign: string, modelId: string, split: Split)

  /** How many observations a task makes before it commits. */
  function Needed(task: Task): nat {
    match task
    case Register(_, _) => 1
    case Assign(_, _, _, _, _) => 1
    case EnsureManifest(_) => 6
    case FreezeCandidate(_, _, _, _) => 4
    case SubmitHidden(_, _, _, _) => 10
    case SubmitProspective(_, _, _, _) => 7
  }

  /** The freeze reads the clock after it has read the ledger head; all other observations are scans. */
  predicate ReadsClock(task: Task, i: nat) {
    task.FreezeCandidate? && i == 3
  }

  function Scan(seen: seq<Observation>, i: nat): seq<Rec>
    requires i < |seen|
  {
    if seen[i].Saw? then seen[i].records else []
  }

  // ---------------------------------------------------------------- guarded appends

  /** What a commit leaves in the ledger, and what the client does next, if anything. */
  datatype Effect = Effect(records: seq<Rec>, next: Option<Client>)

  /** Append `p` under a guard; on success go on as `next`, on a guard's `retry` go on as `again`, else give up. */
  function Guarded(records: seq<Rec>, p: Payload, now: int, guard: Guard<Payload>, next: Option<Client>,
                   again: Option<Client>)
    : Effect
  {
    match Appended(records, FileEntry(p), now, FiledOnce(p), guard)
    case Success(longer) => Effect(longer, next)
    case Failure(error) => Effect(records, if error == Refused("retry") then again else None)
  }

  function Batch(records: seq<Rec>, payloads: seq<Payload>, now: int): seq<Rec> {
    match BatchAppended(records, FileEntries(payloads), now, true, NoGuard())
    case Success(longer) => longer
    case Failure(_) => records
  }

  function FileEntries(payloads: seq<Payload>): (r: seq<Entry<Payload>>)
    ensures |r| == |payloads| && forall i :: 0 <= i < |r| ==> r[i] == FileEntry(payloads[i])
  {
    seq(|payloads|, i requires 0 <= i < |payloads| => FileEntry(payloads[i]))
  }

  // ---------------------------------------------------------------- experiments

  predicate ValidDesign(d: Design) {
    && !Blank(d.question) && !Blank(d.target) && !Blank(d.population)
    && !Blank(d.comparison.treatment) && !Blank(d.comparison.comparator)
    && d.comparison.treatment != d.comparison.comparator
    && d.plannedTrials > 0 && !Blank(d.stoppingRule) && !Blank(d.analysisPlan)
  }

  function CommitRegister(task: Task, scan: seq<Rec>, records: seq<Rec>, now: int): Effect
    requires task.Register?
  {
    var d := task.design;
    var sequence := CountDesign(scan, d);
    if !ValidDesign(d) then Effect(records, None)
    else
      Guarded(records, Preregistration(task.preregId, d, sequence), now,
              current => if CountDesign(current, d) == sequence then None else Some("retry"),
              None, Some(Working(task, [])))
  }

  function AssignGuard(current: seq<Rec>, prereg: Option<string>, comparison: Comparison, index: nat): Option<string> {
    var planned := if prereg.Some? then FindPreregistration(current, prereg.value) else None;
    if prereg.Some? && (planned.None? || !planned.value.Preregistration?) then Some("unknown preregistration")
    else if prereg.Some? && planned.value.design.comparison != comparison then Some("comparison mismatch")
    else if prereg.Some? && StreamLength(current, prereg, comparison) >= planned.value.design.plannedTrials then
      Some("limit reached")
    else if StreamLength(current, prereg, comparison) != index then Some("retry")
    else if IndexTaken(current, prereg, comparison, index) then Some("retry")
    else None
  }

  function NamespaceFor(scan: seq<Rec>, prereg: Option<string>, comparison: Comparison): Namespace {
    match prereg
    case None => Namespace(OfComparison(comparison), 0, true)
    case Some(id) =>
      match FindPreregistration(scan, id)
      case Some(Preregistration(_, design, sequence)) => Namespace(OfDesign(design), sequence, false)
      case _ => Namespace(OfComparison(comparison), 0, true)
  }

  function CommitAssign(task: Task, scan: seq<Rec>, records: seq<Rec>, now: int): Effect
    requires task.Assign?
  {
    var known := if task.prereg.Some? then FindPreregistration(scan, task.prereg.value) else None;
    if task.comparison.treatment == task.comparison.comparator then Effect(records, None)
    else if task.prereg.Some? && known.None? then Effect(records, None)
    else if task.prereg.Some? && known.value.Preregistration? && known.value.design.comparison != task.comparison then
      Effect(records, None)
    else
      var index := StreamLength(scan, task.prereg, task.comparison);
      var draft := Assignment(task.assignmentId, task.prereg, task.comparison, index,
                              NamespaceFor(scan, task.prereg, task.comparison), task.arm, task.assignedAt);
      Guarded(records, draft, now, current => AssignGuard(current, task.prereg, task.comparison, index),
              None, Some(Working(task, [])))
  }

  /** The guard of `record_trial_outcome`: `claimed` is the assignment the caller presents. */
  function OutcomeGuard(current: seq<Rec>, trial: Payload, claimed: Payload): Option<string>
    requires trial.Trial?
  {
    match FirstAssignment(current, trial.assignmentOf)
    case None => Some("assignment not in this ledger")
    case Some(a) =>
      if !a.Assignment? || a != claimed then Some("assignment altered")
      else if trial.recordedAt < a.assignedAt then Some("outcome before assignment")
      else
        var prereg := a.prereg;
        var planned := if prereg.Some? then FindPreregistration(current, prereg.value) else None;
        if prereg.Some? && prereg.value != "" && (planned.None? || !planned.value.Preregistration?) then
          Some("missing preregistration")
        else if prereg.Some? && prereg.value != "" && planned.value.design.target != "" &&
                planned.value.design.target !in trial.outcomes then Some("missing target")
        else if HasOutcome(current, trial.assignmentOf) then Some("duplicate outcome")
        else None
  }

  // ---------------------------------------------------------------- splits

  const INITIAL := TemporalSplit.Fractions(0.6, 0.2, 0.2, 0.0)

  function SplitPayload(campaign: string, row: Row, split: Split, freezeOf: Option<string>): Payload {
    CaseSplit(campaign, row.caseId, split, freezeOf, row.decidedAt, row.eligibleAt)
  }

  function SplitPayloads(campaign: string, rows: seq<Row>, split: Split): (r: seq<Payload>)
    ensures |r| == |rows|
    ensures forall i :: 0 <= i < |r| ==> r[i] == SplitPayload(campaign, rows[i], split, None)
  {
    seq(|rows|, i requires 0 <= i < |rows| => SplitPayload(campaign, rows[i], split, None))
  }

  /** The entries of `create_campaign`: the start, then every row in its chronological split. */
  function CampaignPayloads(campaign: string, rows: seq<Row>): seq<Payload> {
    var s := TemporalSplit.Rows(rows, RowKey, INITIAL);
    [CampaignStart(campaign, |rows|)] +
    (SplitPayloads(campaign, s.training, Training) + SplitPayloads(campaign, s.development, Development) +
     SplitPayloads(campaign, s.hidden, Hidden) + SplitPayloads(campaign, s.prospective, Prospective))
  }

  /** Staging, or prospective when decided after the cutoff and eligible after the freeze. */
  function Classify(campaign: string, row: Row, freeze: Option<Payload>): Payload {
    if freeze.Some? && freeze.value.Freeze? && row.decidedAt > freeze.value.cutoff &&
      row.eligibleAt > freeze.value.frozenAt
    then SplitPayload(campaign, row, Prospective, Some(freeze.value.freezeId))
    else SplitPayload(campaign, row, Staging, None)
  }

  function ClassifyMissing(campaign: string, rows: seq<Row>, known: seq<Rec>, freeze: Option<Payload>): seq<Payload> {
    if rows == [] then []
    else
      ClassifyMissing(campaign, rows[..|rows|-1], known, freeze) +
      if IsSplit(known, campaign, rows[|rows|-1].caseId) then []
      else [Classify(campaign, rows[|rows|-1], freeze)]
  }

  /**
    `ensure_split_manifest`: scans for the rows (0-2), the splits (3), the
    campaign (4), then the campaign again or the freeze (5).
  */
  function CommitManifest(campaign: string, seen: seq<Observation>, records: seq<Rec>, now: int): Effect
    requires |seen| == 6
  {
    var rows := RowsOf(Scan(seen, 0), Scan(seen, 1), Scan(seen, 2));
    if !ManifestReadable(Scan(seen, 3), campaign) then Effect(records, None)
    else if !CampaignExists(Scan(seen, 4), campaign) then
      if Blank(campaign) || CampaignExists(Scan(seen, 5), campaign) then Effect(records, None)
      else Effect(Batch(records, CampaignPayloads(campaign, rows), now), None)
    else
      var freeze := LatestFreeze(Scan(seen, 5), campaign);
      Effect(Batch(records, ClassifyMissing(campaign, rows, Scan(seen, 3), freeze), now), None)
  }

  // ---------------------------------------------------------------- freezing and the lockboxes

  function FreezeGuard(current: seq<Rec>, campaign: string, head: Hash<Payload>): Option<string> {
    if Head(current) != head then Some("retry")
    else if LatestFreeze(current, campaign).Some? then Some("already frozen")
    else if !AllAssigned(current, campaign) then Some("unassigned observations")
    else None
  }

  /** `freeze_candidate`: scans for the fit (0), an earlier freeze (1) and the head (2), then the clock (3). */
  function CommitFreeze(task: Task, seen: seq<Observation>, records: seq<Rec>, now: int): Effect
    requires task.FreezeCandidate? && |seen| == 4
  {
    match LatestFit(Scan(seen, 0), task.campaign, task.modelId)
    case Some(Fit(_, _, _, artifact)) =>
      if LatestFreeze(Scan(seen, 1), task.campaign).Some? then Effect(records, None)
      else
        var head := Head(Scan(seen, 2));
        var frozenAt := if seen[3].At? then seen[3].time else now;
        Guarded(records, Freeze(task.freezeId, task.campaign, task.modelId, artifact, frozenAt, task.cutoff, head), now,
                current => FreezeGuard(current, task.campaign, head), None, Some(Working(task, seen[..2])))
    case _ => Effect(records, None)
  }

  function ReserveGuard(current: seq<Rec>, split: Split, scope: Scope, cases: set<string>, limit: int): Option<string> {
    if CountUses(current, split, scope) >= limit then Some("budget exhausted")
    else if split == Hidden && HiddenCaseSpent(current, cases) then Some("hidden cases already exposed")
    else None
  }

  /** Budgets are for the two lockboxes, and need a limit, a scope, cases, an artifact and a freeze. */
  predicate Reservable(use: Payload, limit: int)
    requires use.BudgetUse?
  {
    && use.split in {Hidden, Prospective} && limit > 0 && !(use.scope.NamedScope? && Blank(use.scope.name))
    && use.artifact != "" && use.freezeId != "" && use.cases != {}
  }

  /** `reserve_evaluation_budget`: on success the client goes on to evaluate and record. */
  function Reserve(use: Payload, limit: int, records: seq<Rec>, now: int): Effect
    requires use.BudgetUse?
  {
    if !Reservable(use, limit) then Effect(records, None)
    else
      Guarded(records, use, now, current => ReserveGuard(current, use.split, use.scope, use.cases, limit),
              Some(Evaluating(use)), None)
  }

  /** The frozen candidate and fit an evaluation may use: same model, same artifact. */
  function FrozenArtifact(freezes: seq<Rec>, fits: seq<Rec>, campaign: string, modelId: string): Option<Payload> {
    match (LatestFreeze(freezes, campaign), LatestFit(fits, campaign, modelId))
    case (Some(Freeze(id, c, m, artifact, t, cutoff, head)), Some(Fit(_, _, _, fitted))) =>
      if m == modelId && artifact == fitted then Some(Freeze(id, c, m, artifact, t, cutoff, head)) else None
    case _ => None
  }

  function CaseIds(rows: seq<Row>): set<string> {
    set row | row in rows :: row.caseId
  }

  /** The cases of `splits()["hidden"]`, from four scans starting at `i`. */
  function HiddenCases(campaign: string, seen: seq<Observation>, i: nat): set<string>
    requires i + 4 <= |seen|
  {
    CaseIds(RowsOf(Scan(seen, i), Scan(seen, i + 1), Scan(seen, i + 2))) * CasesIn(Scan(seen, i + 3), campaign, Hidden)
  }

  /**
    `evaluate_hypothesis(split="hidden")`: hidden rows (0-3), freeze (4), fit (5),
    the rows again for the scope (6-9).
  */
  function CommitSubmitHidden(task: Task, seen: seq<Observation>, records: seq<Rec>, now: int): Effect
    requires task.SubmitHidden? && |seen| == 10
  {
    match FrozenArtifact(Scan(seen, 4), Scan(seen, 5), task.campaign, task.modelId)
    case Some(Freeze(id, _, _, artifact, _, _, _)) =>
      var scope := HiddenScope(HiddenCases(task.campaign, seen, 6));
      if !ManifestReadable(Scan(seen, 3), task.campaign) || !ManifestReadable(Scan(seen, 9), task.campaign) then
        Effect(records, None)
      else Reserve(BudgetUse(task.budgetId, task.campaign, task.modelId, Hidden, scope,
                        HiddenCases(task.campaign, seen, 0), artifact, id), task.limit, records, now)
    case _ => Effect(records, None)
  }

  /** Cases assigned prospective under the freeze. */
  function ProspectiveCases(splits: seq<Rec>, campaign: string, freezeId: string): set<string> {
    set i | 0 <= i < |splits| && SplitsIn(splits[i], campaign) && splits[i].Payload().split == Prospective &&
      splits[i].Payload().freezeOf == Some(freezeId) :: splits[i].Payload().caseId
  }

  /** The re-validation of `prospective_rows_for_freeze` fails for some selected row. */
  predicate RevalidationFails(rows: seq<Row>, cases: set<string>, freeze: Payload)
    requires freeze.Freeze?
  {
    exists i :: 0 <= i < |rows| && rows[i].caseId in cases &&
      (rows[i].decidedAt <= freeze.cutoff || rows[i].eligibleAt <= freeze.frozenAt)
  }

  /**
    `submit_frozen_candidate`: freeze (0), fit (1), then the freeze (2), rows
    (3-5) and splits (6) of the prospective rows.
  */
  function CommitSubmitProspective(task: Task, seen: seq<Observation>, records: seq<Rec>, now: int): Effect
    requires task.SubmitProspective? && |seen| == 7
  {
    match FrozenArtifact(Scan(seen, 0), Scan(seen, 1), task.campaign, task.modelId)
    case Some(Freeze(id, c, m, artifact, t, cutoff, head)) =>
      var freeze := Freeze(id, c, m, artifact, t, cutoff, head);
      var rows := RowsOf(Scan(seen, 3), Scan(seen, 4), Scan(seen, 5));
      var cases := ProspectiveCases(Scan(seen, 6), task.campaign, id);
      if !FreezeKnown(Scan(seen, 2), task.campaign, id) then Effect(records, None)
      else if !ManifestReadable(Scan(seen, 6), task.campaign) || RevalidationFails(rows, cases, freeze) then
        Effect(records, None)
      else
        Reserve(BudgetUse(task.budgetId, task.campaign, task.modelId, Prospective, ProspectiveScope(id),
                          CaseIds(rows) * cases, artifact, id), task.limit, records, now)
    case _ => Effect(records, None)
  }

  function CommitEvaluation(use: Payload, records: seq<Rec>, now: int): Effect
    requires use.BudgetUse?
  {
    Guarded(records, Evaluation(use.campaign, use.modelId, use.split, Some(use.budgetId)), now, NoGuard(), None, None)
  }

  /** The guard of `record_fit`: one fit per model and campaign. */
  function FitGuard(current: seq<Rec>, fit: Payload): Option<string>
    requires fit.Fit?
  {
    if LatestFit(current, fit.campaign, fit.modelId).Some? then Some("already fitted") else None
  }

  // ---------------------------------------------------------------- steps and runs

  function CommitTask(task: Task, seen: seq<Observation>, records: seq<Rec>, now: int): Effect
    requires |seen| == Needed(task)
  {
    match task
    case Register(_, _) => CommitRegister(task, Scan(seen, 0), records, now)
    case Assign(_, _, _, _, _) => CommitAssign(task, Scan(seen, 0), records, now)
    case EnsureManifest(campaign) => CommitManifest(campaign, seen, records, now)
    case FreezeCandidate(_, _, _, _) => CommitFreeze(task, seen, records, now)
    case SubmitHidden(_, _, _, _) => CommitSubmitHidden(task, seen, records, now)
    case SubmitProspective(_, _, _, _) => CommitSubmitProspective(task, seen, records, now)
  }

  function Put(clients: map<nat, Client>, c: nat, next: Option<Client>): map<nat, Client> {
    match next
    case None => clients - {c}
    case Some(client) => clients[c := client]
  }

  /** A lockbox is opened through an API object, whose construction materialized the campaign's manifest. */
  predicate MayBegin(records: seq<Rec>, task: Task) {
    (task.SubmitHidden? || task.SubmitProspective?) ==> CampaignExists(records, task.campaign)
  }

  function CommitClient(w: World, c: nat): World
    requires c in w.clients
  {
    match w.clients[c]
    case Working(task, seen) =>
      if |seen| != Needed(task) then w
      else
        var e := CommitTask(task, seen, w.records, w.now);
        w.(records := e.records, clients := Put(w.clients, c, e.next))
    case Evaluating(use) =>
      if !use.BudgetUse? then w
      else
        var e := CommitEvaluation(use, w.records, w.now);
        w.(records := e.records, clients := Put(w.clients, c, e.next))
  }

  function ObserveClient(w: World, c: nat): World
    requires c in w.clients
  {
    match w.clients[c]
    case Working(task, seen) =>
      if |seen| >= Needed(task) then w
      else
        var o := if ReadsClock(task, |seen|) then At(w.now) else Saw(w.records);
        w.(clients := w.clients[c := Working(task, seen + [o])])
    case Evaluating(_) => w
  }

  /** An episode is constructed with an id. */
  predicate IsEpisode(p: Payload) {
    p.Episode? && !Blank(p.episodeId)
  }

  /** A trial is constructed with an id and the assignment it is the outcome of. */
  predicate IsTrial(p: Payload) {
    p.Trial? && !Blank(p.trialId) && !Blank(p.assignmentOf)
  }

  function Step(w: World, a: Action): World {
    match a
    case Wait(until) => if until > w.now then w.(now := until) else w
    case Begin(c, task) =>
      if c in w.clients || !MayBegin(w.records, task) then w
      else w.(clients := w.clients[c := Working(task, [])])
    case Observe(c) => if c in w.clients then ObserveClient(w, c) else w
    case Commit(c) => if c in w.clients then CommitClient(w, c) else w
    case Stop(c) => w.(clients := w.clients - {c})
    case Seed(episodes) =>
      if exists i :: 0 <= i < |episodes| && !IsEpisode(episodes[i]) then w
      else w.(records := Batch(w.records, episodes, w.now))
    case RecordOutcome(trial, claimed) =>
      if !IsTrial(trial) then w
      else
        w.(records := Guarded(w.records, trial, w.now, current => OutcomeGuard(current, trial, claimed), None,
                              None).records)
    case RecordFit(fit) =>
      if !fit.Fit? || fit.artifact == "" then w
      else w.(records := Guarded(w.records, fit, w.now, current => FitGuard(current, fit), None, None).records)
    case RecordOpenEvaluation(campaign, modelId, split) =>
      // training and development are scored without a reservation
      if split !in {Training, Development} then w
      else w.(records := Guarded(w.records, Evaluation(campaign, modelId, split, None), w.now, NoGuard(), None,
                                 None).records)
  }

  function Run(w: World, actions: seq<Action>): World {
    if actions == [] then w else Step(Run(w, actions[..|actions|-1]), actions[|actions|-1])
  }

  /** An empty ledger at some time, with nobody working. */
  function Start(now: int): World { World([], now, map[]) }
}
