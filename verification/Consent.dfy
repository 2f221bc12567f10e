/**
  Purpose-specific consent over an append-only ledger
  (src/behavior_lab/counterpilot_storage/consent.py).

  Every question is answered by replaying the records of one store that are
  effective by a cutoff, sorted by effective time, then prohibitions after
  grants, then writing time and record id.
*/
module Consent {
  import opened Wrappers
  import opened Ordering
  import opened Ledger

  const RECORD_TYPE := "counterpilot_consent_record"

  datatype Consent = Consent(
    merchant: string, store: string, policyVersion: string, policyHash: string,
    granted: set<string>, prohibited: set<string>, grantedAt: int, revokedAt: Option<int>)

  type Rec = Record<Consent>

  datatype ConsentError =
    | EmptyField | RevokedBeforeGranted | GrantedAndProhibited | Required | NotAppended(error: Error)

  // ---------------------------------------------------------------- constructing a record

  predicate Space(c: char) { c in [' ', '\t', '\n', '\r'] }

  function Strip(s: string): (r: string)
    ensures |r| <= |s|
  {
    if s == [] then s
    else if Space(s[0]) then Strip(s[1..])
    else if Space(s[|s|-1]) then Strip(s[..|s|-1])
    else s
  }

  lemma {:induction false} StripTwice(s: string)
    ensures Strip(Strip(s)) == Strip(s)
    decreases |s|
  {
    if s != [] && Space(s[0]) {
      StripTwice(s[1..]);
    } else if s != [] && Space(s[|s|-1]) {
      StripTwice(s[..|s|-1]);
    }
  }

  /** Stripping takes spaces off both ends, all of them and nothing else. */
  lemma {:induction false} StripExactly(s: string) returns (i: nat, j: nat)
    ensures i <= j <= |s| && Strip(s) == s[i..j]
    ensures forall k :: 0 <= k < i || j <= k < |s| ==> Space(s[k])
    ensures i < j ==> !Space(s[i]) && !Space(s[j - 1])
    decreases |s|
  {
    if s == [] {
      i, j := 0, 0;
    } else if Space(s[0]) {
      i, j := StripExactly(s[1..]);
      assert s[1..][i..j] == s[i + 1..j + 1];
      forall k | 0 <= k < i + 1 || j + 1 <= k < |s| ensures Space(s[k]) {
        if k > 0 { assert s[1..][k - 1] == s[k]; }
      }
      i, j := i + 1, j + 1;
    } else if Space(s[|s|-1]) {
      i, j := StripExactly(s[..|s|-1]);
      assert s[..|s|-1][i..j] == s[i..j];
      forall k | 0 <= k < i || j <= k < |s| ensures Space(s[k]) {
        if k < |s| - 1 { assert s[..|s|-1][k] == s[k]; }
      }
    } else {
      i, j := 0, |s|;
    }
  }

  function Normalize(purposes: set<string>): set<string> {
    set p | p in purposes && Strip(p) != "" :: Strip(p)
  }

  /** What constructing a consent record yields, or the error it raises. */
  function Checked(c: Consent): Result<Consent, ConsentError> {
    var granted, prohibited := Normalize(c.granted), Normalize(c.prohibited);
    if Blank(c.merchant) || Blank(c.store) || Blank(c.policyVersion) || Blank(c.policyHash) then Failure(EmptyField)
    else if c.revokedAt.Some? && c.revokedAt.value < c.grantedAt then Failure(RevokedBeforeGranted)
    else if granted * prohibited != {} then Failure(GrantedAndProhibited)
    else Success(c.(granted := granted, prohibited := prohibited))
  }

  /** What construction guarantees of every record. */
  ghost predicate Sound(c: Consent) {
    && c.granted * c.prohibited == {}
    && (c.revokedAt.Some? ==> c.grantedAt <= c.revokedAt.value)
    && forall p :: p in c.granted + c.prohibited ==> Strip(p) == p != ""
  }

  ghost predicate AllSound(records: seq<Rec>) {
    forall r :: r in records ==> Sound(r.Payload())
  }

  lemma CheckedSound(c: Consent)
    ensures Checked(c).Success? ==> Sound(Checked(c).value)
  {
    forall p | p in Normalize(c.granted) + Normalize(c.prohibited) ensures Strip(p) == p != "" {
      var q :| q in c.granted + c.prohibited && p == Strip(q) && Strip(q) != "";
      StripTwice(q);
    }
  }

  /** A purpose is there once its spaces are off, unless nothing is left of it. */
  ghost predicate Names(purposes: set<string>, purpose: string) {
    purpose != "" && exists p :: p in purposes && Strip(p) == purpose
  }

  /**
    A record is accepted exactly when merchant, store and policy are named, it is
    not revoked before it is granted, and no purpose is granted and prohibited;
    only its purposes are then changed, by taking their spaces off.
  */
  lemma CheckedExactly(c: Consent)
    ensures Checked(c).Success? <==>
      && !Blank(c.merchant) && !Blank(c.store) && !Blank(c.policyVersion) && !Blank(c.policyHash)
      && (c.revokedAt.Some? ==> c.grantedAt <= c.revokedAt.value)
      && forall p :: !(Names(c.granted, p) && Names(c.prohibited, p))
    ensures Checked(c).Success? ==>
      var d := Checked(c).value;
      && d == c.(granted := d.granted, prohibited := d.prohibited)
      && (forall p :: p in d.granted <==> Names(c.granted, p))
      && (forall p :: p in d.prohibited <==> Names(c.prohibited, p))
  {
    hide Blank, Strip;
    NormalizedNames(c.granted);
    NormalizedNames(c.prohibited);
    var granted, prohibited := Normalize(c.granted), Normalize(c.prohibited);
    if p :| Names(c.granted, p) && Names(c.prohibited, p) {
      assert p in granted * prohibited;
    }
    if granted * prohibited != {} {
      var p :| p in granted * prohibited;
      assert Names(c.granted, p) && Names(c.prohibited, p);
    }
  }

  lemma NormalizedNames(purposes: set<string>)
    ensures forall p :: p in Normalize(purposes) <==> Names(purposes, p)
  {
    hide Strip;
  }

  // ---------------------------------------------------------------- answering a question

  /** The store, the purpose and the time a question is about. */
  datatype Query = Query(merchant: string, store: string, purpose: string, cutoff: int)

  predicate Mentions(c: Consent, purpose: string) { purpose in c.granted || purpose in c.prohibited }

  predicate Effective(r: Rec, q: Query) {
    r.Type() == RECORD_TYPE && Concerns(r.Payload(), q)
  }

  predicate Concerns(c: Consent, q: Query) {
    c.merchant == q.merchant && c.store == q.store && c.grantedAt <= q.cutoff
  }

  function EffectiveRecords(records: seq<Rec>, q: Query): seq<Rec> {
    if records == [] then []
    else
      EffectiveRecords(records[..|records|-1], q) +
      if Effective(records[|records|-1], q) then [records[|records|-1]] else []
  }

  function ProhibitionOrder(c: Consent, purpose: string): int {
    if purpose in c.prohibited || (c.revokedAt.Some? && Mentions(c, purpose)) then 1 else 0
  }

  function IdText(id: RecordId): string {
    match id
    case Text(text) => text
    case Hashed(prefix, _) => prefix
  }

  function EffectiveKey(r: Rec, purpose: string): Key {
    Key(r.Payload().grantedAt, ProhibitionOrder(r.Payload(), purpose), r.WrittenAt(), IdText(r.Id()))
  }

  function ByEffect(purpose: string): Rec -> Key { r => EffectiveKey(r, purpose) }

  function Ordered(records: seq<Rec>, q: Query): seq<Rec> {
    SortBy(EffectiveRecords(records, q), ByEffect(q.purpose))
  }

  predicate Revoked(c: Consent, cutoff: int) { c.revokedAt.Some? && c.revokedAt.value <= cutoff }

  /** How one record changes the state. */
  function Decide(state: bool, c: Consent, q: Query): bool {
    var prohibited := if q.purpose in c.prohibited then false else state;
    var granted := if q.purpose in c.granted then !Revoked(c, q.cutoff) else prohibited;
    if Revoked(c, q.cutoff) && Mentions(c, q.purpose) then false else granted
  }

  function Scanned(sorted: seq<Rec>, q: Query): bool {
    if sorted == [] then false
    else Decide(Scanned(sorted[..|sorted|-1], q), sorted[|sorted|-1].Payload(), q)
  }

  function LastMention(sorted: seq<Rec>, purpose: string): Option<Rec> {
    if sorted == [] then None
    else if Mentions(sorted[|sorted|-1].Payload(), purpose) then Some(sorted[|sorted|-1])
    else LastMention(sorted[..|sorted|-1], purpose)
  }

  /** `is_active`. */
  function Active(records: seq<Rec>, q: Query): bool { Scanned(Ordered(records, q), q) }

  // ---------------------------------------------------------------- the deciding record

  predicate Granting(c: Consent, q: Query) { q.purpose in c.granted && !Revoked(c, q.cutoff) }

  lemma {:induction false} EffectiveMembers(records: seq<Rec>, q: Query)
    ensures forall r :: r in EffectiveRecords(records, q) <==> r in records && Effective(r, q)
  {
    if records != [] {
      EffectiveMembers(records[..|records|-1], q);
      assert records == records[..|records|-1] + [records[|records|-1]];
    }
  }

  lemma {:induction false} LastMentionIsLast(sorted: seq<Rec>, purpose: string, key: Rec -> Key)
    requires SortedBy(sorted, key)
    ensures var last := LastMention(sorted, purpose);
            && (last.Some? ==> last.value in sorted && Mentions(last.value.Payload(), purpose))
            && (forall r :: r in sorted && Mentions(r.Payload(), purpose) ==>
                last.Some? && KeyLe(key(r), key(last.value)))
  {
    if sorted != [] {
      var front, r := sorted[..|sorted|-1], sorted[|sorted|-1];
      LastMentionIsLast(front, purpose, key);
      assert sorted == front + [r];
      KeyOrder(key(r), key(r), key(r));
    }
  }

  lemma {:induction false} ScannedIsLastMention(sorted: seq<Rec>, q: Query)
    requires AllSound(sorted)
    ensures Scanned(sorted, q) <==>
      LastMention(sorted, q.purpose).Some? && Granting(LastMention(sorted, q.purpose).value.Payload(), q)
  {
    if sorted != [] {
      var front, r := sorted[..|sorted|-1], sorted[|sorted|-1];
      ScannedIsLastMention(front, q);
      assert r in sorted && Sound(r.Payload());
      assert q.purpose in r.Payload().granted && q.purpose in r.Payload().prohibited ==>
        q.purpose in r.Payload().granted * r.Payload().prohibited;
    }
  }

  /** The record that decides a question. */
  function Deciding(records: seq<Rec>, q: Query): Option<Rec> { LastMention(Ordered(records, q), q.purpose) }

  lemma OrderedMember(records: seq<Rec>, q: Query, r: Rec)
    ensures r in Ordered(records, q) <==> r in records && Effective(r, q)
  {
    hide Effective, KeyLe;
    EffectiveMembers(records, q);
    SortByMembers(EffectiveRecords(records, q), ByEffect(q.purpose));
  }

  lemma OrderedSorted(records: seq<Rec>, q: Query)
    ensures SortedBy(Ordered(records, q), ByEffect(q.purpose))
  {
    SortByCorrect(EffectiveRecords(records, q), ByEffect(q.purpose));
  }

  /** Consent is active exactly when the last effective record mentioning the purpose grants it, unrevoked. */
  lemma LastRecordDecides(records: seq<Rec>, q: Query)
    requires AllSound(records)
    ensures Active(records, q) <==> Deciding(records, q).Some? && Granting(Deciding(records, q).value.Payload(), q)
    ensures Deciding(records, q).Some? ==>
      var r := Deciding(records, q).value; r in records && Effective(r, q) && Mentions(r.Payload(), q.purpose)
    ensures forall r :: r in records && Effective(r, q) && Mentions(r.Payload(), q.purpose) ==>
      Deciding(records, q).Some? &&
        KeyLe(EffectiveKey(r, q.purpose), EffectiveKey(Deciding(records, q).value, q.purpose))
  {
    hide Sound, EffectiveKey, KeyLe, Ordered, Scanned, LastMention, Effective, Mentions, Granting, SortedBy;
    OrderedSorted(records, q);
    forall r: Rec ensures r in Ordered(records, q) <==> r in records && Effective(r, q) {
      OrderedMember(records, q, r);
    }
    LastMentionIsLast(Ordered(records, q), q.purpose, ByEffect(q.purpose));
    ScannedIsLastMention(Ordered(records, q), q);
  }

  /**
    Of the records of the merchant's store that have taken effect and mention the
    purpose, one of the newest decides: consent is active exactly when it grants the
    purpose and is not revoked yet.  At its time a prohibition, or a mention with a
    revocation date, decides over one without, and then the one written last.
  */
  lemma NewestMentionDecides(records: seq<Rec>, q: Query)
    requires AllSound(records)
    ensures Active(records, q) ==> exists r :: r in records && MentionFor(r, q)
    ensures (exists r :: r in records && MentionFor(r, q)) ==>
      exists d ::
        && d in records && MentionFor(d, q)
        && (Active(records, q) <==>
              && q.purpose in d.Payload().granted
              && (d.Payload().revokedAt == None || d.Payload().revokedAt.value > q.cutoff))
        && forall r :: r in records && MentionFor(r, q) ==>
             var rLate := q.purpose in r.Payload().prohibited || r.Payload().revokedAt != None;
             var dLate := q.purpose in d.Payload().prohibited || d.Payload().revokedAt != None;
             || r.Payload().grantedAt < d.Payload().grantedAt
             || (r.Payload().grantedAt == d.Payload().grantedAt &&
                 ((!rLate && dLate) || (rLate == dLate && r.WrittenAt() <= d.WrittenAt())))
  {
    hide Active, Deciding, Sound, EffectiveKey, KeyLe;
    LastRecordDecides(records, q);
    if r :| r in records && MentionFor(r, q) {
      var d := Deciding(records, q).value;
      forall x | x in records && MentionFor(x, q)
        ensures var xLate := q.purpose in x.Payload().prohibited || x.Payload().revokedAt != None;
                var dLate := q.purpose in d.Payload().prohibited || d.Payload().revokedAt != None;
                || x.Payload().grantedAt < d.Payload().grantedAt
                || (x.Payload().grantedAt == d.Payload().grantedAt &&
                    ((!xLate && dLate) || (xLate == dLate && x.WrittenAt() <= d.WrittenAt())))
      {
        DecidedInFull(x, d, q);
      }
    }
  }

  lemma DecidedInFull(r: Rec, d: Rec, q: Query)
    requires Mentions(r.Payload(), q.purpose) && Mentions(d.Payload(), q.purpose)
    requires KeyLe(EffectiveKey(r, q.purpose), EffectiveKey(d, q.purpose))
    ensures var rLate := q.purpose in r.Payload().prohibited || r.Payload().revokedAt != None;
            var dLate := q.purpose in d.Payload().prohibited || d.Payload().revokedAt != None;
            || r.Payload().grantedAt < d.Payload().grantedAt
            || (r.Payload().grantedAt == d.Payload().grantedAt &&
                ((!rLate && dLate) || (rLate == dLate && r.WrittenAt() <= d.WrittenAt())))
  {
  }

  /** A consent record of the merchant's store, in effect by the cutoff, that mentions the purpose. */
  predicate MentionFor(r: Rec, q: Query) {
    && r.Type() == RECORD_TYPE
    && r.Payload().merchant == q.merchant && r.Payload().store == q.store && r.Payload().grantedAt <= q.cutoff
    && (q.purpose in r.Payload().granted || q.purpose in r.Payload().prohibited)
  }

  /** Records of other merchants or stores, of other types, or not in effect yet never matter. */
  lemma OtherRecordsDoNotMatter(records: seq<Rec>, r: Rec, q: Query)
    requires r.Type() != RECORD_TYPE || r.Payload().merchant != q.merchant || r.Payload().store != q.store ||
      r.Payload().grantedAt > q.cutoff
    ensures Active(records + [r], q) == Active(records, q) && Deciding(records + [r], q) == Deciding(records, q)
  {
    assert (records + [r])[..|records + [r]|-1] == records;
    var before := EffectiveRecords(records, q);
    assert before + [] == before;
  }

  // ---------------------------------------------------------------- closed form

  /** The consents a ledger holds. */
  function Consents(records: seq<Rec>): set<Consent> {
    set r | r in records && r.Type() == RECORD_TYPE :: r.Payload()
  }

  predicate Speaks(c: Consent, q: Query) { Concerns(c, q) && Mentions(c, q.purpose) }

  /** The latest effective time that mentions the purpose has a grant, and nothing but open-ended grants. */
  ghost predicate LatestIsGrant(consents: set<Consent>, q: Query) {
    exists g :: g in consents && Speaks(g, q) && q.purpose in g.granted && g.revokedAt == None &&
      forall c :: c in consents && Speaks(c, q) ==>
        c.grantedAt < g.grantedAt || (c.grantedAt == g.grantedAt && ProhibitionOrder(c, q.purpose) == 0)
  }

  /** A grant with a revocation date that has not come yet. */
  predicate Running(c: Consent, q: Query) {
    q.purpose in c.granted && c.revokedAt.Some? && c.revokedAt.value > q.cutoff
  }

  lemma InConsents(records: seq<Rec>, q: Query)
    ensures forall r :: r in records && Effective(r, q) && Mentions(r.Payload(), q.purpose) ==>
      r.Payload() in Consents(records) && Speaks(r.Payload(), q)
    ensures forall c :: c in Consents(records) && Speaks(c, q) ==>
      exists r :: r in records && Effective(r, q) && Mentions(r.Payload(), q.purpose) && r.Payload() == c
  {
    forall c | c in Consents(records) && Speaks(c, q)
      ensures exists r :: r in records && Effective(r, q) && Mentions(r.Payload(), q.purpose) && r.Payload() == c
    {
      var r :| r in records && r.Type() == RECORD_TYPE && r.Payload() == c;
      assert Effective(r, q);
    }
  }

  /** For every ledger: the closed form, or a dated grant still running decides. */
  lemma ActiveExactly(records: seq<Rec>, q: Query)
    requires AllSound(records)
    ensures var decided := Deciding(records, q);
            var dated := decided.Some? && Running(decided.value.Payload(), q);
            && (Active(records, q) <==> LatestIsGrant(Consents(records), q) || dated)
            && !(LatestIsGrant(Consents(records), q) && dated)
  {
    hide Active, Deciding, Sound, Consents, Effective;
    LastRecordDecides(records, q);
    InConsents(records, q);
    var decided := Deciding(records, q);
    if decided.Some? && Granting(decided.value.Payload(), q) && decided.value.Payload().revokedAt == None {
      var g := decided.value.Payload();
      PlainGrantSortsFirst(g, q);
      forall c | c in Consents(records) && Speaks(c, q)
        ensures c.grantedAt < g.grantedAt || (c.grantedAt == g.grantedAt && ProhibitionOrder(c, q.purpose) == 0)
      {
        var r :| r in records && Effective(r, q) && Mentions(r.Payload(), q.purpose) && r.Payload() == c;
        assert KeyLe(EffectiveKey(r, q.purpose), EffectiveKey(decided.value, q.purpose));
        DecidedPlainly(r, decided.value, q);
      }
      assert LatestIsGrant(Consents(records), q);
    }
    if LatestIsGrant(Consents(records), q) {
      var g :| g in Consents(records) && Speaks(g, q) && q.purpose in g.granted && g.revokedAt == None &&
        forall c :: c in Consents(records) && Speaks(c, q) ==>
          c.grantedAt < g.grantedAt || (c.grantedAt == g.grantedAt && ProhibitionOrder(c, q.purpose) == 0);
      var r :| r in records && Effective(r, q) && Mentions(r.Payload(), q.purpose) && r.Payload() == g;
      assert KeyLe(EffectiveKey(r, q.purpose), EffectiveKey(decided.value, q.purpose));
      var d := decided.value.Payload();
      assert d in Consents(records) && Speaks(d, q);
      assert ProhibitionOrder(d, q.purpose) == 0;
    }
  }

  lemma PlainGrantSortsFirst(c: Consent, q: Query)
    requires Sound(c) && q.purpose in c.granted && c.revokedAt == None
    ensures ProhibitionOrder(c, q.purpose) == 0
  {
    assert q.purpose in c.granted && q.purpose in c.prohibited ==> q.purpose in c.granted * c.prohibited;
  }

  lemma DecidedPlainly(r: Rec, decided: Rec, q: Query)
    requires KeyLe(EffectiveKey(r, q.purpose), EffectiveKey(decided, q.purpose))
    ensures r.Payload().grantedAt < decided.Payload().grantedAt ||
            (r.Payload().grantedAt == decided.Payload().grantedAt &&
             ProhibitionOrder(r.Payload(), q.purpose) <= ProhibitionOrder(decided.Payload(), q.purpose))
  {
  }

  /** When no grant of the purpose carries a revocation date still to come, the closed form is the answer. */
  lemma OpenEndedClosedForm(records: seq<Rec>, q: Query)
    requires AllSound(records) && forall c :: c in Consents(records) && Speaks(c, q) ==> !Running(c, q)
    ensures Active(records, q) <==> LatestIsGrant(Consents(records), q)
  {
    hide Active, Deciding, LatestIsGrant, Sound, Effective, Running;
    ActiveExactly(records, q);
    LastRecordDecides(records, q);
    InConsents(records, q);
  }

  /** Then the order in which consents were appended, and when, do not matter. */
  lemma AppendOrderIrrelevant(a: seq<Rec>, b: seq<Rec>, q: Query)
    requires AllSound(a) && AllSound(b) && Consents(a) == Consents(b)
    requires forall c :: c in Consents(a) && Speaks(c, q) ==> !Running(c, q)
    ensures Active(a, q) == Active(b, q)
  {
    hide Active, LatestIsGrant, Sound, Running, Consents;
    OpenEndedClosedForm(a, q);
    OpenEndedClosedForm(b, q);
  }

  /**
    Once a purpose has been prohibited, no number of grants dated before the
    prohibition, or at its very time without a revocation date to come,
    reactivates it, whenever they are appended.
  */
  lemma BackfillNeverReactivates(records: seq<Rec>, q: Query, stop: Consent)
    requires AllSound(records) && stop in Consents(records) && Concerns(stop, q) && q.purpose in stop.prohibited
    requires forall g :: g in Consents(records) && Speaks(g, q) && q.purpose in g.granted ==>
      g.grantedAt < stop.grantedAt || (g.grantedAt == stop.grantedAt && !Running(g, q))
    ensures !Active(records, q)
  {
    hide Active, Deciding, Sound, Consents, Effective;
    LastRecordDecides(records, q);
    InConsents(records, q);
    if Active(records, q) {
      var decided := Deciding(records, q).value;
      var g := decided.Payload();
      assert g in Consents(records) && Speaks(g, q) && q.purpose in g.granted;
      var r :| r in records && Effective(r, q) && Mentions(r.Payload(), q.purpose) && r.Payload() == stop;
      DecidedPlainly(r, decided, q);
      if g.revokedAt == None {
        PlainGrantSortsFirst(g, q);
      }
    }
  }

  lemma VerifiedPair(r0: Rec, r1: Rec)
    requires Links(Genesis, r0) && Links(r0.recordHash, r1)
    ensures Verified([r0, r1])
  {
    var records := [r0, r1];
    assert records[..1] == [r0] && [r0][..0] == [];
  }

  lemma TwoRecords(r0: Rec, r1: Rec, q: Query)
    requires Effective(r0, q) && Effective(r1, q) && KeyLe(EffectiveKey(r0, q.purpose), EffectiveKey(r1, q.purpose))
    requires Mentions(r1.Payload(), q.purpose)
    ensures Ordered([r0, r1], q) == [r0, r1] && Deciding([r0, r1], q) == Some(r1)
  {
    hide Effective, EffectiveKey, KeyLe, Mentions;
    var records := [r0, r1];
    assert records[..1] == [r0] && [r0][..0] == [];
    assert EffectiveRecords([r0], q) == [r0];
    assert EffectiveRecords(records, q) == records;
    var key := ByEffect(q.purpose);
    assert SortBy([r0], key) == [r0];
    assert SortBy(records, key) == Insert([r0], r1, key);
  }

  // ---------------------------------------------------------------- the class

  /** What the latest mention says; `source` is missing when nothing mentions the purpose. */
  datatype Evidence = Evidence(active: bool, source: Option<Rec>)

  /** `latest_evidence`. */
  function EvidenceFor(records: seq<Rec>, q: Query, requireActive: bool): Result<Evidence, ConsentError> {
    if requireActive && !Active(records, q) then Failure(Required)
    else
      var source := Deciding(records, q);
      Success(Evidence(source.Some? && Active(records, q), source))
  }

  /** Evidence that consent is active cites a record that grants the purpose and is not revoked. */
  lemma EvidenceCitesGrant(records: seq<Rec>, q: Query, requireActive: bool)
    requires AllSound(records)
    ensures match EvidenceFor(records, q, requireActive)
            case Failure(_) => requireActive && !Active(records, q)
            case Success(e) =>
              && e.active == Active(records, q)
              && (requireActive ==> e.active)
              && (e.source == None <==> !exists r :: r in records && MentionFor(r, q))
              && (e.source.Some? ==>
                    && e.source.value in records && MentionFor(e.source.value, q)
                    && forall r :: r in records && MentionFor(r, q) ==>
                         r.Payload().grantedAt <= e.source.value.Payload().grantedAt)
              && (e.active ==> e.source.Some? && e.source.value in records && Effective(e.source.value, q) &&
                               Granting(e.source.value.Payload(), q))
  {
    hide Active, Deciding, Sound, Granting, EffectiveKey, KeyLe;
    LastRecordDecides(records, q);
    if Deciding(records, q).Some? {
      var d := Deciding(records, q).value;
      forall r | r in records && MentionFor(r, q) ensures r.Payload().grantedAt <= d.Payload().grantedAt {
        DecidedPlainly(r, d, q);
      }
    }
  }

  function Or(text: string, otherwise: string): string { if text == "" then otherwise else text }

  /** The record a revocation writes: it prohibits the purpose, under the policy last in force. */
  function Revocation(records: seq<Rec>, q: Query): Consent {
    var source := Deciding(records, q);
    var version := if source.Some? then source.value.Payload().policyVersion else "";
    var hash := if source.Some? then source.value.Payload().policyHash else "";
    Consent(q.merchant, q.store, Or(version, "unknown"), Or(hash, "unknown"), {}, {q.purpose}, q.cutoff, Some(q.cutoff))
  }

  /**
    A revocation prohibits just its purpose, for its store, from its very time on,
    and repeats the policy of the newest mention, or `unknown` where there is none.
  */
  lemma RevocationExactly(records: seq<Rec>, q: Query)
    requires AllSound(records)
    ensures var c := Revocation(records, q);
            && c.merchant == q.merchant && c.store == q.store && c.granted == {} && c.prohibited == {q.purpose}
            && c.grantedAt == q.cutoff && c.revokedAt == Some(q.cutoff)
            && (if exists r :: r in records && MentionFor(r, q) then
                  exists d ::
                    && d in records && MentionFor(d, q)
                    && (forall r :: r in records && MentionFor(r, q) ==> r.Payload().grantedAt <= d.Payload().grantedAt)
                    && c.policyVersion ==
                       (if d.Payload().policyVersion == "" then "unknown" else d.Payload().policyVersion)
                    && c.policyHash == (if d.Payload().policyHash == "" then "unknown" else d.Payload().policyHash)
                else c.policyVersion == "unknown" && c.policyHash == "unknown")
  {
    hide Active, Deciding, Sound, EffectiveKey, KeyLe;
    LastRecordDecides(records, q);
    if r :| r in records && MentionFor(r, q) {
      var d := Deciding(records, q).value;
      forall x | x in records && MentionFor(x, q) ensures x.Payload().grantedAt <= d.Payload().grantedAt {
        DecidedPlainly(x, d, q);
      }
    }
  }

  function ConsentId(c: Consent, digest: Consent -> string): RecordId {
    Text("counterpilot_consent_" + digest(c))
  }

  /** What `append` leaves in the ledger, or the error it raises; `digest` names a consent by its content. */
  function AppendedConsent(records: seq<Rec>, c: Consent, digest: Consent -> string, now: int)
    : Result<seq<Rec>, ConsentError>
  {
    match Checked(c)
    case Failure(error) => Failure(error)
    case Success(checked) =>
      match Appended(records, Entry(RECORD_TYPE, checked, ConsentId(checked, digest)), now, true, NoGuard())
      case Failure(error) => Failure(NotAppended(error))
      case Success(longer) => Success(longer)
  }

  /** A consent is appended exactly when it is accepted, the chain verifies and no record has its content's id. */
  lemma AppendedConsentExactly(records: seq<Rec>, c: Consent, digest: Consent -> string, now: int)
    ensures var after := AppendedConsent(records, c, digest, now);
            && (after.Success? <==>
                  Checked(c).Success? && Verified(records) && !HasId(records, ConsentId(Checked(c).value, digest)))
            && (after.Success? ==>
                  && |after.value| == |records| + 1 && after.value[..|records|] == records
                  && after.value[|records|].Payload() == Checked(c).value
                  && after.value[|records|].Id() == Text("counterpilot_consent_" + digest(Checked(c).value)))
  {
    hide Verified, Checked, HasId;
    assert RECORD_TYPE[0] in RECORD_TYPE;
  }

  lemma AppendedConsentShape(records: seq<Rec>, c: Consent, digest: Consent -> string, now: int)
    requires AllSound(records)
    ensures var after := AppendedConsent(records, c, digest, now);
            after.Success? ==>
              && Checked(c).Success? && AllSound(after.value) && |after.value| == |records| + 1 &&
                records <= after.value
              && after.value[|records|].Type() == RECORD_TYPE && after.value[|records|].Payload() == Checked(c).value
  {
    hide Sound, Checked, Verified;
    CheckedSound(c);
  }

  /**
    A revocation takes effect at once: from its time on the purpose stays
    inactive until a grant dated after it, however many older grants there are
    or are still to come, dated ones of the very same time apart.
  */
  lemma RevocationStops(records: seq<Rec>, q: Query, digest: Consent -> string, now: int, later: seq<Rec>, cutoff: int)
    requires AllSound(later) && q.cutoff <= cutoff
    requires AllSound(records) && AppendedConsent(records, Revocation(records, q), digest, now).Success?
    requires AppendedConsent(records, Revocation(records, q), digest, now).value <= later
    requires forall g :: g in Consents(later) && Speaks(g, q.(cutoff := cutoff)) && q.purpose in g.granted ==>
      g.grantedAt < q.cutoff || (g.grantedAt == q.cutoff && !Running(g, q.(cutoff := cutoff)))
    ensures !Active(later, q.(cutoff := cutoff))
  {
    hide Active, Deciding, AppendedConsent, Running, Sound;
    AppendedConsentShape(records, Revocation(records, q), digest, now);
    var at := q.(cutoff := cutoff);
    var stop := Checked(Revocation(records, q)).value;
    var r := later[|records|];
    assert r in later && r.Payload() == stop;
    if Strip(q.purpose) == q.purpose && q.purpose != "" {
      assert q.purpose in Normalize({q.purpose});
      BackfillNeverReactivates(later, at, stop);
    } else {
      NeverMentioned(later, at);
    }
  }

  const STOP := Consent("m", "s", "unknown", "unknown", {}, {"p"}, 5, Some(5))
  const GRANT := Consent("m", "s", "v", "h", {"p"}, {}, 5, Some(100))

  lemma NotBlank(text: string)
    requires text != "" && !Space(text[0])
    ensures !Blank(text)
  {
    assert text[0] in text;
  }

  lemma PurposeStands()
    ensures Normalize({"p"}) == {"p"} && Normalize({}) == {}
  {
    assert Strip("p") == "p";
  }

  lemma ChecksOut()
    ensures Checked(STOP) == Success(STOP) && Checked(GRANT) == Success(GRANT)
  {
    hide Blank, Normalize;
    PurposeStands();
    NotBlank("m");
    NotBlank("s");
    NotBlank("v");
    NotBlank("h");
    NotBlank("unknown");
  }

  lemma ConsentAppends(records: seq<Rec>, c: Consent, digest: Consent -> string, now: int)
    requires Checked(c) == Success(c) && Verified(records) && !HasId(records, ConsentId(c, digest))
    ensures AppendedConsent(records, c, digest, now) ==
            Success(records + [Seal(records, Entry(RECORD_TYPE, c, ConsentId(c, digest)), now)])
  {
    hide Checked, Blank, Verified, HasId;
    NotBlank(RECORD_TYPE);
  }

  lemma StoppedThenGranted(digest: Consent -> string)
    requires digest(STOP) != digest(GRANT)
    ensures var r0 := Seal([], Entry(RECORD_TYPE, STOP, ConsentId(STOP, digest)), 5);
            var r1 := Seal([r0], Entry(RECORD_TYPE, GRANT, ConsentId(GRANT, digest)), 6);
            && Revocation([], Query("m", "s", "p", 5)) == STOP
            && AppendedConsent([], STOP, digest, 5) == Success([r0])
            && AppendedConsent([r0], GRANT, digest, 6) == Success([r0, r1])
  {
    hide AppendedConsent, Checked;
    ChecksOut();
    var prefix := "counterpilot_consent_";
    assert (prefix + digest(STOP))[|prefix|..] == digest(STOP) && (prefix + digest(GRANT))[|prefix|..] == digest(GRANT);
    var r0 := Seal([], Entry(RECORD_TYPE, STOP, ConsentId(STOP, digest)), 5);
    var r1 := Seal([r0], Entry(RECORD_TYPE, GRANT, ConsentId(GRANT, digest)), 6);
    VerifiedPair(r0, r1);
    ConsentAppends([], STOP, digest, 5);
    assert [] + [r0] == [r0] && [r0] + [r1] == [r0, r1] && [r0, r1][..1] == [r0];
    ConsentAppends([r0], GRANT, digest, 6);
  }

  /**
    A revocation followed by a grant backfilled at its very time, with a
    revocation date still to come: both as the ledger writes them.  The grant
    reactivates the purpose, and escapes the closed form.
  */
  lemma DatedGrantReactivates(digest: Consent -> string)
    requires digest(STOP) != digest(GRANT)
    ensures var q := Query("m", "s", "p", 10);
            var stopped := AppendedConsent([], Revocation([], Query("m", "s", "p", 5)), digest, 5);
            && stopped.Success? && !Active(stopped.value, q)
            && var granted := AppendedConsent(stopped.value, GRANT, digest, 6);
               && granted.Success? && Verified(granted.value) && AllSound(granted.value)
               && STOP in Consents(granted.value) && Concerns(STOP, q) && q.purpose in STOP.prohibited
               && (forall g :: g in Consents(granted.value) && q.purpose in g.granted ==> g.grantedAt <= STOP.grantedAt)
               && Active(granted.value, q) && !LatestIsGrant(Consents(granted.value), q)
  {
    hide AppendedConsent, Revocation, LatestIsGrant;
    StoppedThenGranted(digest);
    var q := Query("m", "s", "p", 10);
    var r0 := Seal([], Entry(RECORD_TYPE, STOP, ConsentId(STOP, digest)), 5);
    var r1 := Seal([r0], Entry(RECORD_TYPE, GRANT, ConsentId(GRANT, digest)), 6);
    assert Strip("p") == "p";
    TwoRecords(r0, r1, q);
    VerifiedPair(r0, r1);
    assert r0 in [r0, r1] && r1 in [r0, r1] && r0 in [r0];
    assert r0.Payload() in Consents([r0, r1]) && r0.Payload() in Consents([r0]);
    BackfillNeverReactivates([r0], q, STOP);
    ActiveExactly([r0, r1], q);
  }

  /** A purpose no record can name is never active. */
  lemma NeverMentioned(records: seq<Rec>, q: Query)
    requires AllSound(records) && (Strip(q.purpose) != q.purpose || q.purpose == "")
    ensures !Active(records, q)
  {
    hide Active, Deciding;
    LastRecordDecides(records, q);
  }

  class ConsentLedger {
    const ledger: ImmutableLedger<Consent>
    const digest: Consent -> string

    constructor (ledger: ImmutableLedger<Consent>, digest: Consent -> string)
      ensures this.ledger == ledger && this.digest == digest
    {
      this.ledger, this.digest := ledger, digest;
    }

    method AppendConsent(c: Consent, now: int) returns (result: Result<Rec, ConsentError>)
      modifies ledger
      ensures match AppendedConsent(old(ledger.records), c, digest, now)
              case Success(longer) => ledger.records == longer && result == Success(longer[|longer|-1])
              case Failure(error) => ledger.records == old(ledger.records) && result == Failure(error)
    {
      var checked := Checked(c);
      if checked.Failure? {
        return Failure(checked.error);
      }
      var recordId := ConsentId(checked.value, digest);
      var appended := ledger.AppendGuarded(Entry(RECORD_TYPE, checked.value, recordId), now, true, NoGuard());
      match appended
      case Success(record) => result := Success(record);
      case Failure(error) => result := Failure(NotAppended(error));
    }

    method EffectiveOnes(q: Query) returns (sorted: seq<Rec>)
      ensures sorted == Ordered(ledger.records, q)
    {
      var found: seq<Rec> := [];
      var i := 0;
      while i < |ledger.records|
        invariant 0 <= i <= |ledger.records|
        invariant found == EffectiveRecords(ledger.records[..i], q)
      {
        assert ledger.records[..i + 1][..i] == ledger.records[..i];
        if Effective(ledger.records[i], q) {
          found := found + [ledger.records[i]];
        }
        i := i + 1;
      }
      assert ledger.records[..i] == ledger.records;
      sorted := SortBy(found, ByEffect(q.purpose));
    }

    method IsActive(q: Query) returns (state: bool)
      ensures state == Active(ledger.records, q)
    {
      state := false;
      var sorted := EffectiveOnes(q);
      var i := 0;
      while i < |sorted|
        invariant 0 <= i <= |sorted|
        invariant state == Scanned(sorted[..i], q)
      {
        assert sorted[..i + 1][..i] == sorted[..i];
        var c := sorted[i].Payload();
        var revoked := c.revokedAt.Some? && c.revokedAt.value <= q.cutoff;
        if q.purpose in c.prohibited {
          state := false;
        }
        if q.purpose in c.granted {
          state := !revoked;
        }
        if revoked && (q.purpose in c.granted || q.purpose in c.prohibited) {
          state := false;
        }
        i := i + 1;
      }
      assert sorted[..i] == sorted;
    }

    method LatestEvidence(q: Query, requireActive: bool) returns (result: Result<Evidence, ConsentError>)
      ensures result == EvidenceFor(ledger.records, q, requireActive)
    {
      if requireActive {
        var active := IsActive(q);
        if !active {
          return Failure(Required);
        }
      }
      var latest := Evidence(false, None);
      var sorted := EffectiveOnes(q);
      var i := 0;
      while i < |sorted|
        invariant 0 <= i <= |sorted|
        invariant latest.source == LastMention(sorted[..i], q.purpose)
        invariant latest.active <==> latest.source.Some? && Active(ledger.records, q)
      {
        assert sorted[..i + 1][..i] == sorted[..i];
        if Mentions(sorted[i].Payload(), q.purpose) {
          var active := IsActive(q);
          latest := Evidence(active, Some(sorted[i]));
        }
        i := i + 1;
      }
      assert sorted[..i] == sorted;
      return Success(latest);
    }

    method Revoke(q: Query, now: int) returns (result: Result<Rec, ConsentError>)
      modifies ledger
      ensures match AppendedConsent(old(ledger.records), Revocation(old(ledger.records), q), digest, now)
              case Success(longer) => ledger.records == longer && result == Success(longer[|longer|-1])
              case Failure(error) => ledger.records == old(ledger.records) && result == Failure(error)
    {
      hide Active, Ordered, AppendedConsent;
      var previous := LatestEvidence(q, false);
      var version, hash := "", "";
      if previous.Success? && previous.value.source.Some? {
        version := previous.value.source.value.Payload().policyVersion;
        hash := previous.value.source.value.Payload().policyHash;
      }
      result := AppendConsent(
        Consent(q.merchant, q.store, Or(version, "unknown"), Or(hash, "unknown"), {}, {q.purpose}, q.cutoff,
                Some(q.cutoff)), now);
    }
  }
}
