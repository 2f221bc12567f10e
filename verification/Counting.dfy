/**
  The counts the guards rely on are the sizes of sets of records
  (src/behavior_lab/experiments.py, lines 92-98 and 166-183; registry.py, lines 177-184).
*/
module Counting {
  import opened Wrappers
  import opened LabRecords

  function TrueAt(flags: seq<bool>): set<int> { set i | 0 <= i < |flags| && flags[i] }

  lemma TrueAtSnoc(flags: seq<bool>, last: bool)
    ensures |TrueAt(flags + [last])| == |TrueAt(flags)| + if last then 1 else 0
  {
    var longer, n := flags + [last], |flags|;
    assert forall i :: 0 <= i < n ==> longer[i] == flags[i];
    if last {
      assert TrueAt(longer) == TrueAt(flags) + {n};
    } else {
      assert TrueAt(longer) == TrueAt(flags);
    }
  }

  function Flags(records: seq<Rec>, test: Payload -> bool): (r: seq<bool>)
    ensures |r| == |records| && forall i :: 0 <= i < |r| ==> r[i] == test(records[i].Payload())
  {
    seq(|records|, i requires 0 <= i < |records| => test(records[i].Payload()))
  }

  /** Where the payloads are that a test accepts. */
  function Positions(records: seq<Rec>, test: Payload -> bool): set<int> { TrueAt(Flags(records, test)) }

  lemma PositionsSnoc(records: seq<Rec>, test: Payload -> bool)
    requires records != []
    ensures |Positions(records, test)| ==
            |Positions(records[..|records|-1], test)| + if test(records[|records|-1].Payload()) then 1 else 0
  {
    hide TrueAt;
    var front, last := records[..|records|-1], records[|records|-1];
    assert Flags(records, test) == Flags(front, test) + [test(last.Payload())];
    TrueAtSnoc(Flags(front, test), test(last.Payload()));
  }

  lemma NoPositions(test: Payload -> bool)
    ensures Positions([], test) == {}
  {
  }

  function UseTest(split: Split, scope: Scope): Payload -> bool {
    (p: Payload) => p.BudgetUse? && p.split == split && p.scope == scope
  }

  function DesignTest(design: Design): Payload -> bool {
    (p: Payload) => p.Preregistration? && p.design == design
  }

  function StreamTest(prereg: Option<string>, comparison: Comparison): Payload -> bool {
    (p: Payload) => InStream(p, prereg, comparison)
  }

  lemma {:induction false} CountsAreTallies(records: seq<Rec>, split: Split, scope: Scope, design: Design,
                                            prereg: Option<string>, comparison: Comparison)
    ensures CountUses(records, split, scope) == |Positions(records, UseTest(split, scope))|
    ensures CountDesign(records, design) == |Positions(records, DesignTest(design))|
    ensures StreamLength(records, prereg, comparison) == |Positions(records, StreamTest(prereg, comparison))|
  {
    hide Positions;
    NoPositions(UseTest(split, scope));
    NoPositions(DesignTest(design));
    NoPositions(StreamTest(prereg, comparison));
    if records != [] {
      CountsAreTallies(records[..|records|-1], split, scope, design, prereg, comparison);
      PositionsSnoc(records, UseTest(split, scope));
      PositionsSnoc(records, DesignTest(design));
      PositionsSnoc(records, StreamTest(prereg, comparison));
    }
  }

  const ANY_DESIGN := Design("", ANY, "", "", 0, "", "", false)
  const ANY := Comparison("", "")

  /** Uses are counted one for each record that reserves that split and scope. */
  lemma CountUsesExactly(records: seq<Rec>, split: Split, scope: Scope)
    ensures CountUses(records, split, scope) ==
            |set i | 0 <= i < |records| && records[i].Payload().BudgetUse? && records[i].Payload().split == split &&
               records[i].Payload().scope == scope|
  {
    CountsAreTallies(records, split, scope, ANY_DESIGN, None, ANY);
    assert Positions(records, UseTest(split, scope)) ==
      set i | 0 <= i < |records| && records[i].Payload().BudgetUse? && records[i].Payload().split == split &&
        records[i].Payload().scope == scope;
  }

  /** Registrations are counted one for each record with that design. */
  lemma CountDesignExactly(records: seq<Rec>, design: Design)
    ensures CountDesign(records, design) ==
            |set i | 0 <= i < |records| && records[i].Payload().Preregistration? &&
               records[i].Payload().design == design|
  {
    CountsAreTallies(records, Hidden, NamedScope(""), design, None, ANY);
    assert Positions(records, DesignTest(design)) ==
      set i | 0 <= i < |records| && records[i].Payload().Preregistration? && records[i].Payload().design == design;
  }

  /** A stream is the assignments of one preregistration, or the ad hoc ones of one comparison. */
  lemma StreamLengthExactly(records: seq<Rec>, prereg: Option<string>, comparison: Comparison)
    ensures StreamLength(records, prereg, comparison) ==
            |set i | 0 <= i < |records| && records[i].Payload().Assignment? && records[i].Payload().prereg == prereg &&
               (prereg == None ==> records[i].Payload().comparison == comparison)|
  {
    CountsAreTallies(records, Hidden, NamedScope(""), ANY_DESIGN, prereg, comparison);
    assert Positions(records, StreamTest(prereg, comparison)) ==
      set i | 0 <= i < |records| && records[i].Payload().Assignment? && records[i].Payload().prereg == prereg &&
        (prereg == None ==> records[i].Payload().comparison == comparison);
  }
}
