/**
  Runs in which one client works while nobody else does anything.
*/
module QuietRuns {
  import opened Wrappers
  import opened LabRecords
  import opened Laboratory
  import opened LabTheorems

  /** A run leads from one world to the other. */
  ghost predicate Leads(w: World, w': World) {
    exists actions :: w' == Run(w, actions)
  }

  lemma {:induction false} RunOn(w: World, first: seq<Action>, more: seq<Action>)
    ensures Run(Run(w, first), more) == Run(w, first + more)
  {
    hide Step;
    if more == [] {
      assert first + [] == first;
    } else {
      var front := more[..|more|-1];
      RunOn(w, first, front);
      assert (first + more)[..|first + more|-1] == first + front;
    }
  }

  lemma LeadsOn(u: World, v: World, w: World)
    requires Leads(u, v) && Leads(v, w)
    ensures Leads(u, w)
  {
    hide Run;
    var first :| v == Run(u, first);
    var more :| w == Run(v, more);
    RunOn(u, first, more);
  }

  lemma LeadsNowhere(w: World)
    ensures Leads(w, w)
  {
    assert w == Run(w, []);
  }

  lemma RanOn(w: World, w': World)
    requires Ran(w) && Leads(w, w')
    ensures Ran(w')
  {
    hide Run;
    var now, first :| w == Run(Start(now), first);
    var more :| w' == Run(w, more);
    RunOn(Start(now), first, more);
  }

  /** `w'` comes after `w`: a run leads there, and so a run from the start does if one led to `w`. */
  ghost predicate Follows(w: World, w': World) {
    Leads(w, w') && (Ran(w) ==> Ran(w'))
  }

  lemma FollowsOn(u: World, v: World, w: World)
    requires Follows(u, v) && Follows(v, w)
    ensures Follows(u, w)
  {
    hide Leads, Ran;
    LeadsOn(u, v, w);
  }

  lemma OneStep(w: World, a: Action)
    ensures Follows(w, Step(w, a))
  {
    hide Step, Ran;
    assert [a][..0] == [];
    assert Run(w, [a]) == Step(w, a);
    if Ran(w) {
      RanOn(w, Step(w, a));
    }
  }

  lemma RanStart(now: int)
    ensures Ran(Start(now))
  {
    assert Start(now) == Run(Start(now), []);
  }

  /** A client makes its next `n` observations, undisturbed. */
  lemma {:induction false} Watch(w: World, c: nat, task: Task, seen: seq<Observation>, n: nat) returns (w': World)
    requires c in w.clients && w.clients[c] == Working(task, seen) && |seen| + n <= Needed(task)
    requires forall i :: |seen| <= i < |seen| + n ==> !ReadsClock(task, i)
    ensures Follows(w, w') && w'.records == w.records && w'.now == w.now
    ensures w'.clients == w.clients[c := Working(task, seen + Everywhere(n, w.records))]
    decreases n
  {
    hide Follows;
    if n == 0 {
      w' := w;
      Nothing(w);
      assert seen + Everywhere(0, w.records) == seen;
    } else {
      OneStep(w, Observe(c));
      var more := seen + [Saw(w.records)];
      var next := w.(clients := w.clients[c := Working(task, more)]);
      assert Step(w, Observe(c)) == next;
      w' := Watch(next, c, task, more, n - 1);
      FollowsOn(w, next, w');
      assert more + Everywhere(n - 1, w.records) == seen + Everywhere(n, w.records);
    }
  }

  lemma Nothing(w: World)
    ensures Follows(w, w)
  {
    hide Ran, Leads;
    LeadsNowhere(w);
  }

  /** A client begins a task and makes its first `n` observations. */
  lemma BeginAndWatch(w: World, c: nat, task: Task, n: nat) returns (w': World)
    requires c !in w.clients && MayBegin(w.records, task) && n <= Needed(task)
    requires forall i :: 0 <= i < n ==> !ReadsClock(task, i)
    ensures Follows(w, w') && w'.records == w.records && w'.now == w.now
    ensures w'.clients == w.clients[c := Working(task, Everywhere(n, w.records))]
  {
    hide Follows;
    OneStep(w, Begin(c, task));
    var next := w.(clients := w.clients[c := Working(task, [])]);
    assert Step(w, Begin(c, task)) == next;
    w' := Watch(next, c, task, [], n);
    FollowsOn(w, next, w');
    assert [] + Everywhere(n, w.records) == Everywhere(n, w.records);
  }

  /** A client with all its observations commits, and is done. */
  lemma CommitAndLeave(w: World, c: nat, task: Task, seen: seq<Observation>, records: seq<Rec>) returns (w': World)
    requires c in w.clients && w.clients[c] == Working(task, seen) && |seen| == Needed(task)
    requires CommitTask(task, seen, w.records, w.now) == Effect(records, None)
    ensures Follows(w, w') && w' == World(records, w.now, w.clients - {c})
  {
    hide CommitTask, Follows;
    OneStep(w, Commit(c));
    w' := Step(w, Commit(c));
  }
}
