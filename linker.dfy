/** The precedence linker (`_link_stages_with_precedence`): it maps every
    constraint endpoint to the last stage whose name occurs in it, then walks
    the constraints in order, appending successor and predecessor refs to the
    stages in place and overwriting the target's condition.

    Stages live in an array and the ref map points at array slots, so two
    refs that name the same stage update the same slot, as the Python
    dictionary's shared stage objects do. When a guarded constraint has a
    resolved source but an unresolved target, the source assigns to
    `None.condition` and raises; the model reports that as `crashed`, with
    the stages exactly as the raise leaves them. */
module Linker {
  import opened Basics
  import opened Text
  import opened Models

  predicate IndexInRange(byRef: map<string, nat>, n: nat) {
    forall r :: r in byRef ==> byRef[r] < n
  }

  /** `stage_by_ref.get(ref)`, as a slot number. */
  function Resolve(byRef: map<string, nat>, ref: string): Option<nat> {
    if ref in byRef then Some(byRef[ref]) else None
  }

  /** Every ref that some constraint names as its source or target. */
  predicate IsRef(cs: seq<PrecedenceConstraint>, ref: string) {
    exists c :: c in cs && (c.fromRef == ref || c.toRef == ref)
  }

  /** The last stage in list order whose name occurs in `ref`. */
  function LastNamedIn(stages: seq<ControlFlowStage>, ref: string): (r: Option<nat>)
    ensures r.Some? ==> r.value < |stages| && Contains(ref, stages[r.value].name)
    ensures r.Some? ==> forall j :: r.value < j < |stages| ==> !Contains(ref, stages[j].name)
    ensures r.None? ==> forall j :: 0 <= j < |stages| ==> !Contains(ref, stages[j].name)
  {
    if stages == [] then None
    else if Contains(ref, stages[|stages| - 1].name) then Some(|stages| - 1)
    else LastNamedIn(stages[..|stages| - 1], ref)
  }

  /** The ref -> stage map the linker builds: a constraint endpoint is keyed
      exactly when some stage's name occurs in it, and then to the last
      such stage, since later stages overwrite earlier ones. */
  function StageIndex(stages: seq<ControlFlowStage>, cs: seq<PrecedenceConstraint>): (m: map<string, nat>)
    ensures IndexInRange(m, |stages|)
    ensures forall ref :: ref in m <==> IsRef(cs, ref) && exists i :: 0 <= i < |stages| && Contains(ref, stages[i].name)
    ensures forall ref :: ref in m ==> Contains(ref, stages[m[ref]].name)
    ensures forall ref, j :: ref in m && m[ref] < j < |stages| ==> !Contains(ref, stages[j].name)
  {
    map ref | ref in RefSet(cs) && LastNamedIn(stages, ref).Some? :: LastNamedIn(stages, ref).value
  }

  function RefSet(cs: seq<PrecedenceConstraint>): (r: set<string>)
    ensures forall ref :: ref in r <==> IsRef(cs, ref)
  {
    (set c | c in cs :: c.fromRef) + (set c | c in cs :: c.toRef)
  }

  /** One pass of the linker's inner loop for stage `i` named `name`: key
      each constraint's source and then its target ref to `i` when the name
      occurs in it. */
  function IndexRow(m: map<string, nat>, name: string, i: nat, cs: seq<PrecedenceConstraint>): map<string, nat>
    decreases |cs|
  {
    if cs == [] then m
    else
      var m1 := IndexRow(m, name, i, cs[..|cs| - 1]);
      var c := cs[|cs| - 1];
      var m2 := if Contains(c.fromRef, name) then m1[c.fromRef := i] else m1;
      if Contains(c.toRef, name) then m2[c.toRef := i] else m2
  }

  /** The linker's first loop, stage by stage. */
  function IndexFold(stages: seq<ControlFlowStage>, cs: seq<PrecedenceConstraint>): map<string, nat>
    decreases |stages|
  {
    if stages == [] then map[]
    else IndexRow(IndexFold(stages[..|stages| - 1], cs), stages[|stages| - 1].name, |stages| - 1, cs)
  }

  /** One ref's entry after one stage's pass of the inner loop. */
  lemma {:induction false} IndexRowEntry(m: map<string, nat>, name: string, i: nat, cs: seq<PrecedenceConstraint>, ref: string)
    ensures ref in IndexRow(m, name, i, cs) <==> ref in m || (IsRef(cs, ref) && Contains(ref, name))
    ensures ref in IndexRow(m, name, i, cs) ==>
      IndexRow(m, name, i, cs)[ref] == (if IsRef(cs, ref) && Contains(ref, name) then i else m[ref])
    decreases |cs|
  {
    if cs != [] {
      var init := cs[..|cs| - 1];
      IndexRowEntry(m, name, i, init, ref);
      IsRefSnoc(init, cs[|cs| - 1]);
      assert cs == init + [cs[|cs| - 1]];
    }
  }

  /** One stage's pass keys exactly the endpoints containing its name and
      keeps every other entry. */
  lemma IndexRowKeys(m: map<string, nat>, name: string, i: nat, cs: seq<PrecedenceConstraint>)
    ensures forall ref :: ref in IndexRow(m, name, i, cs) <==> ref in m || (IsRef(cs, ref) && Contains(ref, name))
    ensures forall ref :: ref in IndexRow(m, name, i, cs) ==>
      IndexRow(m, name, i, cs)[ref] == (if IsRef(cs, ref) && Contains(ref, name) then i else m[ref])
  {
    forall ref
      ensures ref in IndexRow(m, name, i, cs) <==> ref in m || (IsRef(cs, ref) && Contains(ref, name))
      ensures ref in IndexRow(m, name, i, cs) ==>
        IndexRow(m, name, i, cs)[ref] == (if IsRef(cs, ref) && Contains(ref, name) then i else m[ref])
    {
      IndexRowEntry(m, name, i, cs, ref);
    }
  }

  /** Appending a constraint adds exactly its two endpoints to the refs. */
  lemma IsRefSnoc(init: seq<PrecedenceConstraint>, c: PrecedenceConstraint)
    ensures forall ref :: IsRef(init + [c], ref) <==> IsRef(init, ref) || c.fromRef == ref || c.toRef == ref
  {
    forall ref
      ensures IsRef(init + [c], ref) <==> IsRef(init, ref) || c.fromRef == ref || c.toRef == ref
    {
      if IsRef(init + [c], ref) {
        var d :| d in init + [c] && (d.fromRef == ref || d.toRef == ref);
        if d != c {
          assert d in init;
        }
      }
      if IsRef(init, ref) {
        var d :| d in init && (d.fromRef == ref || d.toRef == ref);
        assert d in init + [c];
      }
    }
  }

  /** One ref's entry after the first loop: present exactly when the ref
      is a constraint endpoint naming some stage, and then that stage is
      the last one it names. */
  lemma {:induction false} IndexFoldEntry(stages: seq<ControlFlowStage>, cs: seq<PrecedenceConstraint>, ref: string)
    ensures ref in IndexFold(stages, cs) <==> IsRef(cs, ref) && LastNamedIn(stages, ref).Some?
    ensures ref in IndexFold(stages, cs) ==> IndexFold(stages, cs)[ref] == LastNamedIn(stages, ref).value
    decreases |stages|
  {
    if stages != [] {
      var init := stages[..|stages| - 1];
      IndexFoldEntry(init, cs, ref);
      IndexRowEntry(IndexFold(init, cs), stages[|stages| - 1].name, |stages| - 1, cs, ref);
    }
  }

  lemma IndexFoldIsStageIndex(stages: seq<ControlFlowStage>, cs: seq<PrecedenceConstraint>)
    ensures IndexFold(stages, cs) == StageIndex(stages, cs)
  {
    var m := IndexFold(stages, cs);
    var expected := StageIndex(stages, cs);
    forall ref
      ensures ref in m <==> ref in expected
      ensures ref in m ==> m[ref] == expected[ref]
    {
      IndexFoldEntry(stages, cs, ref);
    }
  }

  /** The first loop of the linker: for each stage, for each constraint,
      key the constraint's source and target refs that contain the stage's
      name to that stage. */
  method BuildStageIndex(stages: seq<ControlFlowStage>, cs: seq<PrecedenceConstraint>) returns (byRef: map<string, nat>)
    ensures byRef == StageIndex(stages, cs)
  {
    byRef := map[];
    var i := 0;
    while i < |stages|
      invariant 0 <= i <= |stages|
      invariant byRef == IndexFold(stages[..i], cs)
    {
      ghost var start := byRef;
      var j := 0;
      while j < |cs|
        invariant 0 <= j <= |cs|
        invariant byRef == IndexRow(start, stages[i].name, i, cs[..j])
      {
        var c := cs[j];
        assert cs[..j + 1][..j] == cs[..j];
        if Contains(c.fromRef, stages[i].name) {
          byRef := byRef[c.fromRef := i];
        }
        if Contains(c.toRef, stages[i].name) {
          byRef := byRef[c.toRef := i];
        }
        j := j + 1;
      }
      assert cs[..|cs|] == cs;
      assert stages[..i + 1][..i] == stages[..i];
      i := i + 1;
    }
    assert stages[..|stages|] == stages;
    IndexFoldIsStageIndex(stages, cs);
  }

  /** The stages after some prefix of the constraints, and whether the
      linker has raised. */
  datatype LinkState = LinkState(stages: seq<ControlFlowStage>, crashed: bool)

  function AddPredecessor(s: seq<ControlFlowStage>, to: Option<nat>, ref: string): (r: seq<ControlFlowStage>)
    requires to.Some? ==> to.value < |s|
    ensures |r| == |s|
  {
    if to.Some? && ref !in s[to.value].precedenceFrom then
      s[to.value := s[to.value].(precedenceFrom := s[to.value].precedenceFrom + [ref])]
    else s
  }

  /** One iteration of the linker's second loop. */
  function Step(s: seq<ControlFlowStage>, byRef: map<string, nat>, c: PrecedenceConstraint): (r: LinkState)
    requires IndexInRange(byRef, |s|)
    ensures |r.stages| == |s|
  {
    var from := Resolve(byRef, c.fromRef);
    var to := Resolve(byRef, c.toRef);
    if from.Some? && c.toRef !in s[from.value].precedenceTo then
      var s1 := s[from.value := s[from.value].(precedenceTo := s[from.value].precedenceTo + [c.toRef])];
      if Truthy(c.expression) && to.None? then LinkState(s1, true)
      else
        var s2 := if Truthy(c.expression) then s1[to.value := s1[to.value].(condition := c.expression)] else s1;
        LinkState(AddPredecessor(s2, to, c.fromRef), false)
    else LinkState(AddPredecessor(s, to, c.fromRef), false)
  }

  /** The linker's second loop over a list of constraints, stopping at a raise. */
  function LinkAll(s: seq<ControlFlowStage>, byRef: map<string, nat>, cs: seq<PrecedenceConstraint>): (r: LinkState)
    requires IndexInRange(byRef, |s|)
    ensures |r.stages| == |s|
    decreases |cs|
  {
    if cs == [] then LinkState(s, false)
    else
      var prev := LinkAll(s, byRef, cs[..|cs| - 1]);
      if prev.crashed then prev else Step(prev.stages, byRef, cs[|cs| - 1])
  }

  /** Once the linker has raised, later constraints are never read. */
  lemma {:induction false} CrashIsFinal(s: seq<ControlFlowStage>, byRef: map<string, nat>, cs: seq<PrecedenceConstraint>, n: nat)
    requires IndexInRange(byRef, |s|) && n <= |cs|
    requires LinkAll(s, byRef, cs[..n]).crashed
    ensures LinkAll(s, byRef, cs) == LinkAll(s, byRef, cs[..n])
    decreases |cs|
  {
    if n < |cs| {
      assert cs[..|cs| - 1][..n] == cs[..n];
      CrashIsFinal(s, byRef, cs[..|cs| - 1], n);
    } else {
      assert cs[..n] == cs;
    }
  }

  /** The linker's second loop, updating the stage array in place. */
  method Link(stages: array<ControlFlowStage>, byRef: map<string, nat>, cs: seq<PrecedenceConstraint>) returns (crashed: bool)
    requires IndexInRange(byRef, stages.Length)
    modifies stages
    ensures LinkAll(old(stages[..]), byRef, cs) == LinkState(stages[..], crashed)
  {
    var k := 0;
    while k < |cs|
      invariant 0 <= k <= |cs|
      invariant LinkAll(old(stages[..]), byRef, cs[..k]) == LinkState(stages[..], false)
    {
      var c := cs[k];
      ghost var before := stages[..];
      assert cs[..k + 1][..k] == cs[..k];
      var from := Resolve(byRef, c.fromRef);
      var to := Resolve(byRef, c.toRef);
      if from.Some? && c.toRef !in stages[from.value].precedenceTo {
        stages[from.value] := stages[from.value].(precedenceTo := stages[from.value].precedenceTo + [c.toRef]);
        if Truthy(c.expression) {
          if to.None? {
            assert stages[..] == Step(before, byRef, c).stages;
            CrashIsFinal(old(stages[..]), byRef, cs, k + 1);
            return true;
          }
          stages[to.value] := stages[to.value].(condition := c.expression);
        }
      }
      if to.Some? && c.fromRef !in stages[to.value].precedenceFrom {
        stages[to.value] := stages[to.value].(precedenceFrom := stages[to.value].precedenceFrom + [c.fromRef]);
      }
      assert stages[..] == Step(before, byRef, c).stages;
      k := k + 1;
    }
    assert cs[..|cs|] == cs;
    return false;
  }

  // ---------------------------------------------------------------------
  // What the linker guarantees

  predicate NoDuplicates(refs: seq<string>) {
    forall i, j :: 0 <= i < j < |refs| ==> refs[i] != refs[j]
  }

  /** The fields the linker never touches. */
  predicate SameStage(a: ControlFlowStage, b: ControlFlowStage) {
    a.order == b.order && a.name == b.name && a.stageType == b.stageType
    && a.description == b.description && a.tasks == b.tasks
  }

  /** Some of the first `n` constraints has its source resolved to slot `i`
      and names `x` as its target. */
  predicate SuccessorVia(byRef: map<string, nat>, cs: seq<PrecedenceConstraint>, n: nat, i: nat, x: string)
    requires n <= |cs|
  {
    exists k :: 0 <= k < n && Resolve(byRef, cs[k].fromRef) == Some(i) && cs[k].toRef == x
  }

  /** Some of the first `n` constraints has its target resolved to slot `i`
      and names `x` as its source. */
  predicate PredecessorVia(byRef: map<string, nat>, cs: seq<PrecedenceConstraint>, n: nat, i: nat, x: string)
    requires n <= |cs|
  {
    exists k :: 0 <= k < n && Resolve(byRef, cs[k].toRef) == Some(i) && cs[k].fromRef == x
  }

  /** Constraint `k` resolves its source, and its target ref is not yet among
      that stage's successors, so the linker appends it. */
  predicate NewSuccessor(s0: seq<ControlFlowStage>, byRef: map<string, nat>, cs: seq<PrecedenceConstraint>, k: nat)
    requires IndexInRange(byRef, |s0|) && k < |cs|
  {
    var from := Resolve(byRef, cs[k].fromRef);
    from.Some? && cs[k].toRef !in s0[from.value].precedenceTo && !SuccessorVia(byRef, cs, k, from.value, cs[k].toRef)
  }

  /** Constraint `k` reaches the condition assignment. */
  predicate Guarded(s0: seq<ControlFlowStage>, byRef: map<string, nat>, cs: seq<PrecedenceConstraint>, k: nat)
    requires IndexInRange(byRef, |s0|) && k < |cs|
  {
    NewSuccessor(s0, byRef, cs, k) && Truthy(cs[k].expression)
  }

  /** Constraint `k` assigns to the condition of a target that did not resolve. */
  predicate CrashesAt(s0: seq<ControlFlowStage>, byRef: map<string, nat>, cs: seq<PrecedenceConstraint>, k: nat)
    requires IndexInRange(byRef, |s0|) && k < |cs|
  {
    Guarded(s0, byRef, cs, k) && Resolve(byRef, cs[k].toRef).None?
  }

  /** The condition of slot `i` after the first `n` constraints: the
      expression of the last guarded constraint aimed at it, if any. */
  function ConditionAfter(s0: seq<ControlFlowStage>, byRef: map<string, nat>, cs: seq<PrecedenceConstraint>, n: nat, i: nat): Option<string>
    requires IndexInRange(byRef, |s0|) && n <= |cs| && i < |s0|
  {
    if n == 0 then s0[i].condition
    else if Guarded(s0, byRef, cs, n - 1) && Resolve(byRef, cs[n - 1].toRef) == Some(i) then cs[n - 1].expression
    else ConditionAfter(s0, byRef, cs, n - 1, i)
  }

  lemma PrefixStep(cs: seq<PrecedenceConstraint>, n: nat)
    requires 0 < n <= |cs|
    ensures cs[..n][..n - 1] == cs[..n - 1]
    ensures cs[..n] != [] && cs[..n][|cs[..n]| - 1] == cs[n - 1]
  {
  }

  /** The linker changes only the two lists and the condition, and never
      puts a ref twice into a list. */
  lemma {:induction false} LinkFrame(s0: seq<ControlFlowStage>, byRef: map<string, nat>, cs: seq<PrecedenceConstraint>)
    requires IndexInRange(byRef, |s0|)
    ensures forall i :: 0 <= i < |s0| ==> SameStage(LinkAll(s0, byRef, cs).stages[i], s0[i])
    decreases |cs|
  {
    if cs != [] {
      LinkFrame(s0, byRef, cs[..|cs| - 1]);
    }
  }

  /** Linking never lists a successor twice. */
  lemma {:induction false} LinkDistinctSuccessors(s0: seq<ControlFlowStage>, byRef: map<string, nat>, cs: seq<PrecedenceConstraint>)
    requires IndexInRange(byRef, |s0|)
    ensures forall i :: 0 <= i < |s0| && NoDuplicates(s0[i].precedenceTo) ==> NoDuplicates(LinkAll(s0, byRef, cs).stages[i].precedenceTo)
    decreases |cs|
  {
    if cs != [] {
      LinkDistinctSuccessors(s0, byRef, cs[..|cs| - 1]);
    }
  }

  /** Linking never lists a predecessor twice. */
  lemma {:induction false} LinkDistinctPredecessors(s0: seq<ControlFlowStage>, byRef: map<string, nat>, cs: seq<PrecedenceConstraint>)
    requires IndexInRange(byRef, |s0|)
    ensures forall i :: 0 <= i < |s0| && NoDuplicates(s0[i].precedenceFrom) ==> NoDuplicates(LinkAll(s0, byRef, cs).stages[i].precedenceFrom)
    decreases |cs|
  {
    if cs != [] {
      LinkDistinctPredecessors(s0, byRef, cs[..|cs| - 1]);
    }
  }

  /** One constraint adds its target ref to the successors of the stage
      its source resolves to, and nothing else. */
  lemma StepSuccessors(s: seq<ControlFlowStage>, byRef: map<string, nat>, c: PrecedenceConstraint, i: nat, x: string)
    requires IndexInRange(byRef, |s|) && i < |s|
    requires !Step(s, byRef, c).crashed
    ensures x in Step(s, byRef, c).stages[i].precedenceTo <==>
      x in s[i].precedenceTo || (Resolve(byRef, c.fromRef) == Some(i) && c.toRef == x)
  {
  }

  /** One constraint adds its source ref to the predecessors of the stage
      its target resolves to, and nothing else. */
  lemma StepPredecessors(s: seq<ControlFlowStage>, byRef: map<string, nat>, c: PrecedenceConstraint, i: nat, x: string)
    requires IndexInRange(byRef, |s|) && i < |s|
    requires !Step(s, byRef, c).crashed
    ensures x in Step(s, byRef, c).stages[i].precedenceFrom <==>
      x in s[i].precedenceFrom || (Resolve(byRef, c.toRef) == Some(i) && c.fromRef == x)
  {
  }

  /** After the first `n` constraints (when no raise happened), a stage's
      successors are its initial ones plus the target ref of every
      constraint whose source resolves to it, and nothing else. */
  lemma {:induction false} LinkSuccessors(s0: seq<ControlFlowStage>, byRef: map<string, nat>, cs: seq<PrecedenceConstraint>, n: nat)
    requires IndexInRange(byRef, |s0|) && n <= |cs|
    requires !LinkAll(s0, byRef, cs[..n]).crashed
    ensures forall i, x :: 0 <= i < |s0| ==>
      (x in LinkAll(s0, byRef, cs[..n]).stages[i].precedenceTo <==> x in s0[i].precedenceTo || SuccessorVia(byRef, cs, n, i, x))
  {
    if n > 0 {
      PrefixStep(cs, n);
      var prev := LinkAll(s0, byRef, cs[..n - 1]);
      LinkSuccessors(s0, byRef, cs, n - 1);
      var c := cs[n - 1];
      var cur := LinkAll(s0, byRef, cs[..n]);
      assert cur == Step(prev.stages, byRef, c);
      forall i, x | 0 <= i < |s0|
        ensures x in cur.stages[i].precedenceTo <==> x in s0[i].precedenceTo || SuccessorVia(byRef, cs, n, i, x)
      {
        StepSuccessors(prev.stages, byRef, c, i, x);
        if SuccessorVia(byRef, cs, n, i, x) && !SuccessorVia(byRef, cs, n - 1, i, x) {
          assert Resolve(byRef, c.fromRef) == Some(i) && c.toRef == x;
        }
        if SuccessorVia(byRef, cs, n - 1, i, x) {
          var k :| 0 <= k < n - 1 && Resolve(byRef, cs[k].fromRef) == Some(i) && cs[k].toRef == x;
          assert SuccessorVia(byRef, cs, n, i, x);
        }
      }
    }
  }

  /** After the first `n` constraints (when no raise happened), a stage's
      predecessors are its initial ones plus the source ref of every
      constraint whose target resolves to it, whether or not that
      constraint's source resolved. */
  lemma {:induction false} LinkPredecessors(s0: seq<ControlFlowStage>, byRef: map<string, nat>, cs: seq<PrecedenceConstraint>, n: nat)
    requires IndexInRange(byRef, |s0|) && n <= |cs|
    requires !LinkAll(s0, byRef, cs[..n]).crashed
    ensures forall i, x :: 0 <= i < |s0| ==>
      (x in LinkAll(s0, byRef, cs[..n]).stages[i].precedenceFrom <==> x in s0[i].precedenceFrom || PredecessorVia(byRef, cs, n, i, x))
  {
    if n > 0 {
      PrefixStep(cs, n);
      var prev := LinkAll(s0, byRef, cs[..n - 1]);
      LinkPredecessors(s0, byRef, cs, n - 1);
      var c := cs[n - 1];
      var cur := LinkAll(s0, byRef, cs[..n]);
      assert cur == Step(prev.stages, byRef, c);
      forall i, x | 0 <= i < |s0|
        ensures x in cur.stages[i].precedenceFrom <==> x in s0[i].precedenceFrom || PredecessorVia(byRef, cs, n, i, x)
      {
        StepPredecessors(prev.stages, byRef, c, i, x);
        if PredecessorVia(byRef, cs, n, i, x) && !PredecessorVia(byRef, cs, n - 1, i, x) {
          assert Resolve(byRef, c.toRef) == Some(i) && c.fromRef == x;
        }
        if PredecessorVia(byRef, cs, n - 1, i, x) {
          var k :| 0 <= k < n - 1 && Resolve(byRef, cs[k].toRef) == Some(i) && cs[k].fromRef == x;
          assert PredecessorVia(byRef, cs, n, i, x);
        }
      }
    }
  }

  /** The linker raises exactly when some constraint reaches the condition
      assignment with an unresolved target; until then each stage's
      condition is that of the last guarded constraint aimed at it. */
  lemma {:induction false} LinkConditions(s0: seq<ControlFlowStage>, byRef: map<string, nat>, cs: seq<PrecedenceConstraint>, n: nat)
    requires IndexInRange(byRef, |s0|) && n <= |cs|
    ensures LinkAll(s0, byRef, cs[..n]).crashed <==> exists k :: 0 <= k < n && CrashesAt(s0, byRef, cs, k)
    ensures !LinkAll(s0, byRef, cs[..n]).crashed ==>
      forall i :: 0 <= i < |s0| ==> LinkAll(s0, byRef, cs[..n]).stages[i].condition == ConditionAfter(s0, byRef, cs, n, i)
  {
    if n > 0 {
      PrefixStep(cs, n);
      var prev := LinkAll(s0, byRef, cs[..n - 1]);
      LinkConditions(s0, byRef, cs, n - 1);
      var c := cs[n - 1];
      var cur := LinkAll(s0, byRef, cs[..n]);
      if prev.crashed {
        var k :| 0 <= k < n - 1 && CrashesAt(s0, byRef, cs, k);
        assert cur.crashed;
      } else {
        LinkSuccessors(s0, byRef, cs, n - 1);
        assert cur == Step(prev.stages, byRef, c);
        var from := Resolve(byRef, c.fromRef);
        if from.Some? {
          assert c.toRef in prev.stages[from.value].precedenceTo <==>
            c.toRef in s0[from.value].precedenceTo || SuccessorVia(byRef, cs, n - 1, from.value, c.toRef);
        }
        assert cur.crashed <==> CrashesAt(s0, byRef, cs, n - 1);
        if exists k :: 0 <= k < n && CrashesAt(s0, byRef, cs, k) {
          var k :| 0 <= k < n && CrashesAt(s0, byRef, cs, k);
          assert k == n - 1;
        }
      }
    }
  }

  /** Stages as the parser creates them: no successors, no predecessors,
      no condition. */
  predicate Fresh(s0: seq<ControlFlowStage>) {
    forall i :: 0 <= i < |s0| ==> s0[i].precedenceTo == [] && s0[i].precedenceFrom == [] && s0[i].condition == None
  }

  /** Linking freshly parsed stages: when it completes, the successor and
      predecessor lists hold exactly the refs the resolved constraints
      contribute, without duplicates, and the names and orders are kept. */
  lemma LinkedLists(s0: seq<ControlFlowStage>, byRef: map<string, nat>, cs: seq<PrecedenceConstraint>)
    requires IndexInRange(byRef, |s0|) && Fresh(s0)
    requires !LinkAll(s0, byRef, cs).crashed
    ensures forall i :: 0 <= i < |s0| ==> SameStage(LinkAll(s0, byRef, cs).stages[i], s0[i])
    ensures forall i :: 0 <= i < |s0| ==>
      NoDuplicates(LinkAll(s0, byRef, cs).stages[i].precedenceTo) && NoDuplicates(LinkAll(s0, byRef, cs).stages[i].precedenceFrom)
    ensures forall i, x :: 0 <= i < |s0| ==>
      (x in LinkAll(s0, byRef, cs).stages[i].precedenceTo <==>
        exists c :: c in cs && Resolve(byRef, c.fromRef) == Some(i) && c.toRef == x)
    ensures forall i, x :: 0 <= i < |s0| ==>
      (x in LinkAll(s0, byRef, cs).stages[i].precedenceFrom <==>
        exists c :: c in cs && Resolve(byRef, c.toRef) == Some(i) && c.fromRef == x)
  {
    assert cs[..|cs|] == cs;
    LinkFrame(s0, byRef, cs);
    LinkDistinctSuccessors(s0, byRef, cs);
    LinkDistinctPredecessors(s0, byRef, cs);
    LinkSuccessors(s0, byRef, cs, |cs|);
    LinkPredecessors(s0, byRef, cs, |cs|);
    var r := LinkAll(s0, byRef, cs).stages;
    forall i, x | 0 <= i < |s0|
      ensures x in r[i].precedenceTo <==> exists c :: c in cs && Resolve(byRef, c.fromRef) == Some(i) && c.toRef == x
      ensures x in r[i].precedenceFrom <==> exists c :: c in cs && Resolve(byRef, c.toRef) == Some(i) && c.fromRef == x
    {
      if exists c :: c in cs && Resolve(byRef, c.fromRef) == Some(i) && c.toRef == x {
        var c :| c in cs && Resolve(byRef, c.fromRef) == Some(i) && c.toRef == x;
        var k :| 0 <= k < |cs| && cs[k] == c;
        assert SuccessorVia(byRef, cs, |cs|, i, x);
      }
      if exists c :: c in cs && Resolve(byRef, c.toRef) == Some(i) && c.fromRef == x {
        var c :| c in cs && Resolve(byRef, c.toRef) == Some(i) && c.fromRef == x;
        var k :| 0 <= k < |cs| && cs[k] == c;
        assert PredecessorVia(byRef, cs, |cs|, i, x);
      }
    }
  }

  /** Linking freshly parsed stages raises exactly when some constraint
      with a resolved source, a not-yet-recorded target and a non-empty
      expression has a target that resolves to no stage; otherwise a
      stage's condition is the expression of the last such constraint aimed
      at it, and stays `None` when there is none. */
  lemma LinkedConditions(s0: seq<ControlFlowStage>, byRef: map<string, nat>, cs: seq<PrecedenceConstraint>)
    requires IndexInRange(byRef, |s0|)
    ensures LinkAll(s0, byRef, cs).crashed <==> exists k :: 0 <= k < |cs| && CrashesAt(s0, byRef, cs, k)
    ensures !LinkAll(s0, byRef, cs).crashed ==>
      forall i :: 0 <= i < |s0| ==> LinkAll(s0, byRef, cs).stages[i].condition == ConditionAfter(s0, byRef, cs, |cs|, i)
  {
    assert cs[..|cs|] == cs;
    LinkConditions(s0, byRef, cs, |cs|);
  }

  /** A condition is only ever set to a non-empty expression of a constraint
      that targets that stage. */
  lemma {:induction false} ConditionSource(s0: seq<ControlFlowStage>, byRef: map<string, nat>, cs: seq<PrecedenceConstraint>, n: nat, i: nat)
    requires IndexInRange(byRef, |s0|) && n <= |cs| && i < |s0|
    ensures ConditionAfter(s0, byRef, cs, n, i) == s0[i].condition
      || (exists k :: 0 <= k < n && Guarded(s0, byRef, cs, k) && Resolve(byRef, cs[k].toRef) == Some(i)
                      && ConditionAfter(s0, byRef, cs, n, i) == cs[k].expression && Truthy(cs[k].expression))
  {
    if n > 0 {
      ConditionSource(s0, byRef, cs, n - 1, i);
    }
  }

  /** A guarded constraint from a known stage to a ref that names no stage
      (here a task inside an event handler) makes the linker raise. */
  lemma UnresolvedGuardedTargetRaises()
    ensures var s0 := [NewStage(1, "Load", "SqlTask", None, [])];
            var c := NewConstraint("", "", "", "Package\\Load", "Package\\OnError\\Notify").(expression := Some("@[User::Ok]==1"));
            LinkAll(s0, map["Package\\Load" := 0], [c]).crashed
  {
    var s0 := [NewStage(1, "Load", "SqlTask", None, [])];
    var c := NewConstraint("", "", "", "Package\\Load", "Package\\OnError\\Notify").(expression := Some("@[User::Ok]==1"));
    assert [c][..0] == [];
  }
}
