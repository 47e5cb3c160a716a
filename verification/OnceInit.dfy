/** `OnceInitializer`: reference-counted "initialize once", as a transition system. An agent stands for one
    use: it calls `Initialize`, holds the resource if that returned true, and calls `Cleanup`. */
module OnceInit {
  import opened Tally
  import opened Runs

  datatype InitState = NotInitialized | Initializing | Initialized | Failed

  /** History: `runs` counts the executions of `init_func`, `succeeded` says whether one succeeded and `cleaned`
      whether `cleanup_func` ran, all three since the last reset of the state; `successes` and `cleanups` count the
      successes and the cleanups from the start. */
  datatype Shared = Shared(
    state: InitState,
    refs: int,
    runs: nat,
    succeeded: bool,
    cleaned: bool,
    successes: nat,
    cleanups: nat)

  ghost function Fresh(): Shared { Shared(NotInitialized, 0, 0, false, false, 0, 0) }

  datatype Pc =
    | Out
    | IncRef
    | FirstLoad
    | TryCas
    | Running
    | SetOk
    | SetFail
    | Wait
    | DecRef
    | Holding
    | CleanDec
    | Cleaning
    | Reset
  {
    predicate Initializes() { Running? || SetOk? || SetFail? }

    /** Has been told that the resource is ready and has not given it back. */
    predicate Has() { Holding? || CleanDec? }

    predicate Cleans() { Cleaning? || Reset? }
  }

  /** Counted by `reference_count_`: calls in progress and holders. */
  predicate InRef(pc: Pc) {
    || pc.FirstLoad? || pc.TryCas? || pc.Running? || pc.SetOk? || pc.SetFail? || pc.Wait? || pc.DecRef? || pc.Holding?
    || pc.CleanDec?
  }

  datatype System = System(x: Shared, pcs: map<nat, Pc>)

  ghost predicate Init(s: System) {
    s.x == Fresh() && forall a :: a in s.pcs ==> s.pcs[a] == Out
  }

  /** `ok` is what `init_func` reports; an exception counts as a failure. */
  function NextPc(pc: Pc, x: Shared, ok: bool): Pc {
    match pc
    case Out => IncRef
    case IncRef => FirstLoad
    case FirstLoad => (match x.state case Initialized => Holding case Failed => DecRef case _ => TryCas)
    case TryCas => if x.state == NotInitialized then Running else Wait
    case Running => if ok then SetOk else SetFail
    case SetOk => Holding
    case SetFail => DecRef
    case Wait => (match x.state case Initialized => Holding case Failed => DecRef case _ => Wait)
    case DecRef => Out
    case Holding => CleanDec
    case CleanDec => if x.refs == 1 then Cleaning else Out
    case Cleaning => Reset
    case Reset => Out
  }

  function NextShared(pc: Pc, x: Shared, ok: bool): Shared {
    match pc
    case IncRef => x.(refs := x.refs + 1)
    case TryCas => if x.state == NotInitialized then x.(state := Initializing) else x
    case Running => x.(runs := x.runs + 1, succeeded := ok, successes := x.successes + if ok then 1 else 0)
    case SetOk => x.(state := Initialized)
    case SetFail => x.(state := Failed)
    case DecRef => x.(refs := x.refs - 1)
    case CleanDec => x.(refs := x.refs - 1)
    case Cleaning => x.(cleaned := true, cleanups := x.cleanups + 1)
    case Reset => x.(state := NotInitialized, runs := 0, succeeded := false, cleaned := false)
    case _ => x
  }

  ghost predicate Step(s: System, a: nat, ok: bool, s': System)
    requires a in s.pcs
  {
    s' == System(NextShared(s.pcs[a], s.x, ok), s.pcs[a := NextPc(s.pcs[a], s.x, ok)])
  }

  ghost predicate Next(s: System, s': System) {
    exists a, ok :: a in s.pcs && Step(s, a, ok, s')
  }

  /** Hypothesis about the step of agent `a`: its `Initialize` does not load the state for the first time while a last
      `Cleanup` is between its decrement and its reset of the state. */
  ghost predicate Undisturbed(s: System, a: nat)
    requires a in s.pcs
  {
    s.pcs[a].FirstLoad? ==> forall b :: b in s.pcs ==> !s.pcs[b].Cleans()
  }

  ghost predicate NextUndisturbed(s: System, s': System) {
    exists a, ok :: a in s.pcs && Step(s, a, ok, s') && Undisturbed(s, a)
  }

  ghost predicate Run(tr: seq<System>) {
    && tr != [] && Init(tr[0])
    && (forall i :: 0 <= i < |tr| - 1 ==> NextUndisturbed(tr[i], tr[i + 1]))
  }

  // ----- the invariant -----

  ghost predicate PcOk(x: Shared, pc: Pc) {
    && (pc.Initializes() ==> x.state == Initializing)
    && (pc.Running? ==> x.runs == 0)
    && (pc.SetOk? ==> x.runs == 1 && x.succeeded)
    && (pc.SetFail? ==> x.runs == 1 && !x.succeeded)
    && (pc.Wait? ==> x.state != NotInitialized)
    && (pc.Has() || pc.Cleans() ==> x.state == Initialized)
    && (pc.DecRef? ==> x.state == Failed)
    && (pc.Reset? ==> x.cleaned)
    && (x.cleaned ==> pc.Reset? || (!pc.Cleaning? && Unaware(pc)))
  }

  ghost predicate StateOk(x: Shared) {
    && (x.state == NotInitialized ==> x.runs == 0)
    && (x.state == Initialized ==> x.runs == 1 && x.succeeded)
    && (x.state == Failed ==> x.runs == 1 && !x.succeeded)
    && x.runs <= 1 && (x.runs == 0 ==> !x.succeeded) && (x.cleaned ==> x.state == Initialized)
    && x.successes == x.cleanups + One(x.succeeded && !x.cleaned)
  }

  /** Holds nothing, waits for nothing and has not looked at the state yet. */
  predicate Unaware(pc: Pc) { InRef(pc) ==> pc.FirstLoad? }

  ghost predicate Alone(s: System) {
    && (forall a, b :: a in s.pcs && b in s.pcs && a != b ==> !(s.pcs[a].Initializes() && s.pcs[b].Initializes()))
    && (forall a, b :: a in s.pcs && b in s.pcs && a != b && s.pcs[a].Cleans() ==>
         !s.pcs[b].Cleans() && Unaware(s.pcs[b]))
  }

  /** Somebody is behind every state that cannot last: an initialization, a cleanup, a resource that is in use. */
  ghost predicate Attended(s: System) {
    && (s.x.state == Initializing ==> exists a :: a in s.pcs && s.pcs[a].Initializes())
    && (s.x.state == Initialized && s.x.refs == 0 ==> exists a :: a in s.pcs && s.pcs[a].Cleans())
    && (s.x.cleaned ==> exists a :: a in s.pcs && s.pcs[a].Reset?)
  }

  ghost predicate Inv(s: System) {
    && s.x.refs == Count(s.pcs, InRef)
    && StateOk(s.x)
    && (forall a :: a in s.pcs ==> PcOk(s.x, s.pcs[a]))
    && Alone(s) && Attended(s)
  }

  lemma InitInv(s: System)
    requires Init(s)
    ensures Inv(s)
  {
    CountZero(s.pcs, InRef);
  }

  lemma StepRefs(s: System, a: nat, ok: bool, s': System)
    requires a in s.pcs && Step(s, a, ok, s') && s.x.refs == Count(s.pcs, InRef)
    ensures s'.x.refs == Count(s'.pcs, InRef)
  {
    CountStep(s.pcs, a, s'.pcs[a], InRef);
  }

  /** The decrement that reaches zero leaves nobody else counted. */
  lemma LastOne(pcs: map<nat, Pc>, a: nat, b: nat)
    requires a in pcs && b in pcs && a != b && InRef(pcs[a]) && Count(pcs, InRef) == 1
    ensures !InRef(pcs[b])
  {
    CountStep(pcs, a, Out, InRef);
    CountZero(pcs[a := Out], InRef);
    assert pcs[a := Out][b] == pcs[b];
  }

  lemma OwnPc(x: Shared, pc: Pc, ok: bool)
    requires StateOk(x) && PcOk(x, pc) && (pc.FirstLoad? ==> !x.cleaned)
    ensures StateOk(NextShared(pc, x, ok)) && PcOk(NextShared(pc, x, ok), NextPc(pc, x, ok))
  {}

  lemma OtherPc(x: Shared, pc: Pc, ok: bool, other: Pc)
    requires StateOk(x) && PcOk(x, pc) && PcOk(x, other)
    requires !(pc.Initializes() && other.Initializes()) && !(pc.Cleans() && (other.Cleans() || !Unaware(other)))
    ensures PcOk(NextShared(pc, x, ok), other)
  {}

  lemma StepAlone(s: System, a: nat, ok: bool, s': System)
    requires Inv(s) && a in s.pcs && Undisturbed(s, a) && Step(s, a, ok, s')
    ensures Alone(s')
  {
    var pc := s.pcs[a];
    assert PcOk(s.x, pc);
    forall b | b in s.pcs && b != a
      ensures !(s'.pcs[a].Initializes() && s.pcs[b].Initializes())
      ensures s'.pcs[a].Cleans() ==> !s.pcs[b].Cleans() && Unaware(s.pcs[b])
    {
      assert PcOk(s.x, s.pcs[b]);
      if pc.CleanDec? && s.x.refs == 1 {
        LastOne(s.pcs, a, b);
      }
    }
    assert !Unaware(s'.pcs[a]) ==> !Unaware(pc) || pc.FirstLoad?;
  }

  lemma StepAttended(s: System, a: nat, ok: bool, s': System)
    requires Inv(s) && a in s.pcs && Undisturbed(s, a) && Step(s, a, ok, s') && s'.x.refs == Count(s'.pcs, InRef)
    ensures Attended(s')
  {
    var pc := s.pcs[a];
    assert PcOk(s.x, pc);
    assert a in s'.pcs && forall b :: b in s.pcs && b != a ==> s'.pcs[b] == s.pcs[b];
    if s'.x.state == Initialized && s'.x.refs == 0 {
      CountZero(s'.pcs, InRef);
      assert !InRef(s'.pcs[a]);
    }
  }

  lemma StepInv(s: System, s': System)
    requires Inv(s) && NextUndisturbed(s, s')
    ensures Inv(s')
  {
    var a, ok :| a in s.pcs && Step(s, a, ok, s') && Undisturbed(s, a);
    assert PcOk(s.x, s.pcs[a]);
    StepRefs(s, a, ok, s');
    OwnPc(s.x, s.pcs[a], ok);
    forall b | b in s'.pcs ensures PcOk(s'.x, s'.pcs[b]) {
      if b != a {
        OtherPc(s.x, s.pcs[a], ok, s.pcs[b]);
      }
    }
    StepAlone(s, a, ok, s');
    StepAttended(s, a, ok, s');
  }

  // ----- results -----

  lemma {:induction false} RunInv(tr: seq<System>, n: nat)
    requires Run(tr) && n < |tr|
    ensures Inv(tr[n])
  {
    if n == 0 {
      InitInv(tr[0]);
    } else {
      RunInv(tr, n - 1);
      assert NextUndisturbed(tr[n - 1], tr[n - 1 + 1]);
      StepInv(tr[n - 1], tr[n]);
    }
  }

  /** Between two resets `init_func` runs at most once, and never in two calls at the same time. */
  lemma RunsOnce(tr: seq<System>, n: nat)
    requires Run(tr) && n < |tr|
    ensures tr[n].x.runs <= 1
    ensures var pcs := tr[n].pcs;
      forall a, b :: a in pcs && b in pcs && pcs[a].Initializes() && pcs[b].Initializes() ==> a == b
  {
    RunInv(tr, n);
  }

  /** Whoever was told true holds a resource whose initialization succeeded and was not undone since, and the
      reference count is the number of holders and of calls in progress. */
  lemma HoldersAreSafe(tr: seq<System>, n: nat, a: nat)
    requires Run(tr) && n < |tr| && a in tr[n].pcs
    ensures tr[n].pcs[a].Has() ==> tr[n].x.state == Initialized && tr[n].x.succeeded && tr[n].x.runs == 1
    ensures tr[n].x.refs == Count(tr[n].pcs, InRef)
  {
    RunInv(tr, n);
    assert PcOk(tr[n].x, tr[n].pcs[a]);
  }

  /** `cleanup_func` runs only when nobody holds the resource or waits for it, and in one call at a time; calls that
      are counted already have not looked at the state yet. */
  lemma CleansAlone(tr: seq<System>, n: nat, a: nat)
    requires Run(tr) && n < |tr| && a in tr[n].pcs && tr[n].pcs[a].Cleans()
    ensures forall b :: b in tr[n].pcs && b != a ==>
      !tr[n].pcs[b].Cleans() && !tr[n].pcs[b].Has() && (InRef(tr[n].pcs[b]) ==> tr[n].pcs[b].FirstLoad?)
    ensures tr[n].x.succeeded && tr[n].x.runs == 1
  {
    RunInv(tr, n);
    assert PcOk(tr[n].x, tr[n].pcs[a]);
  }

  /** `Initialize` returns false only after `init_func` ran and failed, and then for good. */
  lemma RefusedAfterFailure(tr: seq<System>, n: nat, a: nat, m: nat)
    requires Run(tr) && n <= m < |tr| && a in tr[n].pcs && tr[n].pcs[a].DecRef?
    ensures tr[m].x.state == Failed && tr[m].x.runs == 1 && !tr[m].x.succeeded
  {
    RunInv(tr, n);
    assert PcOk(tr[n].x, tr[n].pcs[a]);
    StaysFailed(tr, n, m);
    RunInv(tr, m);
  }

  lemma {:induction false} StaysFailed(tr: seq<System>, n: nat, m: nat)
    requires Run(tr) && n <= m < |tr| && tr[n].x.state == Failed
    ensures tr[m].x.state == Failed
  {
    if n < m {
      StaysFailed(tr, n, m - 1);
      NextFailed(tr, m - 1);
    }
  }

  lemma NextFailed(tr: seq<System>, k: nat)
    requires Run(tr) && k + 1 < |tr| && tr[k].x.state == Failed
    ensures tr[k + 1].x.state == Failed
  {
    RunInv(tr, k);
    assert NextUndisturbed(tr[k], tr[k + 1]);
    KeepsFailed(tr[k], tr[k + 1]);
  }

  lemma KeepsFailed(s: System, s': System)
    requires (forall a :: a in s.pcs ==> PcOk(s.x, s.pcs[a])) && s.x.state == Failed && NextUndisturbed(s, s')
    ensures s'.x.state == Failed
  {}

  /** A call that loads the state once the outcome is settled returns on that load, and returns what `init_func`
      reported. */
  lemma SettledIsTold(tr: seq<System>, n: nat, a: nat, ok: bool)
    requires Run(tr) && n + 1 < |tr| && a in tr[n].pcs && Step(tr[n], a, ok, tr[n + 1]) && Undisturbed(tr[n], a)
    requires (tr[n].pcs[a].FirstLoad? || tr[n].pcs[a].Wait?) && tr[n].x.runs == 1
    requires forall b :: b in tr[n].pcs ==> !tr[n].pcs[b].Initializes()
    ensures a in tr[n + 1].pcs && (if tr[n].x.succeeded then tr[n + 1].pcs[a].Holding? else tr[n + 1].pcs[a].DecRef?)
  {
    RunInv(tr, n);
  }

  /** With no call in progress the resource is initialized if and only if somebody holds it, the reference count is the
      number of holders, and every successful initialization but the one in use was followed by one cleanup. */
  lemma AtRest(tr: seq<System>, n: nat)
    requires Run(tr) && n < |tr| && forall a :: a in tr[n].pcs ==> tr[n].pcs[a].Out? || tr[n].pcs[a].Holding?
    ensures tr[n].x.state == Initialized <==> exists a :: a in tr[n].pcs && tr[n].pcs[a].Holding?
    ensures tr[n].x.refs == Count(tr[n].pcs, (pc: Pc) => pc.Holding?) && tr[n].x.state != Initializing
    ensures tr[n].x.successes == tr[n].x.cleanups + One(tr[n].x.state == Initialized)
  {
    RunInv(tr, n);
    var s := tr[n];
    CountZero(s.pcs, InRef);
    assert At(s.pcs, InRef) == At(s.pcs, (pc: Pc) => pc.Holding?);
    forall a | a in s.pcs && s.pcs[a].Holding? ensures s.x.state == Initialized {
      assert PcOk(s.x, s.pcs[a]);
    }
  }

  /** The hypothesis is exact: a first load of the state keeps the protocol in order if and only if no last `Cleanup` is
      before its reset; otherwise the call is told that the resource is ready while it is being cleaned up. */
  lemma LoadInOrderExactlyWhen(s: System, a: nat, ok: bool, s': System)
    requires Inv(s) && a in s.pcs && s.pcs[a].FirstLoad? && Step(s, a, ok, s')
    ensures Undisturbed(s, a) <==> Inv(s')
    ensures !Undisturbed(s, a) ==> a in s'.pcs && s'.pcs[a].Has() && exists b :: b in s'.pcs && s'.pcs[b].Cleans()
  {
    if Undisturbed(s, a) {
      assert NextUndisturbed(s, s');
      StepInv(s, s');
    } else {
      var b :| b in s.pcs && s.pcs[b].Cleans();
      assert PcOk(s.x, s.pcs[b]) && s'.pcs[b] == s.pcs[b];
      assert b != a && s'.pcs[a] == Holding && !Unaware(s'.pcs[a]);
    }
  }

  // ----- without the hypothesis -----

  ghost predicate AnyRun(tr: seq<System>) {
    && tr != [] && Init(tr[0])
    && (forall i :: 0 <= i < |tr| - 1 ==> Next(tr[i], tr[i + 1]))
  }

  ghost function Steps(): (System, System) -> bool { (s, s') => Next(s, s') }

  ghost function Two(x: Shared, p: Pc, q: Pc): System { System(x, map[0 := p, 1 := q]) }

  lemma First(good: System -> bool, x: Shared, p: Pc, q: Pc) returns (y: Shared, p': Pc)
    requires Closed(Steps(), good) && good(Two(x, p, q))
    ensures y == NextShared(p, x, true) && p' == NextPc(p, x, true) && good(Two(y, p', q))
  {
    y, p' := NextShared(p, x, true), NextPc(p, x, true);
    assert Two(y, p', q).pcs == Two(x, p, q).pcs[0 := p'];
    assert Step(Two(x, p, q), 0, true, Two(y, p', q));
    assert Steps()(Two(x, p, q), Two(y, p', q));
  }

  lemma Second(good: System -> bool, x: Shared, p: Pc, q: Pc) returns (y: Shared, q': Pc)
    requires Closed(Steps(), good) && good(Two(x, p, q))
    ensures y == NextShared(q, x, true) && q' == NextPc(q, x, true) && good(Two(y, p, q'))
  {
    y, q' := NextShared(q, x, true), NextPc(q, x, true);
    assert Two(y, p, q').pcs == Two(x, p, q).pcs[1 := q'];
    assert Step(Two(x, p, q), 1, true, Two(y, p, q'));
    assert Steps()(Two(x, p, q), Two(y, p, q'));
  }

  /** The first agent initializes, holds and is the last one to give the resource back. */
  lemma LastHolder(good: System -> bool) returns (x: Shared)
    requires Closed(Steps(), good) && good(Two(Fresh(), Out, Out))
    ensures x == Shared(Initialized, 0, 1, true, false, 1, 0) && good(Two(x, Cleaning, Out))
  {
    var p;
    x, p := First(good, Fresh(), Out, Out);
    x, p := First(good, x, p, Out);
    x, p := First(good, x, p, Out);
    x, p := First(good, x, p, Out);
    x, p := First(good, x, p, Out);
    x, p := First(good, x, p, Out);
    x, p := First(good, x, p, Out);
    x, p := First(good, x, p, Out);
  }

  /** The second one loads the state just before the reset. */
  lemma LateHolder(good: System -> bool) returns (x: Shared)
    requires Closed(Steps(), good) && good(Two(Fresh(), Out, Out))
    ensures x.state == NotInitialized && good(Two(x, Out, Holding))
  {
    var p, q;
    x := LastHolder(good);
    x, q := Second(good, x, Cleaning, Out);
    x, q := Second(good, x, Cleaning, q);
    x, q := Second(good, x, Cleaning, q);
    x, p := First(good, x, Cleaning, q);
    x, p := First(good, x, p, q);
  }

  /** Without the hypothesis the claim is false: there is a run at whose end a call was told that the resource is
      ready, and holds it, although it was cleaned up and the state says so. */
  lemma DisturbedCleanup() returns (tr: seq<System>)
    ensures AnyRun(tr) && 1 in tr[|tr| - 1].pcs && tr[|tr| - 1].pcs[1] == Holding
    ensures tr[|tr| - 1].x.state == NotInitialized
  {
    var start := Two(Fresh(), Out, Out);
    FromIsClosed(Steps(), start);
    var x := LateHolder(From(Steps(), start));
    tr :| Path(Steps(), tr) && tr[0] == start && tr[|tr| - 1] == Two(x, Out, Holding);
  }
}
