/** The send protocol by what its callers saw: an observer of a session's runs notes whether a call came after the
    disconnect, and whether the holder of the flag saw the queue empty. */
module SendSights {
  import opened SessionSend

  /** Of an agent's latest call: whether a disconnect was pending when it was made, whether it raised the flag and has
      not put it down, and whether it has seen the queue counted empty since it raised the flag. */
  datatype Sight = Sight(late: bool, raised: bool, empty: bool)

  ghost function Seen(v: Sight, calls: bool, x: Sender, y: Sender): Sight {
    if calls then Sight(x.pending, false, false)
    else Sight(v.late, if x.flag == y.flag then v.raised else y.flag,
               if !x.flag && y.flag then false else v.empty || x.count <= 0)
  }

  datatype Observed = Observed(s: System, sights: map<nat, Sight>)

  ghost predicate Acts(o: Observed, a: nat, c: Choice, o': Observed)
    requires a in o.s.pcs
  {
    && Step(o.s, a, c, o'.s) && a in o.sights
    && o'.sights == o.sights[a := Seen(o.sights[a], o.s.pcs[a].Idle?, o.s.x, o'.s.x)]
  }

  ghost predicate NextObserved(o: Observed, o': Observed) {
    exists a, c :: a in o.s.pcs && Acts(o, a, c, o')
  }

  ghost predicate ObservedRun(tr: seq<Observed>) {
    && tr != [] && Init(tr[0].s) && tr[0].sights.Keys == tr[0].s.pcs.Keys
    && (forall a :: a in tr[0].sights ==> tr[0].sights[a] == Sight(false, false, false))
    && (forall i :: 0 <= i < |tr| - 1 ==> NextObserved(tr[i], tr[i + 1]))
  }

  predicate Completing(pc: Pc) { pc.Completes() || pc.CompCheck? }

  /** What an agent's program point says about what it saw. */
  predicate Saw(x: Sender, pc: Pc, v: Sight) {
    && (v.late ==> x.pending && (pc.Idle? || pc.SendCheck? || pc.Disconnect? || Completing(pc)))
    && (pc.Owns() && !pc.Completes() ==> v.raised)
    && (pc.Completes() ==> !v.raised)
    && (pc.Release? ==> v.empty)
  }

  ghost predicate Watched(o: Observed) {
    o.sights.Keys == o.s.pcs.Keys && forall a :: a in o.s.pcs ==> Saw(o.s.x, o.s.pcs[a], o.sights[a])
  }

  lemma StillSaw(x: Sender, pc: Pc, a: nat, c: Choice, v: Sight)
    requires Saw(x, pc, v) && (pc.Owns() ==> x.flag)
    ensures var y := NextSender(pc, x, a, c);
      Saw(y, NextPc(pc, x, c), Seen(v, pc.Idle?, x, y)) && (x.pending ==> y.pending)
  {}

  lemma NextWatched(o: Observed, o': Observed)
    requires Watched(o) && Token(o.s) && NextObserved(o, o')
    ensures Watched(o')
  {
    var a, c :| a in o.s.pcs && Acts(o, a, c, o');
    StillSaw(o.s.x, o.s.pcs[a], a, c, o.sights[a]);
  }

  lemma NextToken(o: Observed, o': Observed)
    requires Inv(o.s) && NextObserved(o, o')
    ensures Inv(o'.s)
  {
    assert Next(o.s, o'.s);
    StepInv(o.s, o'.s);
  }

  lemma {:induction false} RunWatched(tr: seq<Observed>, n: nat)
    requires ObservedRun(tr) && n < |tr|
    ensures Watched(tr[n]) && Inv(tr[n].s)
  {
    if n == 0 {
      InitInv(tr[0].s);
    } else {
      RunWatched(tr, n - 1);
      assert NextObserved(tr[n - 1], tr[n - 1 + 1]);
      NextWatched(tr[n - 1], tr[n]);
      NextToken(tr[n - 1], tr[n]);
    }
  }

  lemma RunToken(tr: seq<Observed>, n: nat)
    requires ObservedRun(tr) && n < |tr|
    ensures Token(tr[n].s)
  {
    RunWatched(tr, n);
  }

  // ----- results -----

  /** A call made while a disconnect is pending queues no packet and posts no batch, completions included. */
  lemma NothingAfterDisconnect(tr: seq<Observed>, n: nat, a: nat, c: Choice)
    requires ObservedRun(tr) && n + 1 < |tr| && a in tr[n].s.pcs && Acts(tr[n], a, c, tr[n + 1])
    requires if tr[n].s.pcs[a].Idle? then tr[n].s.x.pending else tr[n].sights[a].late
    ensures tr[n + 1].s.x.hist == tr[n].s.x.hist && tr[n + 1].s.x.posted == tr[n].s.x.posted
  {
    RunWatched(tr, n);
    assert Saw(tr[n].s.x, tr[n].s.pcs[a], tr[n].sights[a]);
    Writes(tr[n].s.pcs[a], tr[n].s.x, a, c);
  }

  lemma Writes(pc: Pc, x: Sender, a: nat, c: Choice)
    ensures var y := NextSender(pc, x, a, c);
      (pc.SendLink? || y.hist == x.hist) && (pc.Post? || y.posted == x.posted)
  {}

  /** Whoever raised the flag puts it down again only after it has seen the queue empty; otherwise a batch is on its
      way, or the session is given up. */
  lemma LetsGoWhenEmpty(tr: seq<Observed>, n: nat, a: nat, c: Choice)
    requires ObservedRun(tr) && n + 1 < |tr| && a in tr[n].s.pcs && Acts(tr[n], a, c, tr[n + 1])
    requires tr[n].s.x.flag && !tr[n + 1].s.x.flag && tr[n].sights[a].raised
    ensures tr[n].sights[a].empty
  {
    RunWatched(tr, n);
    assert Saw(tr[n].s.x, tr[n].s.pcs[a], tr[n].sights[a]);
  }

  ghost predicate GivenUp(s: System) {
    s.x.holder == Stuck || (s.x.holder.Agent? && s.x.holder.a in s.pcs && s.pcs[s.x.holder.a].Overflow?)
  }

  lemma StaysGivenUp(o: Observed, o': Observed)
    requires Token(o.s) && NextObserved(o, o') && GivenUp(o.s)
    ensures GivenUp(o'.s) && o'.s.x.posted == o.s.x.posted
  {
    var a, c :| a in o.s.pcs && Acts(o, a, c, o');
    assert a in o.s.pcs && o.s.pcs[a].Owns() ==> o.s.x.holder == Agent(a);
  }

  lemma GivesUp(s: System, a: nat)
    requires Token(s) && a in s.pcs && s.pcs[a].Overflow?
    ensures GivenUp(s)
  {}

  lemma NextGivenUp(tr: seq<Observed>, k: nat)
    requires ObservedRun(tr) && k + 1 < |tr| && GivenUp(tr[k].s)
    ensures GivenUp(tr[k + 1].s) && tr[k + 1].s.x.posted == tr[k].s.x.posted
  {
    RunToken(tr, k);
    assert NextObserved(tr[k], tr[k + 1]);
    StaysGivenUp(tr[k], tr[k + 1]);
  }

  /** Once a sender gives the session up, no batch is ever posted again. */
  lemma {:induction false} NothingAfterOverflow(tr: seq<Observed>, n: nat, m: nat, a: nat)
    requires ObservedRun(tr) && n <= m < |tr| && a in tr[n].s.pcs && tr[n].s.pcs[a].Overflow?
    ensures GivenUp(tr[m].s) && tr[m].s.x.posted == tr[n].s.x.posted
  {
    if n == m {
      RunToken(tr, n);
      GivesUp(tr[n].s, a);
    } else {
      NothingAfterOverflow(tr, n, m - 1, a);
      NextGivenUp(tr, m - 1);
    }
  }
}
