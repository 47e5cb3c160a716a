/** The game world call by call: an observer of its runs notes which jobs the calls asked an object to run, and which
    the object ran. */
module WorldCalls {
  import opened GameWorld

  /** A call of `PostTo`. */
  datatype Message = Message(sn: Serial, id: int)

  /** Per object the jobs asked for before its mark, and those that ran; per caller the move it is in the middle of; the
      messages in the order sent, and how many of them the manager has handled. */
  datatype Observed = Observed(
    w: World,
    asked: map<ObjId, seq<Job>>,
    ran: map<ObjId, seq<Job>>,
    moves: map<nat, Caller>,
    sent: seq<Message>,
    handled: nat)

  /** The manager is about to handle a message. */
  predicate Handles(m: Manager, e: Action) { e.RunOrder? && m.ran < |m.posted| && m.posted[m.ran].Forward? }

  /** The jobs that a step asks object `o` to run. */
  ghost function Asks(b: Observed, e: Action, o: ObjId): seq<Job> {
    match e
    case Create(p, c) => if p == o then [In(c)] else []
    case MoveFirst(_, p, c) => if p == o then [Out(c)] else []
    case MoveSecond(a) => if a in b.moves && b.moves[a].Moving? && b.moves[a].o == o then [In(b.moves[a].to)] else []
    case Call(p, job) => if p == o then [job] else []
    case RunOrder =>
      if Handles(b.w.manager, e) && b.handled < |b.sent| && Reaches(b.w, b.sent[b.handled], o)
      then [Other(b.sent[b.handled].id)] else []
    case _ => []
  }

  ghost predicate Reaches(w: World, m: Message, o: ObjId) {
    m.sn in w.manager.table && o in w.objs && w.objs[o].sn == m.sn
  }

  ghost function Told(told: map<ObjId, seq<Job>>, o: ObjId): seq<Job> { if o in told then told[o] else [] }

  ghost predicate Listens(w: World, o: ObjId) { o in w.objs ==> !w.objs[o].marked }

  ghost function Moves(moves: map<nat, Caller>, e: Action): map<nat, Caller> {
    match e
    case MoveFirst(a, o, c) => moves[a := Moving(o, c)]
    case MoveSecond(a) => moves[a := Free]
    case _ => moves
  }

  ghost predicate Acts(b: Observed, e: Action, b': Observed) {
    && Step(b.w, e, b'.w) && b'.asked.Keys == b'.ran.Keys == b'.w.objs.Keys
    && (forall o :: o in b'.asked ==>
         b'.asked[o] == Told(b.asked, o) + if Listens(b.w, o) then Asks(b, e, o) else [])
    && (forall o :: o in b'.ran ==>
         b'.ran[o] == Told(b.ran, o) + if e == RunJob(o) && o in b.w.objs then b.w.objs[o].queue[..1] else [])
    && b'.moves == Moves(b.moves, e)
    && b'.sent == b.sent + (if e.PostTo? then [Message(e.sn, e.id)] else [])
    && b'.handled == b.handled + (if Handles(b.w.manager, e) then 1 else 0)
  }

  ghost predicate NextObserved(b: Observed, b': Observed) { exists e :: Acts(b, e, b') }

  ghost predicate ObservedRun(tr: seq<Observed>) {
    && tr != [] && Init(tr[0].w) && tr[0] == Observed(tr[0].w, map[], map[], tr[0].w.calls, [], 0)
    && (forall i :: 0 <= i < |tr| - 1 ==> NextObserved(tr[i], tr[i + 1]))
  }

  // ----- what the observer sees -----

  /** The messages among the manager's jobs. */
  ghost function Messages(orders: seq<Order>): seq<Message> {
    if orders == [] then [] else
      var last := orders[|orders| - 1];
      Messages(orders[..|orders| - 1]) + if last.Forward? then [Message(last.sn, last.id)] else []
  }

  lemma MessagesMore(orders: seq<Order>, order: Order)
    ensures Messages(orders + [order]) == Messages(orders) + Messages([order])
  {
    assert (orders + [order])[..|orders|] == orders;
  }

  lemma {:induction false} MessagesUpTo(orders: seq<Order>, k: nat)
    requires k < |orders| && orders[k].Forward?
    ensures |Messages(orders[..k])| < |Messages(orders)|
    ensures Messages(orders)[|Messages(orders[..k])|] == Message(orders[k].sn, orders[k].id)
  {
    var front := orders[..|orders| - 1];
    if k < |front| {
      assert front[..k] == orders[..k];
      MessagesUpTo(front, k);
    }
  }

  /** The messages of the manager's jobs are those sent, and it has handled those of the jobs it has run. */
  ghost predicate Mailed(m: Manager, sent: seq<Message>, handled: nat) {
    m.ran <= |m.posted| && Messages(m.posted) == sent && handled == |Messages(m.posted[..m.ran])|
  }

  ghost predicate Obeyed(b: Observed, o: ObjId) {
    o in b.ran && o in b.asked && o in b.w.objs && b.ran[o] + b.w.objs[o].queue == b.asked[o]
  }

  ghost predicate Ledger(b: Observed) {
    && ManagerInv(b.w) && b.asked.Keys == b.ran.Keys == b.w.objs.Keys && b.moves == b.w.calls
    && Mailed(b.w.manager, b.sent, b.handled)
    && forall o :: o in b.w.objs ==> Obeyed(b, o)
  }

  lemma PostMailed(m: Manager, sent: seq<Message>, handled: nat, orders: seq<Order>, m': Manager)
    requires Mailed(m, sent, handled) && |orders| <= 1 && m'.posted == m.posted + orders && m'.ran == m.ran
    ensures Mailed(m', sent + Messages(orders), handled)
  {
    assert (m.posted + orders)[..m.ran] == m.posted[..m.ran];
    if orders == [] {
      assert m.posted + orders == m.posted;
    } else {
      assert orders == [orders[0]];
      MessagesMore(m.posted, orders[0]);
    }
  }

  lemma RanMailed(m: Manager, sent: seq<Message>, handled: nat, m': Manager)
    requires Mailed(m, sent, handled) && m.ran < |m.posted| && m'.posted == m.posted && m'.ran == m.ran + 1
    ensures Mailed(m', sent, handled + if m.posted[m.ran].Forward? then 1 else 0)
  {
    assert m.posted[..m.ran + 1] == m.posted[..m.ran] + [m.posted[m.ran]];
    MessagesMore(m.posted[..m.ran], m.posted[m.ran]);
  }

  /** The orders that a step posts to the manager. */
  ghost function Posts(w: World, e: Action): (orders: seq<Order>)
    ensures |orders| <= 1
  {
    if e.PostTo? then [Forward(e.sn, e.id)]
    else if e.RunJob? && e.o in w.objs && w.objs[e.o].queue != [] then
      Orders(w.objs[e.o].(queue := w.objs[e.o].queue[1..]), e.o, w.objs[e.o].queue[0])
    else []
  }

  lemma StepPosts(w: World, e: Action, w': World)
    requires Step(w, e, w')
    ensures w'.manager.posted == w.manager.posted + Posts(w, e)
    ensures w'.manager.ran == w.manager.ran + if e.RunOrder? then 1 else 0
    ensures e.RunOrder? ==> w.manager.ran < |w.manager.posted|
  {}

  lemma PostsMessages(w: World, e: Action)
    ensures Messages(Posts(w, e)) == if e.PostTo? then [Message(e.sn, e.id)] else []
  {
    assert Messages([]) == [];
  }

  lemma StepMailed(b: Observed, e: Action, b': Observed)
    requires Mailed(b.w.manager, b.sent, b.handled) && Acts(b, e, b')
    ensures Mailed(b'.w.manager, b'.sent, b'.handled)
  {
    StepPosts(b.w, e, b'.w);
    if e.RunOrder? {
      RanMailed(b.w.manager, b.sent, b.handled, b'.w.manager);
    } else {
      PostsMessages(b.w, e);
      PostMailed(b.w.manager, b.sent, b.handled, Posts(b.w, e), b'.w.manager);
    }
  }

  /** What a step does to the queue of an object: what it asks for is at the end, and what it runs is gone. */
  lemma StepQueue(b: Observed, e: Action, w': World, o: ObjId)
    requires ManagerInv(b.w) && Mailed(b.w.manager, b.sent, b.handled) && b.moves == b.w.calls && Step(b.w, e, w')
    requires o in b.w.objs
    ensures o in w'.objs
    ensures var x, y := b.w.objs[o], w'.objs[o];
      (if e == RunJob(o) then x.queue[..1] else []) + y.queue == x.queue + if x.marked then [] else Asks(b, e, o)
  {
    var x, m := b.w.objs[o], b.w.manager;
    if Handles(m, e) {
      MessagesUpTo(m.posted, m.ran);
      Delivers(b.w, w', m.posted[m.ran].sn, m.posted[m.ran].id, o);
    } else if e.RunJob? {
      if e.o == o {
        Runs(b.w.home, x);
      }
    } else if !e.RunOrder? {
      CallQueue(b, e, w', o);
    }
  }

  lemma CallQueue(b: Observed, e: Action, w': World, o: ObjId)
    requires b.moves == b.w.calls && Step(b.w, e, w') && o in b.w.objs && !e.RunJob? && !e.RunOrder?
    ensures o in w'.objs
    ensures w'.objs[o].queue == b.w.objs[o].queue + if b.w.objs[o].marked then [] else Asks(b, e, o)
  {}

  lemma Runs(home: Homes, x: Obj)
    requires x.queue != []
    ensures x.queue[..1] + NextObj(home, x.(queue := x.queue[1..]), x.queue[0]).queue == x.queue
  {}

  lemma StepObeyed(b: Observed, e: Action, b': Observed, o: ObjId)
    requires Ledger(b) && Acts(b, e, b') && o in b'.w.objs
    ensures Obeyed(b', o)
  {
    if o in b.w.objs {
      assert Obeyed(b, o);
      StepQueue(b, e, b'.w, o);
      Adds(b.ran[o], if e == RunJob(o) then b.w.objs[o].queue[..1] else [], b'.w.objs[o].queue, b.w.objs[o].queue,
           if b.w.objs[o].marked then [] else Asks(b, e, o));
    } else {
      StepHome(b.w, e, b'.w);
    }
  }

  lemma Adds(ran: seq<Job>, gone: seq<Job>, after: seq<Job>, before: seq<Job>, more: seq<Job>)
    requires gone + after == before + more
    ensures ran + gone + after == ran + before + more
  {
    assert ran + gone + after == ran + (gone + after);
    assert ran + before + more == ran + (before + more);
  }

  lemma NextLedger(b: Observed, b': Observed)
    requires Ledger(b) && NextObserved(b, b')
    ensures Ledger(b')
  {
    var e :| Acts(b, e, b');
    StepManager(b.w, e, b'.w);
    StepMailed(b, e, b');
    StepMoves(b, e, b');
    forall o | o in b'.w.objs ensures Obeyed(b', o) {
      StepObeyed(b, e, b', o);
    }
  }

  lemma StepMoves(b: Observed, e: Action, b': Observed)
    requires b.moves == b.w.calls && Acts(b, e, b')
    ensures b'.moves == b'.w.calls
  {}

  lemma {:induction false} RunLedger(tr: seq<Observed>, n: nat)
    requires ObservedRun(tr) && n < |tr|
    ensures Ledger(tr[n])
  {
    if n > 0 {
      RunLedger(tr, n - 1);
      assert NextObserved(tr[n - 1], tr[n - 1 + 1]);
      NextLedger(tr[n - 1], tr[n]);
    }
  }

  // ----- results -----

  /** Every job that `Create`, `MoveToScene`, `ExitScene`, `Destroy`, a plain post or a message that resolved asked an
      unmarked object to run has run or waits in its queue, in the order of the calls, and the object runs nothing
      else. */
  lemma JobsAreThoseAsked(tr: seq<Observed>, n: nat, o: ObjId)
    requires ObservedRun(tr) && n < |tr| && o in tr[n].w.objs
    ensures o in tr[n].ran && o in tr[n].asked && tr[n].ran[o] + tr[n].w.objs[o].queue == tr[n].asked[o]
  {
    RunLedger(tr, n);
    assert Obeyed(tr[n], o);
  }

  /** The manager handles the messages in the order sent, each once: those among the jobs it has run are the first
      `handled` ones, and those among all its jobs are all that were sent. */
  lemma MessagesInOrder(tr: seq<Observed>, n: nat)
    requires ObservedRun(tr) && n < |tr|
    ensures var m := tr[n].w.manager;
      && m.ran <= |m.posted| && Messages(m.posted) == tr[n].sent
      && tr[n].handled <= |tr[n].sent| && Messages(m.posted[..m.ran]) == tr[n].sent[..tr[n].handled]
  {
    RunLedger(tr, n);
    MessagesPrefix(tr[n].w.manager.posted, tr[n].w.manager.ran);
  }

  lemma {:induction false} MessagesPrefix(orders: seq<Order>, k: nat)
    requires k <= |orders|
    ensures Messages(orders[..k]) <= Messages(orders)
  {
    if k < |orders| {
      var front := orders[..|orders| - 1];
      assert front[..k] == orders[..k];
      MessagesPrefix(front, k);
    } else {
      assert orders[..k] == orders;
    }
  }
}
