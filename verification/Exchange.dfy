/** The assumption exchanger (ax/ax.go): clients, the dispatcher and the solving units
  run interleaved and talk over channels.  A step is one action of one of them. */
module Exchange {

  type Req = int   // a request; the clients' requests are told apart

  datatype Resp = Resp(who: int, req: Req)

  /** What a unit does: its goroutine solves, then waits to send its response. */
  datatype Activity = Idle | Running(req: Req) | Done(req: Req)

  datatype Option<T> = None | Some(value: T)

  /** Where the dispatcher is: at the select of serve, in handleReq before and while it
    waits for a unit, in getunit, or in handleResp, sending a response while a request
    may be waiting. */
  datatype Phase = Select | Handle(req: Req) | Await(req: Req) | Pick(req: Req) | Give(resp: Resp, next: Option<Req>)

  datatype State = State(
    phase: Phase,
    us: seq<Activity>,      // the units
    avail: seq<int>,        // those that are free
    uResp: seq<Resp>,       // the channel from the units, with room for one
    accepted: seq<Req>,     // all requests taken from clients
    answered: seq<Req>)     // all requests whose response a client has got

  function Init(): State {
    State(Select, [Idle], [0], [], [], [])
  }

  // ---- steps ----

  // case req := <-m.reqChn in serve
  ghost predicate Accept(s: State, s': State, r: Req) {
    s.phase == Select && r !in s.accepted && s' == s.(phase := Handle(r), accepted := s.accepted + [r])
  }

  // len(m.avail) == 0 in handleReq
  ghost predicate Look(s: State, s': State) {
    s.phase.Handle? && s' == s.(phase := if |s.avail| == 0 then Await(s.phase.req) else Pick(s.phase.req))
  }

  // <-m.uRespChn in serve and in handleReq, and the start of handleResp
  ghost predicate Receive(s: State, s': State) {
    && (s.phase == Select || s.phase.Await?) && |s.uResp| > 0
    && s' == s.(phase := Give(s.uResp[0], if s.phase == Select then None else Some(s.phase.req)),
         avail := s.avail + [s.uResp[0].who], uResp := s.uResp[1..])
  }

  // m.respChn <- resp, which takes a client that receives
  ghost predicate Deliver(s: State, s': State) {
    && s.phase.Give?
    && s' == s.(phase := if s.phase.next.Some? then Pick(s.phase.next.value) else Select, answered := s.answered + [s.phase.resp.req])
  }

  /** The units and free units after getunit has made one more, if it is to. */
  function Grown(s: State, cap: int): State {
    if |s.us| < cap && |s.avail| == 1 then s.(us := s.us + [Idle], avail := s.avail + [|s.us|]) else s
  }

  // getunit, which may take any free unit, and the start of its solver
  ghost predicate Start(s: State, s': State, cap: int, k: int) {
    && s.phase.Pick?
    && var g := Grown(s, cap);
       && 0 <= k < |g.avail| && 0 <= g.avail[k] < |g.us|
       && s' == g.(phase := Select, us := g.us[g.avail[k] := Running(s.phase.req)],
            avail := g.avail[k := g.avail[|g.avail| - 1]][..|g.avail| - 1])
  }

  // the solver of unit i ends, or its time is up
  ghost predicate Finish(s: State, s': State, i: int) {
    0 <= i < |s.us| && s.us[i].Running? && s' == s.(us := s.us[i := Done(s.us[i].req)])
  }

  // c <- resp in the goroutine of unit i
  ghost predicate Send(s: State, s': State, i: int) {
    && 0 <= i < |s.us| && s.us[i].Done? && |s.uResp| == 0
    && s' == s.(us := s.us[i := Idle], uResp := [Resp(i, s.us[i].req)])
  }

  /** The steps that take no client. */
  ghost predicate Own(s: State, s': State, cap: int) {
    || Look(s, s') || Receive(s, s')
    || (exists k :: Start(s, s', cap, k)) || (exists i :: Finish(s, s', i)) || (exists i :: Send(s, s', i))
  }

  ghost predicate Next(s: State, s': State, cap: int) {
    (exists r :: Accept(s, s', r)) || Deliver(s, s') || Own(s, s', cap)
  }

  // ---- where requests are ----

  function Waiting(p: Phase): seq<Req> {
    match p
    case Select => []
    case Handle(r) => [r]
    case Await(r) => [r]
    case Pick(r) => [r]
    case Give(_, n) => if n.Some? then [n.value] else []
  }

  function Giving(p: Phase): seq<Req> {
    if p.Give? then [p.resp.req] else []
  }

  /** The requests of the units that are solving or about to respond. */
  function Working(us: seq<Activity>): seq<Req> {
    if |us| == 0 then []
    else
      var u := us[|us| - 1];
      Working(us[..|us| - 1]) + if u.Idle? then [] else [u.req]
  }

  function Sent(ch: seq<Resp>): seq<Req> {
    if |ch| == 0 then [] else [ch[0].req] + Sent(ch[1..])
  }

  /** How often r is among the requests. */
  function Times(rs: seq<Req>, r: Req): nat {
    multiset(rs)[r]
  }

  lemma TimesFacts(rs: seq<Req>, q: Req)
    ensures forall r :: Times(rs + [q], r) == Times(rs, r) + if r == q then 1 else 0
    ensures forall r :: Times([q] + rs, r) == Times(rs, r) + if r == q then 1 else 0
    ensures forall r :: Times([q], r) == (if r == q then 1 else 0) && Times([], r) == 0
  {
  }

  /** Every accepted request is in one place: waiting, being solved, on its way back, or
    answered. */
  ghost predicate Conserved(s: State) {
    forall r :: Times(s.accepted, r) ==
      Times(Waiting(s.phase), r) + Times(Working(s.us), r) + Times(Sent(s.uResp), r) + Times(Giving(s.phase), r) + Times(s.answered, r)
  }

  ghost predicate OnChannel(ch: seq<Resp>, i: int) {
    exists k :: 0 <= k < |ch| && ch[k].who == i
  }

  /** A unit is free, at work, or has its response on the channel, and only one of these;
    no unit is free twice, and there are no more than cap. */
  ghost predicate Partition(us: seq<Activity>, avail: seq<int>, ch: seq<Resp>, cap: int) {
    && 1 <= |us| <= cap && |ch| <= 1
    && (forall k :: 0 <= k < |avail| ==> 0 <= avail[k] < |us|)
    && (forall j, k :: 0 <= j < k < |avail| ==> avail[j] != avail[k])
    && (forall k :: 0 <= k < |ch| ==> 0 <= ch[k].who < |us|)
    && (forall i :: 0 <= i < |us| && i in avail ==> us[i].Idle? && !OnChannel(ch, i))
    && (forall i :: 0 <= i < |us| && OnChannel(ch, i) ==> us[i].Idle?)
    && (forall i :: 0 <= i < |us| && i !in avail && us[i].Idle? ==> OnChannel(ch, i))
  }

  ghost predicate Distinct(rs: seq<Req>) {
    forall i, j :: 0 <= i < j < |rs| ==> rs[i] != rs[j]
  }

  /** While the dispatcher waits for a unit none is free; in getunit one is. */
  ghost predicate InPlace(s: State) {
    (s.phase.Await? ==> s.avail == []) && (s.phase.Pick? || s.phase.Give? ==> |s.avail| > 0)
  }

  /** Until all units have been made one is free. */
  ghost predicate Roomy(us: seq<Activity>, avail: seq<int>, cap: int) {
    |us| < cap ==> |avail| > 0
  }

  ghost predicate Inv(s: State, cap: int) {
    && Conserved(s) && Partition(s.us, s.avail, s.uResp, cap) && Distinct(s.accepted) && InPlace(s)
    && Roomy(s.us, s.avail, cap)
  }

  lemma InvInit(cap: int)
    requires cap >= 1
    ensures Inv(Init(), cap)
  {
    assert Working([Idle][..0]) == [];
    assert Partition([Idle], [0], [], cap);
    hide Partition;
  }

  function ReqsOf(u: Activity): seq<Req> {
    if u.Idle? then [] else [u.req]
  }

  /** One unit changes what it does. */
  lemma {:induction false} WorkingSet(us: seq<Activity>, i: int, a: Activity)
    requires 0 <= i < |us|
    ensures forall r :: Times(Working(us[i := a]), r) + Times(ReqsOf(us[i]), r) == Times(Working(us), r) + Times(ReqsOf(a), r)
  {
    hide Working, ReqsOf, Times;
    var n := |us| - 1;
    var us' := us[i := a];
    WorkingLast(us);
    WorkingLast(us');
    if i < n {
      assert us'[..n] == us[..n][i := a] && us'[n] == us[n] && us[..n][i] == us[i];
      WorkingSet(us[..n], i, a);
    } else {
      assert us'[..n] == us[..n];
    }
  }

  lemma WorkingLast(us: seq<Activity>)
    requires |us| > 0
    ensures forall r :: Times(Working(us), r) == Times(Working(us[..|us| - 1]), r) + Times(ReqsOf(us[|us| - 1]), r)
  {
  }

  lemma WorkingGrow(us: seq<Activity>)
    ensures Working(us + [Idle]) == Working(us)
  {
  }

  // ---- each step keeps the invariant ----

  lemma AcceptInv(s: State, s': State, cap: int, r: Req)
    requires Inv(s, cap) && Accept(s, s', r)
    ensures Inv(s', cap)
  {
  }

  lemma LookInv(s: State, s': State, cap: int)
    requires Inv(s, cap) && Look(s, s')
    ensures Inv(s', cap)
  {
  }

  lemma ReceiveInv(s: State, s': State, cap: int)
    requires Inv(s, cap) && Receive(s, s')
    ensures Inv(s', cap)
  {
    hide Working, Sent, Partition, Times;
    ReceiveSent(s.uResp);
    TimesFacts([], s.uResp[0].req);
    ReceivePartition(s.us, s.avail, s.uResp, cap);
  }

  lemma ReceiveSent(ch: seq<Resp>)
    requires |ch| > 0
    ensures forall r :: Times(Sent(ch), r) == Times(Sent(ch[1..]), r) + if r == ch[0].req then 1 else 0
  {
  }

  lemma ReceivePartition(us: seq<Activity>, avail: seq<int>, ch: seq<Resp>, cap: int)
    requires Partition(us, avail, ch, cap) && |ch| > 0
    ensures Partition(us, avail + [ch[0].who], ch[1..], cap)
  {
    var w := ch[0].who;
    assert OnChannel(ch, w);
    assert forall i :: i in avail + [w] <==> i in avail || i == w;
    assert forall i :: OnChannel(ch, i) ==> i == w;
    assert forall i :: !OnChannel(ch[1..], i);
  }

  lemma DeliverInv(s: State, s': State, cap: int)
    requires Inv(s, cap) && Deliver(s, s')
    ensures Inv(s', cap)
  {
  }

  /** getunit makes a new unit, a copy of one that is idle. */
  lemma GrownInv(s: State, cap: int)
    requires Inv(s, cap)
    ensures Inv(Grown(s, cap), cap) && Grown(s, cap).phase == s.phase
    ensures |s.us| <= |Grown(s, cap).us| <= |s.us| + 1
    ensures s.phase.Pick? && |Grown(s, cap).us| < cap ==> |Grown(s, cap).avail| >= 2
    ensures Grown(s, cap) != s ==> |s.avail| == 1 && 0 <= s.avail[0] < |s.us| && s.us[s.avail[0]].Idle?
  {
    hide Working, Sent, Partition, Times;
    WorkingGrow(s.us);
    if Grown(s, cap) != s {
      GrownPartition(s.us, s.avail, s.uResp, cap);
    }
  }

  lemma GrownPartition(us: seq<Activity>, avail: seq<int>, ch: seq<Resp>, cap: int)
    requires Partition(us, avail, ch, cap) && |us| < cap && |avail| > 0
    ensures Partition(us + [Idle], avail + [|us|], ch, cap)
    ensures 0 <= avail[0] < |us| && us[avail[0]].Idle?
  {
  }

  /** A unit is started only when it is idle. */
  lemma StartInv(s: State, s': State, cap: int, k: int)
    requires Inv(s, cap) && Start(s, s', cap, k)
    ensures Inv(s', cap) && Grown(s, cap).us[Grown(s, cap).avail[k]].Idle?
  {
    hide Inv, Grown;
    GrownInv(s, cap);
    var g := Grown(s, cap);
    assert g.phase == Pick(s.phase.req);
    StartGrown(g, s', cap, k, s.phase.req);
  }

  lemma StartGrown(g: State, s': State, cap: int, k: int, r: Req)
    requires Inv(g, cap) && (|g.us| < cap ==> |g.avail| >= 2) && g.phase == Pick(r) && 0 <= k < |g.avail| && 0 <= g.avail[k] < |g.us|
    requires s' == g.(phase := Select, us := g.us[g.avail[k] := Running(r)], avail := g.avail[k := g.avail[|g.avail| - 1]][..|g.avail| - 1])
    ensures Inv(s', cap) && g.us[g.avail[k]].Idle?
  {
    hide Inv, Working, Sent, Partition, Conserved, Distinct, InPlace;
    InvParts(g, cap);
    StartPartition(g.us, g.avail, g.uResp, cap, k, r);
    StartConserved(g, s', g.avail[k], r);
    StartRest(s', cap);
  }

  lemma InvParts(s: State, cap: int)
    requires Inv(s, cap)
    ensures Conserved(s) && Partition(s.us, s.avail, s.uResp, cap) && Distinct(s.accepted)
  {
  }

  lemma StartRest(s': State, cap: int)
    requires Conserved(s') && Partition(s'.us, s'.avail, s'.uResp, cap) && Distinct(s'.accepted) && s'.phase == Select
    requires Roomy(s'.us, s'.avail, cap)
    ensures Inv(s', cap)
  {
  }

  lemma StartConserved(g: State, s': State, i: int, r: Req)
    requires Conserved(g) && 0 <= i < |g.us| && g.us[i].Idle? && g.phase == Pick(r)
    requires s' == g.(phase := Select, us := g.us[i := Running(r)], avail := s'.avail)
    ensures Conserved(s')
  {
    hide Working, Sent, Times;
    WorkingSet(g.us, i, Running(r));
    TimesFacts([], r);
  }

  lemma StartPartition(us: seq<Activity>, avail: seq<int>, ch: seq<Resp>, cap: int, k: int, r: Req)
    requires Partition(us, avail, ch, cap) && 0 <= k < |avail|
    ensures 0 <= avail[k] < |us| && us[avail[k]].Idle?
    ensures Partition(us[avail[k] := Running(r)], avail[k := avail[|avail| - 1]][..|avail| - 1], ch, cap)
  {
    var n := |avail| - 1;
    var avail' := avail[k := avail[n]][..n];
    var u := avail[k];
    assert u in avail;
    forall i ensures i in avail' <==> i in avail && i != u {
      if i in avail && i != u {
        var j :| 0 <= j < |avail| && avail[j] == i;
        assert avail'[if j == n then k else j] == i;
      }
    }
    assert !OnChannel(ch, u);
  }

  lemma FinishInv(s: State, s': State, cap: int, i: int)
    requires Inv(s, cap) && Finish(s, s', i)
    ensures Inv(s', cap)
  {
    hide Working, Sent, Partition, Times;
    WorkingSet(s.us, i, Done(s.us[i].req));
    BusyPartition(s.us, s.avail, s.uResp, cap, i, Done(s.us[i].req));
  }

  lemma BusyPartition(us: seq<Activity>, avail: seq<int>, ch: seq<Resp>, cap: int, i: int, a: Activity)
    requires Partition(us, avail, ch, cap) && 0 <= i < |us| && !us[i].Idle? && !a.Idle?
    ensures Partition(us[i := a], avail, ch, cap)
  {
  }

  lemma SendInv(s: State, s': State, cap: int, i: int)
    requires Inv(s, cap) && Send(s, s', i)
    ensures Inv(s', cap)
  {
    hide Working, Partition, Times;
    WorkingSet(s.us, i, Idle);
    SendPartition(s.us, s.avail, s.uResp, cap, i);
    SentOne(Resp(i, s.us[i].req));
    hide Sent;
    TimesFacts([], s.us[i].req);
  }

  lemma SentOne(p: Resp)
    ensures Sent([p]) == [p.req] && Sent([]) == []
  {
  }

  lemma SendPartition(us: seq<Activity>, avail: seq<int>, ch: seq<Resp>, cap: int, i: int)
    requires Partition(us, avail, ch, cap) && 0 <= i < |us| && us[i].Done? && |ch| == 0
    ensures Partition(us[i := Idle], avail, [Resp(i, us[i].req)], cap)
  {
    var ch' := [Resp(i, us[i].req)];
    assert i !in avail;
    assert ch'[0].who == i;
    assert OnChannel(ch', i);
    assert forall j :: OnChannel(ch', j) ==> j == i;
    assert forall j :: !OnChannel(ch, j);
    hide OnChannel;
  }

  lemma NextInv(s: State, s': State, cap: int)
    requires Inv(s, cap) && Next(s, s', cap)
    ensures Inv(s', cap)
  {
    hide Inv, Accept, Look, Receive, Deliver, Start, Finish, Send;
    if r :| Accept(s, s', r) {
      AcceptInv(s, s', cap, r);
    } else if Look(s, s') {
      LookInv(s, s', cap);
    } else if Receive(s, s') {
      ReceiveInv(s, s', cap);
    } else if Deliver(s, s') {
      DeliverInv(s, s', cap);
    } else if k :| Start(s, s', cap, k) {
      StartInv(s, s', cap, k);
    } else if i :| Finish(s, s', i) {
      FinishInv(s, s', cap, i);
    } else {
      var i :| Send(s, s', i);
      SendInv(s, s', cap, i);
    }
  }

  // ---- runs ----

  ghost predicate IsRun(ss: seq<State>, cap: int) {
    |ss| > 0 && ss[0] == Init() && forall n :: 0 <= n < |ss| - 1 ==> Next(ss[n], ss[n + 1], cap)
  }

  lemma {:induction false} RunInv(ss: seq<State>, cap: int, n: nat)
    requires cap >= 1 && IsRun(ss, cap) && n < |ss|
    ensures Inv(ss[n], cap)
  {
    if n == 0 {
      InvInit(cap);
    } else {
      RunInv(ss, cap, n - 1);
      assert Next(ss[n - 1], ss[n - 1 + 1], cap);
      NextInv(ss[n - 1], ss[n], cap);
    }
  }

  /** No request gets two responses, none is answered that was not accepted, and none that
    is on its way or waiting has been answered. */
  /** A request waits for a unit only when all units have been made, and each is solving
    or has a response on its way. */
  lemma AwaitFull(ss: seq<State>, cap: int, n: nat)
    requires cap >= 1 && IsRun(ss, cap) && n < |ss| && ss[n].phase.Await?
    ensures |ss[n].us| == cap
    ensures forall i :: 0 <= i < cap ==> !ss[n].us[i].Idle? || OnChannel(ss[n].uResp, i)
  {
    RunInv(ss, cap, n);
  }

  lemma AnsweredOnce(ss: seq<State>, cap: int, n: nat)
    requires cap >= 1 && IsRun(ss, cap) && n < |ss|
    ensures Distinct(ss[n].answered) && forall r :: r in ss[n].answered ==> r in ss[n].accepted
    ensures forall r :: r in ss[n].accepted <==> r in ss[n].answered || Open(ss[n], r)
    ensures forall r :: r in ss[n].answered ==> !Open(ss[n], r)
  {
    RunInv(ss, cap, n);
    AnsweredPart(ss[n]);
  }

  /** The request is waiting, being solved, or on its way back. */
  ghost predicate Open(s: State, r: Req) {
    r in Waiting(s.phase) || r in Working(s.us) || r in Sent(s.uResp) || r in Giving(s.phase)
  }

  lemma AnsweredPart(s: State)
    requires Conserved(s) && Distinct(s.accepted)
    ensures Distinct(s.answered) && forall r :: r in s.answered ==> r in s.accepted
    ensures forall r :: r in s.accepted <==> r in s.answered || Open(s, r)
    ensures forall r :: r in s.answered ==> !Open(s, r)
  {
    hide Working, Sent, Waiting, Giving, Times;
    forall r ensures Times(s.accepted, r) <= 1 { OnceIn(s.accepted, r); }
    forall r
      ensures (r in s.accepted <==> Times(s.accepted, r) > 0) && (r in s.answered <==> Times(s.answered, r) > 0)
      ensures Open(s, r) <==> Times(Waiting(s.phase), r) + Times(Working(s.us), r) + Times(Sent(s.uResp), r) + Times(Giving(s.phase), r) > 0
    {
      InTimes(s.accepted, r);
      InTimes(s.answered, r);
      InTimes(Waiting(s.phase), r);
      InTimes(Working(s.us), r);
      InTimes(Sent(s.uResp), r);
      InTimes(Giving(s.phase), r);
    }
    DistinctOf(s.answered);
  }

  lemma InTimes(rs: seq<Req>, r: Req)
    ensures r in rs <==> Times(rs, r) > 0
  {
  }

  lemma {:induction false} OnceIn(rs: seq<Req>, r: Req)
    requires Distinct(rs)
    ensures Times(rs, r) <= 1
  {
    if |rs| > 0 {
      var n := |rs| - 1;
      assert rs == rs[..n] + [rs[n]];
      OnceIn(rs[..n], r);
      assert rs[n] !in rs[..n];
      assert rs[n] !in multiset(rs[..n]);
    }
  }

  lemma DistinctOf(rs: seq<Req>)
    requires forall r :: Times(rs, r) <= 1
    ensures Distinct(rs)
  {
    forall i, j | 0 <= i < j < |rs| && rs[i] == rs[j] ensures false {
      TwiceIn(rs, i, j);
    }
  }

  lemma TwiceIn(rs: seq<Req>, i: int, j: int)
    requires 0 <= i < j < |rs| && rs[i] == rs[j]
    ensures Times(rs, rs[i]) >= 2
  {
    assert rs == rs[..j] + [rs[j]] + rs[j + 1..];
    assert rs[..j][i] == rs[j];
    assert rs[j] in multiset(rs[..j]);
  }

  /** As long as a request is open, the dispatcher has a response ready for a client, or
    dispatcher or units can go on by themselves. */
  lemma Progress(s: State, cap: int, r: Req) returns (s': State)
    requires Inv(s, cap) && Open(s, r)
    ensures if s.phase.Give? then Deliver(s, s') else Own(s, s', cap)
  {
    if s.phase.Handle? {
      s' := s.(phase := if |s.avail| == 0 then Await(s.phase.req) else Pick(s.phase.req));
      assert Look(s, s');
    } else if s.phase.Give? {
      s' := s.(phase := if s.phase.next.Some? then Pick(s.phase.next.value) else Select, answered := s.answered + [s.phase.resp.req]);
      assert Deliver(s, s');
    } else if s.phase.Pick? {
      s' := Started(s, cap);
    } else if |s.uResp| > 0 {
      s' := s.(phase := Give(s.uResp[0], if s.phase == Select then None else Some(s.phase.req)),
          avail := s.avail + [s.uResp[0].who], uResp := s.uResp[1..]);
      assert Receive(s, s');
    } else {
      var i := Busy(s, cap, r);
      s' := UnitStep(s, cap, i);
    }
  }

  /** A response waits until a client receives it: nothing else moves the dispatcher on. */
  lemma GiveWaits(s: State, s': State, cap: int)
    requires s.phase.Give? && Next(s, s', cap)
    ensures Deliver(s, s') || s'.phase == s.phase
  {
  }

  lemma Started(s: State, cap: int) returns (s': State)
    requires Inv(s, cap) && s.phase.Pick?
    ensures Own(s, s', cap)
  {
    var g := Grown(s, cap);
    GrownInv(s, cap);
    s' := g.(phase := Select, us := g.us[g.avail[0] := Running(s.phase.req)],
        avail := g.avail[0 := g.avail[|g.avail| - 1]][..|g.avail| - 1]);
    assert Start(s, s', cap, 0);
  }

  lemma UnitStep(s: State, cap: int, i: int) returns (s': State)
    requires 0 <= i < |s.us| && !s.us[i].Idle? && |s.uResp| == 0
    ensures Own(s, s', cap)
  {
    if s.us[i].Running? {
      s' := s.(us := s.us[i := Done(s.us[i].req)]);
      assert Finish(s, s', i);
    } else {
      s' := s.(us := s.us[i := Idle], uResp := [Resp(i, s.us[i].req)]);
      assert Send(s, s', i);
    }
  }

  /** With the channel empty and the dispatcher at a receive, an open request means that
    some unit is at work. */
  lemma Busy(s: State, cap: int, r: Req) returns (i: int)
    requires Inv(s, cap) && Open(s, r) && s.uResp == [] && (s.phase == Select || s.phase.Await?)
    ensures 0 <= i < |s.us| && !s.us[i].Idle?
  {
    if s.phase.Await? {
      i := 0;
      assert !OnChannel(s.uResp, 0);
    } else {
      i := WorkingAt(s.us, r);
    }
  }

  lemma {:induction false} WorkingAt(us: seq<Activity>, r: Req) returns (i: int)
    requires r in Working(us)
    ensures 0 <= i < |us| && !us[i].Idle?
  {
    if us[|us| - 1].Idle? {
      i := WorkingAt(us[..|us| - 1], r);
    } else {
      i := |us| - 1;
    }
  }
}
