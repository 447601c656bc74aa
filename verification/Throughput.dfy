/**
 The throughput bound of one account: all its actions, planners and workers share one token
 bucket, and the planned counts of what they execute are bounded by what the bucket admits.  Module
 RowThroughput says when the rows they touch are.
 */
module Throughput {
  import opened Domain
  import opened Store
  import opened Protocol
  import opened Sums
  import opened TokenBucket

  // ----- Within one action: no execute commit without its own admission ------------------

  // The planned counts of the execute commits: what the gate was charged for them.
  function Executed(acc: seq<Accounting>): nat {
    if acc == [] then 0
    else Executed(acc[..|acc| - 1]) + (if acc[|acc| - 1].executed then acc[|acc| - 1].entityCount else 0)
  }

  // Admitted entities a job has not spent yet.
  function Credit(job: Job): nat {
    if job.pc == Admitted || job.pc == Attempted then job.entityCount else 0
  }

  function Credits(jobs: map<nat, Job>): map<nat, nat> {
    map j | j in jobs :: Credit(jobs[j])
  }

  ghost predicate Paid(s: State) {
    Executed(s.past.accountings) + Sum(Credits(s.jobs)) <= s.past.admitted
  }

  lemma CreditStep(jobs: map<nat, Job>, jobs': map<nat, Job>, j: nat)
    requires jobs' == jobs - {j} || (j in jobs' && jobs' == jobs[j := jobs'[j]])
    ensures Sum(Credits(jobs')) ==
            Sum(Credits(jobs)) - (if j in jobs then Credit(jobs[j]) else 0)
                + (if j in jobs' then Credit(jobs'[j]) else 0)
  {
    if j in jobs' {
      SumSet(Credits(jobs), j, Credit(jobs'[j]));
      assert Credits(jobs') == Credits(jobs)[j := Credit(jobs'[j])];
    } else {
      SumDrop(Credits(jobs), j);
      assert Credits(jobs') == Credits(jobs) - {j};
    }
  }

  function CreditAt(jobs: map<nat, Job>, j: nat): nat {
    if j in jobs then Credit(jobs[j]) else 0
  }

  lemma KeepsPaid(s: State, s': State, j: nat)
    requires Paid(s)
    requires s'.jobs == s.jobs - {j} || (j in s'.jobs && s'.jobs == s.jobs[j := s'.jobs[j]])
    requires Executed(s'.past.accountings) + CreditAt(s'.jobs, j) - s'.past.admitted
             <= Executed(s.past.accountings) + CreditAt(s.jobs, j) - s.past.admitted
    ensures Paid(s')
  {
    CreditStep(s.jobs, s'.jobs, j);
  }

  lemma DeliverPaid(s: State, j: nat, i: nat)
    requires Paid(s)
    ensures Paid(StepDeliver(s, j, i))
  {
    if j !in s.jobs && PassesPreflight(s.db, i) {
      KeepsPaid(s, StepDeliver(s, j, i), j);
    }
  }

  lemma GatePaid(s: State, j: nat, admitted: bool)
    requires Paid(s)
    ensures Paid(StepGate(s, j, admitted))
  {
    if At(s, j, AtGate) {
      KeepsPaid(s, StepGate(s, j, admitted), j);
    }
  }

  lemma AttemptPaid(s: State, j: nat)
    requires Paid(s)
    ensures Paid(StepAttempt(s, j))
  {
    if At(s, j, Admitted) {
      KeepsPaid(s, StepAttempt(s, j), j);
    }
  }

  // The admission is spent by the execute commit.
  lemma ExecutePaid(cfg: Config, s: State, j: nat, now: int)
    requires Paid(s) && Faithful(s)
    ensures Paid(StepExecute(cfg, s, j, now))
  {
    if At(s, j, Attempted) {
      var s' := StepExecute(cfg, s, j, now);
      if WouldExecute(s.db, s.jobs[j].index) {
        var acc, acc' := s.past.accountings, s'.past.accountings;
        assert acc'[..|acc'| - 1] == acc;
        assert acc'[|acc|].entityCount == s.jobs[j].entityCount;
      }
      KeepsPaid(s, s', j);
    }
  }

  lemma MarkFailedPaid(s: State, j: nat)
    requires Paid(s)
    ensures Paid(StepMarkFailed(s, j))
  {
    if At(s, j, AtMarkFailed) && s.jobs[j].index in s.db.batches {
      var s' := StepMarkFailed(s, j);
      assert s'.past.accountings[..|s'.past.accountings| - 1] == s.past.accountings;
      KeepsPaid(s, s', j);
    }
  }

  lemma ErrorPaid(s: State, j: nat, pc: Pc, lastTry: bool)
    requires Paid(s)
    ensures Paid(StepError(s, j, pc, lastTry))
  {
    if At(s, j, pc) {
      KeepsPaid(s, StepError(s, j, pc, lastTry), j);
    }
  }

  lemma FinalisePaid(s: State, j: nat)
    requires Paid(s)
    ensures Paid(StepFinalise(s, j)) && Paid(s.(jobs := s.jobs - {j}))
  {
    KeepsPaid(s, s.(jobs := s.jobs - {j}), j);
  }

  lemma StepKeepsPaid(cfg: Config, s: State, e: Event)
    requires cfg.batchSize >= 1 && Paid(s) && Faithful(s)
    ensures Paid(Step(cfg, s, e))
  {
    match e {
      case Deliver(j, i) => DeliverPaid(s, j, i);
      case Gate(j, admitted) => GatePaid(s, j, admitted);
      case Attempt(j) => AttemptPaid(s, j);
      case Execute(j, now) => ExecutePaid(cfg, s, j, now);
      case ExecuteError(j, lastTry) => ErrorPaid(s, j, Attempted, lastTry);
      case Finalise(j) => FinalisePaid(s, j);
      case FinaliseError(j, lastTry) => ErrorPaid(s, j, AtFinalise, lastTry);
      case MarkFailed(j) => MarkFailedPaid(s, j);
      case JobCrash(j) => FinalisePaid(s, j);
      case _ =>
    }
  }

  // ----- Every commit has its own admission ----------------------------------------------

  // Job j is past the gate and has not yet done its work.
  predicate InWork(s: State, j: nat, i: nat) {
    j in s.jobs && s.jobs[j].index == i && (s.jobs[j].pc == Admitted || s.jobs[j].pc == Attempted)
  }

  // Event g admitted job j, for batch i, and j has been in work ever since, up to event k.
  ghost predicate AdmittedAt(cfg: Config, s: State, es: seq<Event>, g: int, k: int, j: nat, i: nat)
    requires cfg.batchSize >= 1
  {
    && 0 <= g < k <= |es| && es[g] == Gate(j, true) && At(Run(cfg, s, es[..g]), j, AtGate)
    && forall m :: g < m <= k ==> InWork(Run(cfg, s, es[..m]), j, i)
  }

  lemma InWorkStep(cfg: Config, s: State, e: Event, j: nat, i: nat)
    requires cfg.batchSize >= 1 && InWork(Step(cfg, s, e), j, i)
    ensures InWork(s, j, i) || (e == Gate(j, true) && At(s, j, AtGate))
  {}

  lemma {:induction false} WorkIsAdmitted(cfg: Config, s: State, es: seq<Event>, k: nat, j: nat, i: nat)
    returns (g: nat)
    requires cfg.batchSize >= 1 && s.jobs == map[] && k <= |es| && InWork(Run(cfg, s, es[..k]), j, i)
    ensures AdmittedAt(cfg, s, es, g, k, j, i)
  {
    assert k > 0;
    var n := k - 1;
    assert es[..k][..n] == es[..n];
    InWorkStep(cfg, Run(cfg, s, es[..n]), es[n], j, i);
    if InWork(Run(cfg, s, es[..n]), j, i) {
      g := WorkIsAdmitted(cfg, s, es, n, j, i);
    } else {
      g := n;
    }
  }

  // Event k commits the work of batch i for job j.
  ghost predicate Commits(cfg: Config, s: State, es: seq<Event>, k: int, j: nat, i: nat)
    requires cfg.batchSize >= 1
  {
    0 <= k < |es| && Executes(Run(cfg, s, es[..k]), es[k]) && es[k].j == j && Run(cfg, s, es[..k]).jobs[j].index == i
  }

  /** Every execute commit follows a bucket admission of the same job for the same batch. */
  lemma EveryCommitIsAdmitted(cfg: Config, s: State, es: seq<Event>, k: nat, j: nat, i: nat) returns (g: nat)
    requires cfg.batchSize >= 1 && s.jobs == map[] && Commits(cfg, s, es, k, j, i)
    ensures AdmittedAt(cfg, s, es, g, k, j, i)
  {
    g := WorkIsAdmitted(cfg, s, es, k, j, i);
  }

  lemma CommitEndsWork(cfg: Config, s: State, e: Event, i: nat)
    requires cfg.batchSize >= 1 && Executes(s, e)
    ensures !InWork(Step(cfg, s, e), e.j, i)
  {}

  lemma NotBefore(cfg: Config, s: State, es: seq<Event>, g: int, k1: int, k2: int, j1: nat, i1: nat, j2: nat, i2: nat)
    requires cfg.batchSize >= 1 && Commits(cfg, s, es, k1, j1, i1)
    requires AdmittedAt(cfg, s, es, g, k1, j1, i1) && AdmittedAt(cfg, s, es, g, k2, j2, i2)
    ensures k2 <= k1
  {
    if k1 < k2 {
      assert j1 == j2;
      assert es[..k1 + 1][..k1] == es[..k1];
      CommitEndsWork(cfg, Run(cfg, s, es[..k1]), es[k1], i2);
    }
  }

  /** And no admission serves two commits. */
  lemma NoAdmissionServesTwice(cfg: Config, s: State, es: seq<Event>, g: int, k1: int, k2: int,
                               j1: nat, i1: nat, j2: nat, i2: nat)
    requires cfg.batchSize >= 1 && Commits(cfg, s, es, k1, j1, i1) && Commits(cfg, s, es, k2, j2, i2)
    requires AdmittedAt(cfg, s, es, g, k1, j1, i1) && AdmittedAt(cfg, s, es, g, k2, j2, i2)
    ensures k1 == k2
  {
    NotBefore(cfg, s, es, g, k1, k2, j1, i1, j2, i2);
    NotBefore(cfg, s, es, g, k2, k1, j2, i2, j1, i1);
  }

  // ----- The account ---------------------------------------------------------------------

  // `first` is the time of the first call that reached the bucket script, `clock` that of the last
  // bucket event since.
  datatype Account = Account(bucket: Stored, first: Option<int>, clock: int, actions: map<nat, State>)

  // The configuration of each action.
  ghost predicate Sized(cfgs: nat -> Config) {
    forall a :: cfgs(a).batchSize >= 1
  }

  datatype AccountEvent =
    | GateAt(action: nat, j: nat, now: int)
    | KeyExpires(now: int)
    | Other(action: nat, event: Event)

  // The bucket's side of a call or of an expiry.
  function Bucketed(limit: int, x: Account, e: BucketEvent): Account {
    var reached := e.Request? && 0 < e.call.amount <= limit;
    Account(React(limit, x.bucket, e),
            if x.first.None? && reached then Some(TimeOf(e)) else x.first,
            TimeOf(e),
            x.actions)
  }

  // A gate call that `consume` refuses with an exception kills the job before it does any work.
  ghost function GateTurned(cfg: Config, limit: int, x: Account, a: nat, j: nat, now: int): Account
    requires cfg.batchSize >= 1 && a in x.actions
  {
    var s := x.actions[a];
    if !At(s, j, AtGate) then x
    else
      var call := Call(now, s.jobs[j].entityCount);
      if call.amount > limit && call.amount > 0 then x.(actions := x.actions[a := Step(cfg, s, JobCrash(j))])
      else
        Bucketed(limit, x, Request(call)).(
          actions := x.actions[a := Step(cfg, s, Gate(j, Allows(limit, x.bucket, call)))])
  }

  ghost function Turn(cfgs: nat -> Config, limit: int, x: Account, e: AccountEvent): Account
    requires Sized(cfgs)
  {
    match e
    case KeyExpires(now) => Bucketed(limit, x, Expire(now))
    case Other(a, ev) =>
      if a !in x.actions || ev.Gate? then x
      else x.(actions := x.actions[a := Step(cfgs(a), x.actions[a], ev)])
    case GateAt(a, j, now) =>
      if a !in x.actions then x else GateTurned(cfgs(a), limit, x, a, j, now)
  }

  ghost function Turns(cfgs: nat -> Config, limit: int, x: Account, es: seq<AccountEvent>): Account
    requires Sized(cfgs)
  {
    if es == [] then x else Turn(cfgs, limit, Turns(cfgs, limit, x, es[..|es| - 1]), es[|es| - 1])
  }

  // ----- An account with one action ------------------------------------------------------

  ghost function Only(cfg: Config): nat -> Config {
    (a: nat) => cfg
  }

  function Others(es: seq<Event>): seq<AccountEvent> {
    seq(|es|, i requires 0 <= i < |es| => Other(0, es[i]))
  }

  // Events outside the gate are events of the action.
  lemma {:induction false} OthersRun(cfg: Config, limit: int, x: Account, es: seq<Event>)
    requires cfg.batchSize >= 1 && x.actions.Keys == {0} && forall k :: 0 <= k < |es| ==> !es[k].Gate?
    ensures Turns(Only(cfg), limit, x, Others(es)) == x.(actions := map[0 := Run(cfg, x.actions[0], es)])
  {
    if es == [] {
      assert x.actions == map[0 := x.actions[0]];
    } else {
      var n := |es| - 1;
      OthersRun(cfg, limit, x, es[..n]);
      assert Others(es)[..n] == Others(es[..n]);
      var s := Run(cfg, x.actions[0], es[..n]);
      assert map[0 := s][0 := Step(cfg, s, es[n])] == map[0 := Step(cfg, s, es[n])];
    }
  }

  lemma {:induction false} TurnsAppend(cfgs: nat -> Config, limit: int, x: Account, xs: seq<AccountEvent>,
                                       ys: seq<AccountEvent>)
    requires Sized(cfgs)
    ensures Turns(cfgs, limit, x, xs + ys) == Turns(cfgs, limit, Turns(cfgs, limit, x, xs), ys)
  {
    if ys == [] {
      assert xs + ys == xs;
    } else {
      var n := |ys| - 1;
      TurnsAppend(cfgs, limit, x, xs, ys[..n]);
      assert (xs + ys)[..|xs + ys| - 1] == xs + ys[..n];
    }
  }

  // ----- The bound -----------------------------------------------------------------------

  // No caller's clock, and no expiry, is behind the last bucket event.
  predicate OnTime(x: Account, e: AccountEvent) {
    !e.Other? && x.first.Some? ==> x.clock <= e.now
  }

  ghost predicate ClockMonotone(cfgs: nat -> Config, limit: int, x: Account, es: seq<AccountEvent>)
    requires Sized(cfgs)
  {
    forall k :: 0 <= k < |es| ==> OnTime(Turns(cfgs, limit, x, es[..k]), es[k])
  }

  function AdmittedBy(actions: map<nat, State>): map<nat, nat> {
    map a | a in actions :: actions[a].past.admitted
  }

  function ExecutedBy(actions: map<nat, State>): map<nat, nat> {
    map a | a in actions :: Executed(actions[a].past.accountings)
  }

  // After `total` admissions since the first call.
  predicate Bounded(limit: int, x: Account, total: nat) {
    WithinBudget(limit, x.bucket, x.first, x.clock, total)
  }

  predicate WithinBudget(limit: int, b: Stored, first: Option<int>, clock: int, total: nat) {
    && InRange(limit, b)
    && match first
       case None => total == 0
       case Some(t0) => Owed(limit, b, total, clock, Capacity(limit) + limit * (clock - t0))
  }

  ghost predicate AllPaid(actions: map<nat, State>) {
    forall a :: a in actions ==> Paid(actions[a]) && Faithful(actions[a])
  }

  ghost predicate AccountOk(limit: int, x: Account) {
    Bounded(limit, x, Sum(AdmittedBy(x.actions))) && AllPaid(x.actions)
  }

  lemma AdmittedStep(actions: map<nat, State>, a: nat, s': State)
    requires a in actions
    ensures Sum(AdmittedBy(actions[a := s'])) == Sum(AdmittedBy(actions)) - actions[a].past.admitted + s'.past.admitted
  {
    SumSet(AdmittedBy(actions), a, s'.past.admitted);
    assert AdmittedBy(actions[a := s']) == AdmittedBy(actions)[a := s'.past.admitted];
  }

  lemma OnlyGateAdmits(cfg: Config, s: State, e: Event)
    requires cfg.batchSize >= 1 && !e.Gate?
    ensures Step(cfg, s, e).past.admitted == s.past.admitted
  {}

  // Nobody had called the script yet, and this call may spend a full bucket.
  lemma FirstCallBound(limit: int, x: Account, c: Call)
    requires limit > 0 && Bounded(limit, x, 0) && x.first.None? && 0 < c.amount <= limit
    ensures Bounded(limit, Bucketed(limit, x, Request(c)), Taken(limit, x.bucket, c))
  {
    NextInRange(limit, x.bucket, c);
  }

  // What one bucket event does to tokens and to the running bound.
  lemma EventKeepsBound(limit: int, x: Account, total: nat, e: BucketEvent)
    requires limit > 0 && Bounded(limit, x, total) && (x.first.Some? ==> x.clock <= TimeOf(e))
    requires e.Request? ==> e.call.amount <= limit
    ensures Bounded(limit, Bucketed(limit, x, e), total + Gained(limit, x.bucket, e))
  {
    if e.Request? {
      NextInRange(limit, x.bucket, e.call);
    }
    if x.first.Some? {
      ReactOwes(limit, x.bucket, e, total, x.clock, Capacity(limit) + limit * (x.clock - x.first.value));
      Distributes(limit, x.clock - x.first.value, TimeOf(e) - x.clock);
    } else if e.Request? && e.call.amount > 0 {
      FirstCallBound(limit, x, e.call);
    }
  }

  lemma TurnKeepsOk(cfgs: nat -> Config, limit: int, x: Account, e: AccountEvent)
    requires Sized(cfgs) && limit > 0 && AccountOk(limit, x) && OnTime(x, e)
    ensures AccountOk(limit, Turn(cfgs, limit, x, e))
  {
    match e {
      case KeyExpires(now) =>
        EventKeepsBound(limit, x, Sum(AdmittedBy(x.actions)), Expire(now));
      case Other(a, ev) =>
        if a in x.actions && !ev.Gate? {
          PlainTurn(cfgs(a), limit, x, a, ev);
        }
      case GateAt(a, j, now) =>
        if a in x.actions {
          GateTurn(cfgs(a), limit, x, a, j, now);
        }
    }
  }

  lemma OneChanged(actions: map<nat, State>, a: nat, s': State)
    requires AllPaid(actions) && Paid(s') && Faithful(s')
    ensures AllPaid(actions[a := s'])
  {}

  lemma PlainTurn(cfg: Config, limit: int, x: Account, a: nat, ev: Event)
    requires cfg.batchSize >= 1 && AccountOk(limit, x) && a in x.actions && !ev.Gate?
    ensures AccountOk(limit, x.(actions := x.actions[a := Step(cfg, x.actions[a], ev)]))
  {
    var s, s' := x.actions[a], Step(cfg, x.actions[a], ev);
    assert Sum(AdmittedBy(x.actions[a := s'])) == Sum(AdmittedBy(x.actions)) by {
      OnlyGateAdmits(cfg, s, ev);
      AdmittedStep(x.actions, a, s');
    }
    assert AllPaid(x.actions[a := s']) by {
      StepKeepsPaid(cfg, s, ev);
      StepKeepsFaithful(cfg, s, ev);
      OneChanged(x.actions, a, s');
    }
    SameTotalOk(limit, x, x.actions[a := s']);
  }

  lemma SameTotalOk(limit: int, x: Account, actions: map<nat, State>)
    requires AccountOk(limit, x) && AllPaid(actions) && Sum(AdmittedBy(actions)) == Sum(AdmittedBy(x.actions))
    ensures AccountOk(limit, x.(actions := actions))
  {}

  lemma GateTurn(cfg: Config, limit: int, x: Account, a: nat, j: nat, now: int)
    requires cfg.batchSize >= 1 && limit > 0 && AccountOk(limit, x) && (x.first.Some? ==> x.clock <= now)
    requires a in x.actions
    ensures AccountOk(limit, GateTurned(cfg, limit, x, a, j, now))
  {
    if At(x.actions[a], j, AtGate) {
      if x.actions[a].jobs[j].entityCount > limit {
        PlainTurn(cfg, limit, x, a, JobCrash(j));
      } else {
        AskedTurn(cfg, limit, x, a, j, Call(now, x.actions[a].jobs[j].entityCount));
      }
    }
  }

  lemma AskedTurn(cfg: Config, limit: int, x: Account, a: nat, j: nat, c: Call)
    requires cfg.batchSize >= 1 && limit > 0 && AccountOk(limit, x) && (x.first.Some? ==> x.clock <= c.now)
    requires a in x.actions && At(x.actions[a], j, AtGate) && c.amount == x.actions[a].jobs[j].entityCount <= limit
    ensures var actions := x.actions[a := Step(cfg, x.actions[a], Gate(j, Allows(limit, x.bucket, c)))];
            AccountOk(limit, Bucketed(limit, x, Request(c)).(actions := actions))
  {
    var actions := x.actions[a := Step(cfg, x.actions[a], Gate(j, Allows(limit, x.bucket, c)))];
    assert AllPaid(actions) && Sum(AdmittedBy(actions)) == Sum(AdmittedBy(x.actions)) + Taken(limit, x.bucket, c) by {
      GateKeepsPaid(cfg, limit, x, a, j, c);
    }
    AskedOk(limit, x, actions, c);
  }

  lemma AskedOk(limit: int, x: Account, actions: map<nat, State>, c: Call)
    requires limit > 0 && AccountOk(limit, x) && AllPaid(actions) && c.amount <= limit
    requires Sum(AdmittedBy(actions)) == Sum(AdmittedBy(x.actions)) + Taken(limit, x.bucket, c)
    requires x.first.Some? ==> x.clock <= c.now
    ensures AccountOk(limit, Bucketed(limit, x, Request(c)).(actions := actions))
  {
    EventKeepsBound(limit, x, Sum(AdmittedBy(x.actions)), Request(c));
    AdmissionKeepsOk(limit, x, actions, c);
  }

  lemma GateKeepsPaid(cfg: Config, limit: int, x: Account, a: nat, j: nat, c: Call)
    requires cfg.batchSize >= 1 && AllPaid(x.actions) && a in x.actions
    requires At(x.actions[a], j, AtGate) && c.amount == x.actions[a].jobs[j].entityCount
    ensures var actions := x.actions[a := Step(cfg, x.actions[a], Gate(j, Allows(limit, x.bucket, c)))];
            AllPaid(actions) && Sum(AdmittedBy(actions)) == Sum(AdmittedBy(x.actions)) + Taken(limit, x.bucket, c)
  {
    var s, ev := x.actions[a], Gate(j, Allows(limit, x.bucket, c));
    var s' := Step(cfg, s, ev);
    assert AllPaid(x.actions[a := s']) by {
      StepKeepsPaid(cfg, s, ev);
      StepKeepsFaithful(cfg, s, ev);
      OneChanged(x.actions, a, s');
    }
    AdmittedStep(x.actions, a, s');
    GateAdmits(cfg, s, j, limit, x.bucket, c);
  }

  lemma AdmissionKeepsOk(limit: int, x: Account, actions: map<nat, State>, c: Call)
    requires AllPaid(actions) && Bounded(limit, Bucketed(limit, x, Request(c)), Sum(AdmittedBy(actions)))
    ensures AccountOk(limit, Bucketed(limit, x, Request(c)).(actions := actions))
  {}

  lemma GateAdmits(cfg: Config, s: State, j: nat, limit: int, b: Stored, c: Call)
    requires cfg.batchSize >= 1 && At(s, j, AtGate) && c.amount == s.jobs[j].entityCount
    ensures Step(cfg, s, Gate(j, Allows(limit, b, c))).past.admitted == s.past.admitted + Taken(limit, b, c)
  {}

  // An account whose actions have just been submitted, with whatever bucket it already has.
  predicate JustSubmitted(limit: int, x: Account) {
    InRange(limit, x.bucket) && x.first.None?
    && forall a :: a in x.actions ==>
         x.actions[a].jobs == map[] && x.actions[a].past.accountings == [] && x.actions[a].past.admitted == 0
  }

  lemma {:induction false} AllZero(m: map<nat, nat>)
    requires forall k :: k in m ==> m[k] == 0
    ensures Sum(m) == 0
    decreases |m|
  {
    if m.Keys != {} {
      var k := Pick(m.Keys);
      RemoveShrinks(m, k);
      SumRemove(m, k);
      AllZero(m - {k});
    }
  }

  lemma StartsOk(limit: int, x: Account)
    requires limit > 0 && JustSubmitted(limit, x)
    ensures AccountOk(limit, x)
  {
    AllZero(AdmittedBy(x.actions));
    forall a | a in x.actions ensures Paid(x.actions[a]) && Faithful(x.actions[a]) {
      assert Credits(x.actions[a].jobs).Keys == {};
    }
  }

  lemma {:induction false} AlwaysAccountOk(cfgs: nat -> Config, limit: int, x: Account, es: seq<AccountEvent>)
    requires Sized(cfgs) && limit > 0 && JustSubmitted(limit, x) && ClockMonotone(cfgs, limit, x, es)
    ensures AccountOk(limit, Turns(cfgs, limit, x, es))
  {
    if es == [] {
      StartsOk(limit, x);
    } else {
      var n := |es| - 1;
      forall k | 0 <= k < n ensures OnTime(Turns(cfgs, limit, x, es[..n][..k]), es[..n][k]) {
        assert es[..n][..k] == es[..k];
      }
      AlwaysAccountOk(cfgs, limit, x, es[..n]);
      TurnKeepsOk(cfgs, limit, Turns(cfgs, limit, x, es[..n]), es[n]);
    }
  }

  // n entities in d milliseconds: n <= limit + limit * d / 60000.
  predicate WithinRate(limit: int, n: nat, d: int) {
    UNIT * n <= UNIT * limit + limit * d
  }

  /** Across all actions and workers of an account, over every run: the planned entity counts of all
      execute commits by time t add up to at most limit + limit * (t - t0) / 60000, t0 being the time
      of the account's first bucket call.  The key may expire any number of times in between. */
  lemma ThroughputBound(cfgs: nat -> Config, limit: int, x: Account, es: seq<AccountEvent>, y: Account, t: int)
    requires Sized(cfgs) && limit > 0 && JustSubmitted(limit, x) && ClockMonotone(cfgs, limit, x, es)
    requires y == Turns(cfgs, limit, x, es) && y.first.Some? && y.clock <= t
    ensures WithinRate(limit, Sum(ExecutedBy(y.actions)), t - y.first.value)
  {
    AlwaysAccountOk(cfgs, limit, x, es);
    OkIsWithinRate(limit, y, t);
  }

  lemma OkIsWithinRate(limit: int, y: Account, t: int)
    requires limit > 0 && AccountOk(limit, y) && y.first.Some? && y.clock <= t
    ensures WithinRate(limit, Sum(ExecutedBy(y.actions)), t - y.first.value)
  {
    ExecutedWithinAdmitted(y.actions);
    BoundArithmetic(limit, y, Sum(AdmittedBy(y.actions)), Sum(ExecutedBy(y.actions)), t);
  }

  lemma ExecutedWithinAdmitted(actions: map<nat, State>)
    requires AllPaid(actions)
    ensures Sum(ExecutedBy(actions)) <= Sum(AdmittedBy(actions))
  {
    forall a | a in actions ensures ExecutedBy(actions)[a] <= AdmittedBy(actions)[a] {
      assert Paid(actions[a]);
    }
    SumBounded(ExecutedBy(actions), AdmittedBy(actions));
  }

  lemma BoundArithmetic(limit: int, y: Account, admitted: nat, executed: nat, t: int)
    requires limit > 0 && Bounded(limit, y, admitted) && executed <= admitted && y.first.Some? && y.clock <= t
    ensures WithinRate(limit, executed, t - y.first.value)
  {
    Distributes(limit, y.clock - y.first.value, t - y.clock);
    Grows(limit, 0, t - y.clock);
    Grows(limit, 0, Lag(y.bucket, y.clock));
  }

  /** Before the first bucket call nothing has been executed. */
  lemma NothingBeforeFirstCall(cfgs: nat -> Config, limit: int, x: Account, es: seq<AccountEvent>, y: Account)
    requires Sized(cfgs) && limit > 0 && JustSubmitted(limit, x) && ClockMonotone(cfgs, limit, x, es)
    requires y == Turns(cfgs, limit, x, es) && y.first.None?
    ensures Sum(ExecutedBy(y.actions)) == 0
  {
    AlwaysAccountOk(cfgs, limit, x, es);
    ExecutedWithinAdmitted(y.actions);
  }
}
