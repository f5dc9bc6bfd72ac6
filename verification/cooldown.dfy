/** The per-token cooldown of internal/github.go under overlapping requests.

    A denial arms an instant; the promise is that nothing is sent with that token before it.
    The source checks the cooldown only at the gate and a denial overwrites what an earlier
    one armed, so requests that overlap can break the promise.  `Clean` says exactly when. */
module Cooldown {
  import opened Base
  import opened GitHubCache

  // ---- the promise ----

  predicate Covered(a: Armed, c: Client, from: int, net: Net) {
    a.until <= from || (net.hash(a.token) in c.cooldowns && a.until <= c.cooldowns[net.hash(a.token)])
  }

  /** Every instant ever armed has passed or is still covered by its token's cooldown. */
  ghost predicate Honoured(c: Client, clock: int, armed: seq<Armed>, net: Net) {
    forall a :: a in armed ==> Covered(a, c, clock, net)
  }

  /** Let through by the gate and not sent yet. */
  predicate Outstanding(f: Flight) { f.stage.Admitted? || f.stage.Waiting? }

  predicate PastGate(f: Flight) { !f.stage.Begun? }

  ghost predicate Due(token: string, s: Sys) {
    forall a :: a in s.armed && a.token == token ==> a.until <= s.clock
  }

  /** No armed instant is forgotten, and none that lies ahead has a request outstanding. */
  ghost predicate Promise(s: Sys, net: Net) {
    && Honoured(s.c, s.clock, s.armed, net)
    && forall id :: id in s.flights && Outstanding(s.flights[id]) ==> Due(s.flights[id].res.token, s)
  }

  /** The bookkeeping every run keeps: requests began in the past with tokens in use, and a
      running cooldown was armed by a denial of that very token. */
  ghost predicate Books(s: Sys, net: Net) {
    && (forall id :: id in s.flights ==> s.flights[id].start <= s.clock && s.flights[id].res.token in net.tokens)
    && (forall a :: a in s.armed ==> a.token in net.tokens)
    && (forall t :: t in net.tokens && net.hash(t) in s.c.cooldowns ==> Armed(t, s.c.cooldowns[net.hash(t)]) in s.armed)
  }

  // ---- which steps keep it ----

  predicate CutsShort(c: Client, clock: int, h: string, until: int) {
    h in c.cooldowns && clock < c.cooldowns[h] && until < c.cooldowns[h]
  }

  /** Another request with the token is outstanding while the armed instant lies ahead. */
  ghost predicate Overtakes(s: Sys, id: Id, token: string, until: int) {
    s.clock < until && exists j :: j in s.flights && j != id && s.flights[j].res.token == token && Outstanding(s.flights[j])
  }

  /** The instant a step arms, if it arms one. */
  function Arms(s: Sys, e: Event): Option<int> {
    if e.Finish? && e.id in s.flights && s.flights[e.id].stage.Answered? && s.flights[e.id].stage.answer.Denied? then
      ParseCooldown(s.flights[e.id].start, s.flights[e.id].stage.answer.status, s.flights[e.id].stage.answer.headers)
    else None
  }

  /** A step that arms cuts no running cooldown short and leaves no request outstanding. */
  ghost predicate Clean(s: Sys, e: Event, net: Net) {
    Arms(s, e).Some? ==>
      var token, until := s.flights[e.id].res.token, Arms(s, e).value;
      !CutsShort(s.c, s.clock, net.hash(token), until) && !Overtakes(s, e.id, token, until)
  }

  /** What arming does to the cooldown map alone. */
  lemma ArmHonoursIff(s: Sys, net: Net, token: string, until: int)
    requires NetOk(net) && Books(s, net) && Honoured(s.c, s.clock, s.armed, net) && token in net.tokens
    ensures Honoured(Arm(s.c, net.hash(token), until), s.clock, s.armed + [Armed(token, until)], net) <==>
            !CutsShort(s.c, s.clock, net.hash(token), until)
  {
    var h := net.hash(token);
    var c', armed' := Arm(s.c, h, until), s.armed + [Armed(token, until)];
    if CutsShort(s.c, s.clock, h, until) {
      var a := Armed(token, s.c.cooldowns[h]);
      assert a in armed' && !Covered(a, c', s.clock, net);
    } else {
      forall a | a in armed' ensures Covered(a, c', s.clock, net) {
        if a in s.armed {
          assert Covered(a, s.c, s.clock, net);
          assert a.token != token ==> net.hash(a.token) != h;
        }
      }
    }
  }

  lemma ArmingKeepsIff(s: Sys, id: Id, net: Net)
    requires NetOk(net) && Books(s, net) && Promise(s, net) && Possible(s, Finish(id), net) && Arms(s, Finish(id)).Some?
    ensures Promise(Next(s, Finish(id), net), net) <==> Clean(s, Finish(id), net)
  {
    var token, until := s.flights[id].res.token, Arms(s, Finish(id)).value;
    var s' := Next(s, Finish(id), net);
    assert s'.flights == s.flights - {id} && s'.clock == s.clock && s'.armed == s.armed + [Armed(token, until)];
    ArmHonoursIff(s, net, token, until);
    assert Armed(token, until) in s'.armed;
    if Overtakes(s, id, token, until) {
      var j :| j in s.flights && j != id && s.flights[j].res.token == token && Outstanding(s.flights[j]);
      assert j in s'.flights && !Due(token, s');
    } else {
      forall j | j in s'.flights && Outstanding(s'.flights[j]) ensures Due(s'.flights[j].res.token, s') {
        assert Due(s.flights[j].res.token, s);
      }
    }
  }

  lemma GateKeeps(s: Sys, id: Id, net: Net)
    requires NetOk(net) && Books(s, net) && Promise(s, net) && Possible(s, PassGate(id), net)
    ensures Promise(Next(s, PassGate(id), net), net)
  {
    var f, s' := s.flights[id], Next(s, PassGate(id), net);
    var h := net.hash(f.res.token);
    if Gate(s.c, h, f.start).1 {
      forall a | a in s.armed ensures Covered(a, s'.c, s.clock, net) {
        assert Covered(a, s.c, s.clock, net);
        assert a.token != f.res.token ==> net.hash(a.token) != h;
      }
      forall a | a in s.armed && a.token == f.res.token ensures a.until <= s.clock {
        assert Covered(a, s.c, s.clock, net);
      }
      forall j | j in s'.flights && Outstanding(s'.flights[j]) ensures Due(s'.flights[j].res.token, s') {
        assert j != id ==> Due(s.flights[j].res.token, s);
      }
    }
  }

  /** Every step that arms nothing keeps the promise; one that arms keeps it exactly when it is clean. */
  lemma StepKeepsPromiseIff(s: Sys, e: Event, net: Net)
    requires NetOk(net) && Books(s, net) && Promise(s, net) && Possible(s, e, net)
    ensures Promise(Next(s, e, net), net) <==> Clean(s, e, net)
  {
    if Arms(s, e).Some? {
      ArmingKeepsIff(s, e.id, net);
    } else if e.PassGate? {
      GateKeeps(s, e.id, net);
    } else if e.Begin? {
      BeginKeeps(s, e, net);
    } else {
      QuietSteps(s, e, net);
      QuietKeeps(s, Next(s, e, net), net);
    }
  }

  /** What a step that arms nothing leaves alone. */
  ghost predicate Quiet(s: Sys, s': Sys) {
    && s'.armed == s.armed && s'.clock >= s.clock && s'.c.cooldowns == s.c.cooldowns
    && forall j :: j in s'.flights ==>
         && j in s.flights && s'.flights[j].res == s.flights[j].res && s'.flights[j].start == s.flights[j].start
         && (PastGate(s'.flights[j]) ==> PastGate(s.flights[j]))
         && (Outstanding(s'.flights[j]) ==> Outstanding(s.flights[j]))
  }

  lemma QuietSteps(s: Sys, e: Event, net: Net)
    requires Possible(s, e, net) && Arms(s, e).None? && !e.PassGate? && !e.Begin?
    ensures Quiet(s, Next(s, e, net))
  {
  }

  lemma QuietKeeps(s: Sys, s': Sys, net: Net)
    requires Promise(s, net) && Quiet(s, s')
    ensures Promise(s', net)
  {
    forall a | a in s'.armed ensures Covered(a, s'.c, s'.clock, net) {
      assert Covered(a, s.c, s.clock, net);
    }
    forall j | j in s'.flights && Outstanding(s'.flights[j]) ensures Due(s'.flights[j].res.token, s') {
      assert Due(s.flights[j].res.token, s);
    }
  }

  lemma BeginKeeps(s: Sys, e: Event, net: Net)
    requires Promise(s, net) && Possible(s, e, net) && e.Begin?
    ensures Promise(Next(s, e, net), net)
  {
    var s' := Next(s, e, net);
    forall j | j in s'.flights && Outstanding(s'.flights[j]) ensures Due(s'.flights[j].res.token, s') {
      assert j in s.flights && Due(s.flights[j].res.token, s);
    }
  }

  /** One more armed instant, and the cooldown of its token with it. */
  lemma ArmingKeepsBooks(s: Sys, s': Sys, net: Net, token: string, until: int)
    requires NetOk(net) && Books(s, net) && token in net.tokens
    requires s'.c.cooldowns == s.c.cooldowns[net.hash(token) := until] && s'.armed == s.armed + [Armed(token, until)]
    requires s'.clock == s.clock && forall j :: j in s'.flights ==> j in s.flights && s'.flights[j] == s.flights[j]
    ensures Books(s', net)
  {
    assert Armed(token, until) in s'.armed;
    forall t | t in net.tokens && net.hash(t) in s'.c.cooldowns
      ensures Armed(t, s'.c.cooldowns[net.hash(t)]) in s'.armed
    {
      assert t != token ==> net.hash(t) != net.hash(token) && Armed(t, s.c.cooldowns[net.hash(t)]) in s.armed;
    }
  }

  lemma QuietKeepsBooks(s: Sys, s': Sys, net: Net)
    requires Books(s, net) && s'.armed == s.armed && s'.clock >= s.clock
    requires forall h :: h in s'.c.cooldowns ==> h in s.c.cooldowns && s'.c.cooldowns[h] == s.c.cooldowns[h]
    requires forall j :: j in s'.flights ==> s'.flights[j].res.token in net.tokens && s'.flights[j].start <= s'.clock
    ensures Books(s', net)
  {
  }

  lemma StepKeepsBooks(s: Sys, e: Event, net: Net)
    requires NetOk(net) && Books(s, net) && Possible(s, e, net)
    ensures Books(Next(s, e, net), net)
  {
    if Arms(s, e).Some? {
      ArmingKeepsBooks(s, Next(s, e, net), net, s.flights[e.id].res.token, Arms(s, e).value);
    } else {
      if !e.PassGate? && !e.Begin? {
        QuietSteps(s, e, net);
      }
      QuietKeepsBooks(s, Next(s, e, net), net);
    }
  }

  // ---- runs ----

  ghost predicate Played(run: seq<Sys>, es: seq<Event>, net: Net) {
    && |run| == |es| + 1 && run[0] == IDLE.(clock := run[0].clock)
    && forall i :: 0 <= i < |es| ==> Possible(run[i], es[i], net) && run[i + 1] == Next(run[i], es[i], net)
  }

  lemma {:induction false} RunKeepsBooks(run: seq<Sys>, es: seq<Event>, net: Net, k: nat)
    requires NetOk(net) && Played(run, es, net) && k < |run|
    ensures Books(run[k], net)
  {
    if k > 0 {
      RunKeepsBooks(run, es, net, k - 1);
      assert Possible(run[k - 1], es[k - 1], net) && run[k - 1 + 1] == Next(run[k - 1], es[k - 1], net);
      StepKeepsBooks(run[k - 1], es[k - 1], net);
    }
  }

  lemma {:induction false} CleanPrefixKeeps(run: seq<Sys>, es: seq<Event>, net: Net, k: nat)
    requires NetOk(net) && Played(run, es, net) && k < |run|
    requires forall i :: 0 <= i < k ==> Clean(run[i], es[i], net)
    ensures Promise(run[k], net)
  {
    if k > 0 {
      CleanPrefixKeeps(run, es, net, k - 1);
      RunKeepsBooks(run, es, net, k - 1);
      assert Possible(run[k - 1], es[k - 1], net) && run[k - 1 + 1] == Next(run[k - 1], es[k - 1], net);
      StepKeepsPromiseIff(run[k - 1], es[k - 1], net);
    }
  }

  /** A run keeps the promise in all its states if and only if all its steps are clean. */
  lemma RunKeepsPromiseIff(run: seq<Sys>, es: seq<Event>, net: Net)
    requires NetOk(net) && Played(run, es, net)
    ensures (forall k :: 0 <= k < |run| ==> Promise(run[k], net)) <==>
            (forall i :: 0 <= i < |es| ==> Clean(run[i], es[i], net))
  {
    if forall i :: 0 <= i < |es| ==> Clean(run[i], es[i], net) {
      forall k | 0 <= k < |run| ensures Promise(run[k], net) {
        CleanPrefixKeeps(run, es, net, k);
      }
    }
    if forall k :: 0 <= k < |run| ==> Promise(run[k], net) {
      forall i | 0 <= i < |es| ensures Clean(run[i], es[i], net) {
        assert Promise(run[i], net) && Promise(run[i + 1], net);
        assert Possible(run[i], es[i], net) && run[i + 1] == Next(run[i], es[i], net);
        RunKeepsBooks(run, es, net, i);
        StepKeepsPromiseIff(run[i], es[i], net);
      }
    }
  }

  /** The step sends a request before an instant armed for its token. */
  ghost predicate SendsEarly(s: Sys, e: Event) {
    e.Exchange? && e.id in s.flights && !Due(s.flights[e.id].res.token, s)
  }

  /** While a run is clean, nothing is sent with a token before the latest instant armed for it. */
  lemma CleanRunsSendOnTime(run: seq<Sys>, es: seq<Event>, net: Net, k: nat)
    requires NetOk(net) && Played(run, es, net) && k < |es|
    requires forall i :: 0 <= i < k ==> Clean(run[i], es[i], net)
    ensures !SendsEarly(run[k], es[k])
  {
    CleanPrefixKeeps(run, es, net, k);
    assert Possible(run[k], es[k], net);
  }

  // ---- an unclean step can always be followed by an early send ----

  /** Its look-up, were it the next step, would miss the cache. */
  predicate WillBeSent(s: Sys, f: Flight, net: Net) {
    || f.stage.Waiting?
    || (f.stage.Admitted? &&
        (f.get ==> var cached := Cached(s.c, Key(net, f.res));
                   cached.None? || cached.value >= |s.c.heap| || f.start >= s.c.heap[cached.value].notBefore))
  }

  /** A cooldown that was cut short: a fresh request waits for the shorter instant and is sent. */
  lemma CutShortSendsEarly(s: Sys, net: Net, token: string, lost: Armed, id: Id) returns (t: Sys)
    requires token in net.tokens && id !in s.flights && lost in s.armed && lost.token == token
    requires net.hash(token) in s.c.cooldowns && s.clock < lost.until && s.c.cooldowns[net.hash(token)] < lost.until
    ensures Reaches(s, t, net) && Possible(t, Exchange(id, Other(500)), net) && SendsEarly(t, Exchange(id, Other(500)))
  {
    var h, r := net.hash(token), Resource("", token);
    var d := if s.clock < s.c.cooldowns[h] then s.c.cooldowns[h] - s.clock else 0;
    var later := s.(clock := s.clock + d);
    Start(s, net);
    Onward(s, s, Wait(d), later, net);
    var f := Flight(false, r, later.clock, Begun);
    var begun := later.(flights := s.flights[id := f]);
    Onward(s, later, Begin(id, false, r), begun, net);
    var admitted := Next(begun, PassGate(id), net);
    Onward(s, begun, PassGate(id), admitted, net);
    assert admitted.flights[id] == f.(stage := Admitted);
    t := LookedUp(admitted, id, net);
    Onward(s, admitted, LookUp(id), t, net);
    assert lost in t.armed;
  }

  lemma OutstandingSendsEarly(s: Sys, net: Net, j: Id) returns (t: Sys)
    requires j in s.flights && WillBeSent(s, s.flights[j], net) && !Due(s.flights[j].res.token, s)
    ensures Reaches(s, t, net) && Possible(t, Exchange(j, Other(500)), net) && SendsEarly(t, Exchange(j, Other(500)))
  {
    Start(s, net);
    t := s;
    if s.flights[j].stage.Admitted? {
      t := LookedUp(s, j, net);
      Onward(s, s, LookUp(j), t, net);
      var a :| a in s.armed && a.token == s.flights[j].res.token && s.clock < a.until;
      assert a in t.armed;
    }
  }

  /** From a promise kept, a step that arms uncleanly leads, without any further denial, to an
      early send; a request outstanding in its gate counts unless the cache is about to answer it. */
  lemma UncleanSendsEarly(s: Sys, e: Event, net: Net, id: Id) returns (t: Sys, j: Id)
    requires NetOk(net) && Books(s, net) && Possible(s, e, net) && id !in s.flights && Arms(s, e).Some?
    requires var token, until := s.flights[e.id].res.token, Arms(s, e).value;
      || CutsShort(s.c, s.clock, net.hash(token), until)
      || (s.clock < until && exists i :: i in s.flights && i != e.id && s.flights[i].res.token == token
                                         && WillBeSent(s, s.flights[i], net))
    ensures Reaches(Next(s, e, net), t, net)
    ensures Possible(t, Exchange(j, Other(500)), net) && SendsEarly(t, Exchange(j, Other(500)))
  {
    var token, until := s.flights[e.id].res.token, Arms(s, e).value;
    var h, s' := net.hash(token), Next(s, e, net);
    assert s'.armed == s.armed + [Armed(token, until)] && s'.c == Arm(s.c, h, until);
    if CutsShort(s.c, s.clock, h, until) {
      var lost := Armed(token, s.c.cooldowns[h]);
      assert lost in s.armed;
      j := id;
      t := CutShortSendsEarly(s', net, token, lost, id);
    } else {
      j :| j in s.flights && j != e.id && s.flights[j].res.token == token && WillBeSent(s, s.flights[j], net);
      assert Armed(token, until) in s'.armed;
      t := OutstandingSendsEarly(s', net, j);
    }
  }

  // ---- refusals ----

  /** In any run a refusal is the token's own: its request began before an instant armed by a
      denial of that very token.  No other token's denial ever holds a request back. */
  lemma RefusalsAreOwn(run: seq<Sys>, es: seq<Event>, net: Net, k: nat, id: Id)
    requires NetOk(net) && Played(run, es, net) && k < |run|
    requires id in run[k].flights && run[k].flights[id].stage.Begun?
    ensures var f := run[k].flights[id];
      !Gate(run[k].c, net.hash(f.res.token), f.start).1 ==>
        exists a :: a in run[k].armed && a.token == f.res.token && f.start < a.until
  {
    RunKeepsBooks(run, es, net, k);
    var f := run[k].flights[id];
    var h := net.hash(f.res.token);
    if h in run[k].c.cooldowns && f.start < run[k].c.cooldowns[h] {
      assert Armed(f.res.token, run[k].c.cooldowns[h]) in run[k].armed;
    }
  }

  /** And while a run is clean, a request with an instant of its token ahead is refused. */
  lemma CleanRunsRefuse(run: seq<Sys>, es: seq<Event>, net: Net, k: nat, id: Id, a: Armed)
    requires NetOk(net) && Played(run, es, net) && k < |run|
    requires forall i :: 0 <= i < k ==> Clean(run[i], es[i], net)
    requires id in run[k].flights && run[k].flights[id].stage.Begun?
    requires a in run[k].armed && a.token == run[k].flights[id].res.token && run[k].clock < a.until
    ensures !Gate(run[k].c, net.hash(a.token), run[k].flights[id].start).1
  {
    CleanPrefixKeeps(run, es, net, k);
    RunKeepsBooks(run, es, net, k);
    assert Covered(a, run[k].c, run[k].clock, net);
  }

  // ---- one request at a time per token ----

  /** No token has two requests in flight. */
  ghost predicate Serial(s: Sys) {
    forall i, j :: i in s.flights && j in s.flights && i != j ==> s.flights[i].res.token != s.flights[j].res.token
  }

  /** Measured at the time a request read on entry, which is what the gate compares. */
  ghost predicate BeganAfter(f: Flight, s: Sys, net: Net) {
    forall a :: a in s.armed && a.token == f.res.token ==>
      if PastGate(f) then a.until <= f.start else Covered(a, s.c, f.start, net)
  }

  ghost predicate SerialInv(s: Sys, net: Net) {
    && Books(s, net) && Honoured(s.c, s.clock, s.armed, net)
    && forall id :: id in s.flights ==> BeganAfter(s.flights[id], s, net)
  }

  lemma SameCooldowns(s: Sys, s': Sys, net: Net)
    requires SerialInv(s, net) && Books(s', net) && Quiet(s, s')
    ensures SerialInv(s', net)
  {
    forall a | a in s'.armed ensures Covered(a, s'.c, s'.clock, net) {
      assert Covered(a, s.c, s.clock, net);
    }
    forall id | id in s'.flights ensures BeganAfter(s'.flights[id], s', net) {
      assert BeganAfter(s.flights[id], s, net);
    }
  }

  lemma SerialGate(s: Sys, id: Id, net: Net)
    requires NetOk(net) && Serial(s) && SerialInv(s, net) && Possible(s, PassGate(id), net)
    ensures SerialInv(Next(s, PassGate(id), net), net)
  {
    var f, s' := s.flights[id], Next(s, PassGate(id), net);
    StepKeepsBooks(s, PassGate(id), net);
    assert BeganAfter(f, s, net);
    if Gate(s.c, net.hash(f.res.token), f.start).1 {
      forall a | a in s.armed ensures Covered(a, s'.c, s.clock, net) {
        assert Covered(a, s.c, s.clock, net);
        assert a.token != f.res.token ==> net.hash(a.token) != net.hash(f.res.token);
      }
      forall j | j in s'.flights ensures BeganAfter(s'.flights[j], s', net) {
        assert BeganAfter(s.flights[j], s, net);
        assert j != id ==> net.hash(s.flights[j].res.token) != net.hash(f.res.token);
      }
    } else {
      SameCooldowns(s, s', net);
    }
  }

  /** One request at a time per token makes every step that arms clean. */
  lemma SerialIsClean(s: Sys, e: Event, net: Net)
    requires NetOk(net) && Serial(s) && SerialInv(s, net) && Possible(s, e, net)
    ensures Clean(s, e, net)
  {
    if Arms(s, e).Some? {
      var f := s.flights[e.id];
      assert BeganAfter(f, s, net);
      if net.hash(f.res.token) in s.c.cooldowns {
        assert Armed(f.res.token, s.c.cooldowns[net.hash(f.res.token)]) in s.armed;
      }
    }
  }

  lemma SerialArming(s: Sys, e: Event, net: Net)
    requires NetOk(net) && Serial(s) && SerialInv(s, net) && Possible(s, e, net) && Arms(s, e).Some?
    ensures SerialInv(Next(s, e, net), net)
  {
    var f, s' := s.flights[e.id], Next(s, e, net);
    StepKeepsBooks(s, e, net);
    SerialIsClean(s, e, net);
    ArmHonoursIff(s, net, f.res.token, Arms(s, e).value);
    assert s'.armed == s.armed + [Armed(f.res.token, Arms(s, e).value)];
    forall j | j in s'.flights ensures BeganAfter(s'.flights[j], s', net) {
      assert BeganAfter(s.flights[j], s, net) && s.flights[j].res.token != f.res.token;
      assert net.hash(s.flights[j].res.token) != net.hash(f.res.token);
    }
  }

  lemma SerialBegin(s: Sys, e: Event, net: Net)
    requires NetOk(net) && SerialInv(s, net) && Possible(s, e, net) && e.Begin?
    ensures SerialInv(Next(s, e, net), net)
  {
    var s' := Next(s, e, net);
    StepKeepsBooks(s, e, net);
    forall j | j in s'.flights ensures BeganAfter(s'.flights[j], s', net) {
      assert j != e.id ==> BeganAfter(s.flights[j], s, net);
      forall a | a in s.armed ensures Covered(a, s.c, s.clock, net) {
      }
    }
  }

  lemma SerialStep(s: Sys, e: Event, net: Net)
    requires NetOk(net) && Serial(s) && SerialInv(s, net) && Possible(s, e, net)
    ensures SerialInv(Next(s, e, net), net)
  {
    if Arms(s, e).Some? {
      SerialArming(s, e, net);
    } else if e.PassGate? {
      SerialGate(s, e.id, net);
    } else if e.Begin? {
      SerialBegin(s, e, net);
    } else {
      QuietSteps(s, e, net);
      StepKeepsBooks(s, e, net);
      SameCooldowns(s, Next(s, e, net), net);
    }
  }

  lemma {:induction false} SerialRuns(run: seq<Sys>, es: seq<Event>, net: Net, k: nat)
    requires NetOk(net) && Played(run, es, net) && k < |run| && forall i :: 0 <= i < |run| ==> Serial(run[i])
    ensures SerialInv(run[k], net)
    ensures forall i :: 0 <= i < k ==> Clean(run[i], es[i], net)
  {
    if k > 0 {
      SerialRuns(run, es, net, k - 1);
      assert Possible(run[k - 1], es[k - 1], net) && run[k - 1 + 1] == Next(run[k - 1], es[k - 1], net);
      SerialStep(run[k - 1], es[k - 1], net);
      SerialIsClean(run[k - 1], es[k - 1], net);
    }
  }

  /** With one request at a time per token every run is clean, and whatever is sent with a token
      even began no earlier than the latest instant a 403 or 429 armed for it. */
  lemma NothingSentWhileCooling(run: seq<Sys>, es: seq<Event>, net: Net, k: nat, id: Id, a: Armed)
    requires NetOk(net) && Played(run, es, net) && k < |run| && forall i :: 0 <= i < |run| ==> Serial(run[i])
    requires id in run[k].flights && run[k].flights[id].stage.Waiting?
    requires a in run[k].armed && a.token == run[k].flights[id].res.token
    ensures a.until <= run[k].flights[id].start <= run[k].clock
    ensures forall i :: 0 <= i < k ==> Clean(run[i], es[i], net)
  {
    SerialRuns(run, es, net, k);
    assert BeganAfter(run[k].flights[id], run[k], net);
  }

  // ---- two overlapping runs ----

  const PLAIN := Headers(None, None, "", None, false)
  const SLOW := Headers(None, Some(100), "", None, false)

  /** Two POSTs with one token at time 0. */
  function Overlap(r: Resource, a: Stage, b: Stage): Sys {
    Sys(Client([], map[], [], map[]), 0,
        map[Id(1) := Flight(false, r, 0, a), Id(2) := Flight(false, r, 0, b)], [], [], [])
  }

  lemma OverlapBegins(r: Resource, net: Net)
    requires r.token in net.tokens
    ensures Reaches(IDLE, Overlap(r, Admitted, Admitted), net)
  {
    assert IDLE.c.cooldowns - {net.hash(r.token)} == map[];
    Start(IDLE, net);
    var s1 := Next(IDLE, Begin(Id(1), false, r), net);
    Onward(IDLE, IDLE, Begin(Id(1), false, r), s1, net);
    Onward(IDLE, s1, Begin(Id(2), false, r), Overlap(r, Begun, Begun), net);
    Onward(IDLE, Overlap(r, Begun, Begun), PassGate(Id(1)), Overlap(r, Admitted, Begun), net);
    Onward(IDLE, Overlap(r, Admitted, Begun), PassGate(Id(2)), Overlap(r, Admitted, Admitted), net);
  }

  /** The first POST is denied for 100 seconds while the second is in `b`. */
  function FirstDenied(r: Resource, h: string, b: Stage, clock: int): Sys {
    Sys(Client([], map[], [], map[h := 100]), clock, map[Id(2) := Flight(false, r, 0, b)], [], [], [Armed(r.token, 100)])
  }

  lemma FirstIsDenied(r: Resource, net: Net)
    requires r.token in net.tokens
    ensures Reaches(IDLE, FirstDenied(r, net.hash(r.token), Admitted, 0), net)
  {
    var x := Answered(None, 0, Denied(429, SLOW));
    OverlapBegins(r, net);
    Onward(IDLE, Overlap(r, Admitted, Admitted), LookUp(Id(1)), Overlap(r, Waiting(None), Admitted), net);
    Onward(IDLE, Overlap(r, Waiting(None), Admitted), Exchange(Id(1), Denied(429, SLOW)), Overlap(r, x, Admitted), net);
    var one := FirstDenied(r, net.hash(r.token), Admitted, 0);
    assert Overlap(r, x, Admitted).flights - {Id(1)} == one.flights;
    Onward(IDLE, Overlap(r, x, Admitted), Finish(Id(1)), one, net);
  }

  /** The second POST passed the gate before the denial and is sent one second after it: the
      cooldown of 100 seconds is never shortened and still does not hold it back. */
  lemma OverlapOvertakesDenial(r: Resource, net: Net) returns (s: Sys)
    requires r.token in net.tokens
    ensures Reaches(IDLE, s, net) && s.clock == 1 && s.armed == [Armed(r.token, 100)]
    ensures s.c.cooldowns == map[net.hash(r.token) := 100] && Honoured(s.c, s.clock, s.armed, net)
    ensures Possible(s, Exchange(Id(2), Other(500)), net) && SendsEarly(s, Exchange(Id(2), Other(500)))
  {
    var h := net.hash(r.token);
    FirstIsDenied(r, net);
    Onward(IDLE, FirstDenied(r, h, Admitted, 0), Wait(1), FirstDenied(r, h, Admitted, 1), net);
    s := FirstDenied(r, h, Waiting(None), 1);
    Onward(IDLE, FirstDenied(r, h, Admitted, 1), LookUp(Id(2)), s, net);
    assert Armed(r.token, 100) in s.armed;
  }

  /** Both are denied, the first for 100 seconds, the second for the default 60: after 70 seconds
      a third request with the token is sent. */
  lemma OverlapCutsCooldownShort(r: Resource, net: Net) returns (s: Sys)
    requires r.token in net.tokens
    ensures Reaches(IDLE, s, net) && s.clock == 70 && Armed(r.token, 100) in s.armed
    ensures Possible(s, Exchange(Id(3), Other(500)), net) && SendsEarly(s, Exchange(Id(3), Other(500)))
  {
    var h, y := net.hash(r.token), Answered(None, 0, Denied(429, PLAIN));
    FirstIsDenied(r, net);
    Onward(IDLE, FirstDenied(r, h, Admitted, 0), LookUp(Id(2)), FirstDenied(r, h, Waiting(None), 0), net);
    Onward(IDLE, FirstDenied(r, h, Waiting(None), 0), Exchange(Id(2), Denied(429, PLAIN)), FirstDenied(r, h, y, 0), net);
    var both := Sys(Client([], map[], [], map[h := 60]), 0, map[], [], [], [Armed(r.token, 100), Armed(r.token, 60)]);
    assert FirstDenied(r, h, y, 0).flights - {Id(2)} == map[];
    Onward(IDLE, FirstDenied(r, h, y, 0), Finish(Id(2)), both, net);
    s := ThirdIsSent(both, r, net);
  }

  lemma ThirdIsSent(both: Sys, r: Resource, net: Net) returns (s: Sys)
    requires r.token in net.tokens && Reaches(IDLE, both, net)
    requires both.c == Client([], map[], [], map[net.hash(r.token) := 60]) && both.clock == 0 && both.flights == map[]
    requires Armed(r.token, 100) in both.armed
    ensures Reaches(IDLE, s, net) && s.clock == 70 && Armed(r.token, 100) in s.armed
    ensures Possible(s, Exchange(Id(3), Other(500)), net) && SendsEarly(s, Exchange(Id(3), Other(500)))
  {
    var late := both.(clock := 70);
    Onward(IDLE, both, Wait(70), late, net);
    var begun := late.(flights := map[Id(3) := Flight(false, r, 70, Begun)]);
    Onward(IDLE, late, Begin(Id(3), false, r), begun, net);
    var admitted := begun.(flights := map[Id(3) := Flight(false, r, 70, Admitted)], c := Client([], map[], [], map[]));
    assert both.c.cooldowns - {net.hash(r.token)} == map[];
    Onward(IDLE, begun, PassGate(Id(3)), admitted, net);
    s := admitted.(flights := map[Id(3) := Flight(false, r, 70, Waiting(None))]);
    Onward(IDLE, admitted, LookUp(Id(3)), s, net);
  }
}
