/** What the GitHub client promises its callers, told over consecutive requests: when a denial
    holds the next request back, when an answer is served again, what is kept and what is dropped. */
module ClientLaws {
  import opened Base
  import opened GitHubCache
  import opened Cooldown

  // ---- denials ----

  /** A 403 or 429 asks to wait until an instant: so many seconds after the request began if
      Retry-After is a number not below 0, else until the reset when nothing remains, else a
      minute after the beginning for a 429. */
  predicate Asks(start: int, status: int, h: Headers, until: int) {
    if h.retryAfter.Some? && h.retryAfter.value >= 0 then until == start + h.retryAfter.value
    else if h.remaining == "0" && h.reset.Some? then until == h.reset.value
    else status == 429 && until == start + 60
  }

  lemma AsksIff(start: int, status: int, h: Headers)
    ensures forall until :: ParseCooldown(start, status, h) == Some(until) <==> Asks(start, status, h, until)
  {
  }

  predicate Cooling(c: Client, net: Net, token: string, now: int) {
    net.hash(token) in c.cooldowns && now < c.cooldowns[net.hash(token)]
  }

  lemma RefusedIffCooling(c: Client, net: Net, get: bool, r: Resource, now: int, answer: Option<Answer>)
    ensures Alone(c, net, get, r, now, answer).1.Refused? <==> Cooling(c, net, r.token, now)
  {
  }

  /** The request goes out at `now`: its token is not cooling down and its page is not fresh. */
  predicate GoesOut(c: Client, net: Net, get: bool, r: Resource, now: int) {
    Alone(c, net, get, r, now, None).1 == Broken
  }

  /** The next request with the token is refused exactly while it begins before the instant
      the denial asked for; if it asked for none, it is not refused at all.  Requests with any
      other token fare as they did before. */
  lemma RefusedAfterDenial(c: Client, net: Net, get: bool, r: Resource, start: int, status: int, h: Headers,
                           get': bool, r': Resource, now: int, answer: Option<Answer>)
    requires NetOk(net) && r.token in net.tokens && r'.token in net.tokens && GoesOut(c, net, get, r, start)
    ensures var denied := Alone(c, net, get, r, start, Some(Denied(status, h)));
      var next := Alone(denied.0, net, get', r', now, answer).1;
      && denied.1 == Status(status)
      && (r'.token == r.token ==> (next.Refused? <==> exists until :: Asks(start, status, h, until) && now < until))
      && (r'.token != r.token ==> (next.Refused? <==> Alone(c, net, get', r', now, answer).1.Refused?))
  {
    var c' := Alone(c, net, get, r, start, Some(Denied(status, h))).0;
    AsksIff(start, status, h);
    assert r'.token != r.token ==> net.hash(r'.token) != net.hash(r.token);
    RefusedIffCooling(c', net, get', r', now, answer);
    RefusedIffCooling(c, net, get', r', now, answer);
    DenialArms(c, net, get, r, start, status, h);
  }

  lemma DenialArms(c: Client, net: Net, get: bool, r: Resource, start: int, status: int, h: Headers)
    requires GoesOut(c, net, get, r, start)
    ensures var (c', resp) := Alone(c, net, get, r, start, Some(Denied(status, h)));
      && resp == Status(status) && c'.heap == c.heap && c'.resp == c.resp && c'.order == c.order
      && (forall k :: k != net.hash(r.token) ==>
            (k in c'.cooldowns <==> k in c.cooldowns) && (k in c.cooldowns ==> c'.cooldowns[k] == c.cooldowns[k]))
      && (forall until :: net.hash(r.token) in c'.cooldowns && c'.cooldowns[net.hash(r.token)] == until <==>
                          Asks(start, status, h, until))
  {
    AsksIff(start, status, h);
  }

  // ---- denials in whole runs ----

  /** The step ends a request with the token that was denied and asked to wait until then. */
  predicate Denies(s: Sys, e: Event, token: string, until: int) {
    && e.Finish? && e.id in s.flights && s.flights[e.id].res.token == token && s.flights[e.id].stage.Answered?
    && s.flights[e.id].stage.answer.Denied?
    && Asks(s.flights[e.id].start, s.flights[e.id].stage.answer.status, s.flights[e.id].stage.answer.headers, until)
  }

  lemma ArmsIff(s: Sys, e: Event, net: Net)
    requires Possible(s, e, net)
    ensures forall t, u :: Denies(s, e, t, u) <==> Arms(s, e) == Some(u) && e.Finish? && s.flights[e.id].res.token == t
    ensures Next(s, e, net).armed ==
            s.armed + if Arms(s, e).Some? then [Armed(s.flights[e.id].res.token, Arms(s, e).value)] else []
    ensures Clean(s, e, net) <==> forall t, u :: Denies(s, e, t, u) ==>
              !CutsShort(s.c, s.clock, net.hash(t), u) && !Overtakes(s, e.id, t, u)
  {
    if e.Finish? && s.flights[e.id].stage.answer.Denied? {
      AsksIff(s.flights[e.id].start, s.flights[e.id].stage.answer.status, s.flights[e.id].stage.answer.headers);
      if Arms(s, e).Some? {
        assert Denies(s, e, s.flights[e.id].res.token, Arms(s, e).value);
      }
    }
  }

  ghost predicate DeniedBefore(run: seq<Sys>, es: seq<Event>, k: nat, token: string, until: int)
    requires k <= |es| <= |run|
  {
    exists m :: 0 <= m < k && Denies(run[m], es[m], token, until)
  }

  /** The instants a run has on record are those its denials asked for, no more and no fewer:
      what is proved of them is proved of the answers GitHub gave. */
  lemma {:induction false} ArmedAreDenials(run: seq<Sys>, es: seq<Event>, net: Net, k: nat, token: string, until: int)
    requires Played(run, es, net) && k < |run|
    ensures Armed(token, until) in run[k].armed <==> DeniedBefore(run, es, k, token, until)
  {
    if k > 0 {
      ArmedAreDenials(run, es, net, k - 1, token, until);
      assert Possible(run[k - 1], es[k - 1], net) && run[k - 1 + 1] == Next(run[k - 1], es[k - 1], net);
      ArmsIff(run[k - 1], es[k - 1], net);
    }
  }

  /** In a clean run a denial holds: no request with the token is sent before the instant it asked for. */
  lemma CleanRunsHonourDenials(run: seq<Sys>, es: seq<Event>, net: Net, m: nat, k: nat, token: string, until: int)
    requires NetOk(net) && Played(run, es, net) && m < k < |es| && Denies(run[m], es[m], token, until)
    requires forall i :: 0 <= i < k ==> Clean(run[i], es[i], net)
    ensures es[k].Exchange? && es[k].id in run[k].flights && run[k].flights[es[k].id].res.token == token ==>
              until <= run[k].clock
  {
    ArmedAreDenials(run, es, net, k, token, until);
    CleanRunsSendOnTime(run, es, net, k);
  }

  /** With one request at a time per token every denial holds, and what is sent even began after it. */
  lemma SerialRunsHonourDenials(run: seq<Sys>, es: seq<Event>, net: Net, m: nat, k: nat, token: string, until: int,
                                id: Id)
    requires NetOk(net) && Played(run, es, net) && m < k < |run| && Denies(run[m], es[m], token, until)
    requires forall i :: 0 <= i < |run| ==> Serial(run[i])
    requires id in run[k].flights && run[k].flights[id].stage.Waiting? && run[k].flights[id].res.token == token
    ensures until <= run[k].flights[id].start
  {
    ArmedAreDenials(run, es, net, k, token, until);
    NothingSentWhileCooling(run, es, net, k, id, Armed(token, until));
  }

  /** Whoever is turned away at the gate owes it to a denial of the same token, in any run. */
  lemma RefusedOnlyAfterDenial(run: seq<Sys>, es: seq<Event>, net: Net, k: nat, id: Id)
    requires NetOk(net) && Played(run, es, net) && k < |es| && es[k] == PassGate(id)
    ensures var f := run[k].flights[id];
      id !in run[k + 1].flights ==> exists until :: f.start < until && DeniedBefore(run, es, k, f.res.token, until)
  {
    assert Possible(run[k], es[k], net) && run[k + 1] == Next(run[k], es[k], net);
    var f := run[k].flights[id];
    if id !in run[k + 1].flights {
      RefusalsAreOwn(run, es, net, k, id);
      var a :| a in run[k].armed && a.token == f.res.token && f.start < a.until;
      ArmedAreDenials(run, es, net, k, a.token, a.until);
    }
  }

  // ---- the poll window ----

  /** The poll interval an answer carries; a missing, malformed or negative one is 0. */
  predicate Polls(h: Headers, poll: nat) {
    poll == if h.pollInterval.Some? && h.pollInterval.value >= 0 then h.pollInterval.value else 0
  }

  predicate IndicesOk(c: Client) { forall k :: k in c.resp ==> c.resp[k] < |c.heap| }

  predicate Holds(c: Client, net: Net, r: Resource, rep: Rep, until: int) {
    Key(net, r) in c.resp && c.resp[Key(net, r)] < |c.heap|
    && c.heap[c.resp[Key(net, r)]].rep == rep && c.heap[c.resp[Key(net, r)]].notBefore == until
  }

  /** A 200 to a GET is handed on and, unless no-store, kept; a 304 hands on what is kept and
      starts its window anew.  Windows run from the beginning of the request. */
  lemma AnsweredGet(c: Client, net: Net, r: Resource, start: int, h: Headers, poll: nat)
    requires KeysOk(c) && Within(c, net.max) && IndicesOk(c) && GoesOut(c, net, true, r, start) && Polls(h, poll)
    ensures var (c', resp) := Alone(c, net, true, r, start, Some(Ok(h)));
      && resp == Fresh(net.rep(r, start)) && !Cooling(c', net, r.token, start)
      && net.hash(r.token) !in c'.cooldowns
      && (if h.noStore then c'.resp == c.resp && c'.heap == c.heap
          else Holds(c', net, r, net.rep(r, start), start + poll))
  {
    if !h.noStore {
      var c1 := c.(cooldowns := c.cooldowns - {net.hash(r.token)});
      StoreKeepsKeys(c1, Key(net, r), Entry(r, net.rep(r, start), start + poll), net.max);
    }
  }

  lemma RenewedGet(c: Client, net: Net, r: Resource, start: int, h: Headers, poll: nat, rep: Rep, until: int)
    requires Holds(c, net, r, rep, until) && GoesOut(c, net, true, r, start) && Polls(h, poll)
    ensures var (c', resp) := Alone(c, net, true, r, start, Some(NotModified(h)));
      resp == Fresh(rep) && Holds(c', net, r, rep, start + poll) && net.hash(r.token) !in c'.cooldowns
  {
  }

  /** A kept page is served again, without a request, exactly inside its window. */
  lemma ServedIff(c: Client, net: Net, r: Resource, now: int, rep: Rep, until: int)
    requires Holds(c, net, r, rep, until) && net.hash(r.token) !in c.cooldowns
    ensures Alone(c, net, true, r, now, None).1 == if now < until then Fresh(rep) else Broken
    ensures now < until ==> forall answer :: Alone(c, net, true, r, now, answer) == (c, Fresh(rep))
  {
    assert c.cooldowns - {net.hash(r.token)} == c.cooldowns;
  }

  /** Over two GETs of one page: an answered one is repeated from memory exactly while the next
      begins less than a poll interval after it began ... */
  lemma AnsweredThenAsked(c: Client, net: Net, r: Resource, start: int, h: Headers, poll: nat, now: int)
    requires KeysOk(c) && Within(c, net.max) && IndicesOk(c) && GoesOut(c, net, true, r, start) && Polls(h, poll)
    requires !h.noStore
    ensures var c' := Alone(c, net, true, r, start, Some(Ok(h))).0;
      Alone(c', net, true, r, now, None).1 == if now - start < poll then Fresh(net.rep(r, start)) else Broken
  {
    AnsweredGet(c, net, r, start, h, poll);
    ServedIff(Alone(c, net, true, r, start, Some(Ok(h))).0, net, r, now, net.rep(r, start), start + poll);
  }

  /** ... and over three: an unmodified page is repeated while the third begins less than the
      new poll interval after the second. */
  lemma RenewedThenAsked(c: Client, net: Net, r: Resource, rep: Rep, until: int,
                         start: int, h: Headers, poll: nat, now: int)
    requires Holds(c, net, r, rep, until) && GoesOut(c, net, true, r, start) && Polls(h, poll)
    ensures var c' := Alone(c, net, true, r, start, Some(NotModified(h))).0;
      Alone(c', net, true, r, now, None).1 == if now - start < poll then Fresh(rep) else Broken
  {
    RenewedGet(c, net, r, start, h, poll, rep, until);
    ServedIff(Alone(c, net, true, r, start, Some(NotModified(h))).0, net, r, now, rep, start + poll);
  }

  /** Only GETs are kept or served from memory, and only a 200 or a 304 changes what is kept. */
  lemma OthersLeaveTheCache(c: Client, net: Net, get: bool, r: Resource, now: int, answer: Answer)
    requires !get || answer.Denied? || answer.Other?
    ensures var (c', resp) := Alone(c, net, get, r, now, Some(answer));
      && c'.heap == c.heap && c'.resp == c.resp && c'.order == c.order
      && (!get ==> resp == if Cooling(c, net, r.token, now) then Refused else Status(Code(answer)))
  {
  }

  // ---- what is dropped ----

  /** A new page beyond the bound pushes out the oldest one and no other; otherwise nothing goes. */
  lemma StoreDropsOldest(c: Client, key: string, e: Entry, max: int)
    requires KeysOk(c) && Within(c, max)
    ensures var c' := Store(c, key, e, max);
      var full := key !in c.resp && 0 < max == |c.order|;
      && c'.order == (if key in c.resp then c.order else if full then c.order[1..] + [key] else c.order + [key])
      && (forall k :: k in c'.resp <==> k == key || (k in c.resp && !(full && k == c.order[0])))
      && c'.heap == c.heap + [e] && c'.resp[key] == |c.heap|
      && (forall k :: k in c'.resp && k != key ==> c'.resp[k] == c.resp[k])
  {
    StoreKeepsKeys(c, key, e, max);
    if key !in c.resp && 0 < max == |c.order| {
      var order, resp := c.order + [key], c.resp[key := |c.heap|];
      assert order[1..] == c.order[1..] + [key] && order[0] == c.order[0];
      assert Evict(resp, order, max) == Evict(resp - {order[0]}, order[1..], max) == (resp - {order[0]}, order[1..]);
    }
  }
}
