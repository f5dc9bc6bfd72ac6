/** The response cache and the cooldowns of internal/github.go.

    doRequest takes its lock several times, so requests interleave: each locked section is
    one function here, and `Next` runs any number of requests through them in any order.
    Entries are shared by pointer in the source; a pointer is an index into `heap`. */
module GitHubCache {
  import opened Base

  /** A GET target as one token sees it. */
  datatype Resource = Resource(url: string, token: string)

  datatype Rep = Rep(etag: string, body: string, link: string)

  /** `res` is whom it was fetched for; the source keeps that in the map key only. */
  datatype Entry = Entry(res: Resource, rep: Rep, notBefore: int)

  datatype Client = Client(heap: seq<Entry>, resp: map<string, nat>, order: seq<string>, cooldowns: map<string, int>)

  /** Header values as strconv parses them; None is absent or malformed. */
  datatype Headers = Headers(pollInterval: Option<int>, retryAfter: Option<int>, remaining: string, reset: Option<int>,
                             noStore: bool)

  /** `rep` is what the server would represent at each instant, `hash` is authHash, `tokens` are
      the tokens in use. */
  datatype Net = Net(rep: (Resource, int) -> Rep, hash: string -> string, tokens: set<string>, max: int)

  const HASH_LENGTH := 64

  /** Equal non-empty ETags of one resource mean equal representations (sections 13.1.2 and
      15.4.5 of RFC 9110); hashes have a fixed length and no two tokens in use collide. */
  ghost predicate NetOk(net: Net) {
    && (forall r, t, t' :: net.rep(r, t).etag == net.rep(r, t').etag != "" ==> net.rep(r, t) == net.rep(r, t'))
    && (forall a, b :: a in net.tokens && b in net.tokens && net.hash(a) == net.hash(b) ==> a == b)
    && (forall a :: |net.hash(a)| == HASH_LENGTH)
  }

  function ParsePollInterval(h: Headers): nat {
    if h.pollInterval.None? || h.pollInterval.value < 0 then 0 else h.pollInterval.value
  }

  function ParseCooldown(now: int, status: int, h: Headers): Option<int> {
    if h.retryAfter.Some? && h.retryAfter.value >= 0 then Some(now + h.retryAfter.value)
    else if h.remaining == "0" && h.reset.Some? then h.reset
    else if status == 429 then Some(now + 60)
    else None
  }

  // ---- keys ----

  function RespCacheKey(verb: string, url: string, hashed: string): string {
    verb + " " + url + " " + hashed
  }

  function Key(net: Net, r: Resource): string { RespCacheKey("GET", r.url, net.hash(r.token)) }

  function SpaceAt(s: string): nat {
    if s == [] || s[0] == ' ' then 0 else 1 + SpaceAt(s[1..])
  }

  lemma {:induction false} SpaceAfter(m: string, rest: string)
    requires ' ' !in m
    ensures SpaceAt(m + " " + rest) == |m|
  {
    if m == [] {
      assert m + " " + rest == " " + rest;
    } else {
      assert (m + " " + rest)[1..] == m[1..] + " " + rest;
      SpaceAfter(m[1..], rest);
    }
  }

  lemma FirstSpace(m: string, rest: string, m': string, rest': string)
    requires ' ' !in m && ' ' !in m' && m + " " + rest == m' + " " + rest'
    ensures m == m' && rest == rest'
  {
    var s, s' := m + " " + rest, m' + " " + rest';
    SpaceAfter(m, rest);
    SpaceAfter(m', rest');
    assert s[..|m|] == m && s'[..|m'|] == m';
    assert s[|m| + 1..] == rest && s'[|m'| + 1..] == rest';
  }

  /** Two requests share a cache key only with equal method, URL and token. */
  lemma KeyInjective(net: Net, m: string, u: string, a: string, m': string, u': string, a': string)
    requires NetOk(net) && a in net.tokens && a' in net.tokens && ' ' !in m && ' ' !in m'
    requires RespCacheKey(m, u, net.hash(a)) == RespCacheKey(m', u', net.hash(a'))
    ensures m == m' && u == u' && a == a'
  {
    var rest, rest' := u + " " + net.hash(a), u' + " " + net.hash(a');
    assert RespCacheKey(m, u, net.hash(a)) == m + " " + rest;
    assert RespCacheKey(m', u', net.hash(a')) == m' + " " + rest';
    FirstSpace(m, rest, m', rest');
    assert |u| == |u'|;
    assert rest[..|u|] == u && rest'[..|u'|] == u';
    assert rest[|u| + 1..] == net.hash(a) && rest'[|u'| + 1..] == net.hash(a');
  }

  // ---- the locked sections ----

  /** Entry gate: refused while the token cools down, else the cooldown is forgotten. */
  function Gate(c: Client, h: string, now: int): (Client, bool) {
    if h in c.cooldowns && now < c.cooldowns[h] then (c, false)
    else (c.(cooldowns := c.cooldowns - {h}), true)
  }

  function Arm(c: Client, h: string, until: int): Client { c.(cooldowns := c.cooldowns[h := until]) }

  function Revalidate(c: Client, id: nat, notBefore: int): Client
    requires id < |c.heap|
  {
    c.(heap := c.heap[id := c.heap[id].(notBefore := notBefore)])
  }

  function Evict(resp: map<string, nat>, order: seq<string>, max: int): (map<string, nat>, seq<string>)
    decreases |order|
  {
    if 0 < max < |order| then Evict(resp - {order[0]}, order[1..], max) else (resp, order)
  }

  function Store(c: Client, key: string, e: Entry, max: int): Client {
    var order := if key in c.resp then c.order else c.order + [key];
    var (resp, order') := Evict(c.resp[key := |c.heap|], order, max);
    c.(heap := c.heap + [e], resp := resp, order := order')
  }

  // ---- key list and bound ----

  ghost predicate NoDuplicates(s: seq<string>) {
    forall i, j :: 0 <= i < j < |s| ==> s[i] != s[j]
  }

  ghost predicate KeysOk(c: Client) {
    NoDuplicates(c.order) && forall k :: k in c.resp <==> k in c.order
  }

  predicate Within(c: Client, max: int) { max > 0 ==> |c.order| <= max }

  lemma {:induction false} EvictKeepsKeys(resp: map<string, nat>, order: seq<string>, max: int)
    requires NoDuplicates(order) && forall k :: k in resp <==> k in order
    ensures var (resp', order') := Evict(resp, order, max);
      && NoDuplicates(order') && (forall k :: k in resp' <==> k in order')
      && (max > 0 ==> |order'| <= max)
      && (forall k :: k in resp' ==> k in resp && resp'[k] == resp[k])
      && (order != [] ==> order' != [] && order'[|order'| - 1] == order[|order| - 1])
    decreases |order|
  {
    if 0 < max < |order| {
      assert order == [order[0]] + order[1..];
      forall k ensures k in resp - {order[0]} <==> k in order[1..] {
        if k in order[1..] {
          var i :| 0 <= i < |order[1..]| && order[1..][i] == k;
          assert order[i + 1] == k && order[0] != order[i + 1];
        }
      }
      EvictKeepsKeys(resp - {order[0]}, order[1..], max);
    }
  }

  lemma AppendKey(c: Client, key: string)
    requires KeysOk(c) && key !in c.resp
    ensures NoDuplicates(c.order + [key]) && forall k :: k in c.resp || k == key <==> k in c.order + [key]
  {
  }

  /** Keys equal the duplicate-free order list and stay within the bound; what was just
      stored is there, whatever was evicted. */
  lemma StoreKeepsKeys(c: Client, key: string, e: Entry, max: int)
    requires KeysOk(c) && Within(c, max)
    ensures var c' := Store(c, key, e, max);
      && KeysOk(c') && Within(c', max)
      && key in c'.resp && c'.resp[key] == |c.heap|
      && forall k :: k in c'.resp && k != key ==> k in c.resp && c'.resp[k] == c.resp[k]
  {
    var resp := c.resp[key := |c.heap|];
    if key in c.resp {
      EvictKeepsKeys(resp, c.order, max);
    } else {
      AppendKey(c, key);
      EvictKeepsKeys(resp, c.order + [key], max);
      var (_, order') := Evict(resp, c.order + [key], max);
      assert order'[|order'| - 1] == key;
    }
  }

  // ---- interleaved requests ----

  /** What came back.  An `Ok` body is the server's representation at that instant. */
  datatype Answer =
    | Ok(headers: Headers)
    | NotModified(headers: Headers)
    | Denied(status: int, headers: Headers)
    | Other(status: int)

  datatype Stage =
    | Begun
    | Admitted
    | Waiting(cached: Option<nat>)
    | Answered(cached: Option<nat>, at: int, answer: Answer)

  /** One doRequest; `start` is the time it read on entry. */
  datatype Flight = Flight(get: bool, res: Resource, start: int, stage: Stage)

  /** The server produced or validated a representation. */
  datatype Validation = Validation(res: Resource, at: int, poll: nat)

  /** A 200 handed to a caller. */
  datatype Delivery = Delivery(res: Resource, start: int, end: int, rep: Rep)

  datatype Armed = Armed(token: string, until: int)

  /** `log`, `delivered` and `armed` record the run; the client keeps only `c`. */
  datatype Sys = Sys(c: Client, clock: int, flights: map<Id, Flight>,
                     log: seq<Validation>, delivered: seq<Delivery>, armed: seq<Armed>)

  datatype Event =
    | Wait(seconds: nat)
    | Begin(id: Id, get: bool, res: Resource)
    | PassGate(id: Id)
    | LookUp(id: Id)
    | Exchange(id: Id, answer: Answer)
    | Finish(id: Id)
    | Break(id: Id)

  /** The If-None-Match a request carries, "" when it carries none. */
  function Validator(c: Client, cached: Option<nat>): string {
    if cached.Some? && cached.value < |c.heap| then c.heap[cached.value].rep.etag else ""
  }

  ghost predicate Possible(s: Sys, e: Event, net: Net) {
    match e
    case Wait(_) => true
    case Begin(id, _, res) => id !in s.flights && res.token in net.tokens
    case PassGate(id) => id in s.flights && s.flights[id].stage.Begun?
    case LookUp(id) => id in s.flights && s.flights[id].stage.Admitted?
    case Exchange(id, answer) =>
      && id in s.flights && s.flights[id].stage.Waiting?
      // a 304 answers a conditional GET whose validator is still current
      && (answer.NotModified? ==>
            var v := Validator(s.c, s.flights[id].stage.cached);
            s.flights[id].get && v != "" && v == net.rep(s.flights[id].res, s.clock).etag)
    case Finish(id) => id in s.flights && s.flights[id].stage.Answered?
    case Break(id) => id in s.flights && s.flights[id].stage.Waiting?
  }

  function Cached(c: Client, key: string): Option<nat> {
    if key in c.resp then Some(c.resp[key]) else None
  }

  function Leave(s: Sys, id: Id): Sys { s.(flights := s.flights - {id}) }

  function Move(s: Sys, id: Id, stage: Stage): Sys
    requires id in s.flights
  {
    s.(flights := s.flights[id := s.flights[id].(stage := stage)])
  }

  function Deliver(s: Sys, f: Flight, rep: Rep): Sys {
    s.(delivered := s.delivered + [Delivery(f.res, f.start, s.clock, rep)])
  }

  function LookedUp(s: Sys, id: Id, net: Net): Sys
    requires id in s.flights
  {
    var f := s.flights[id];
    var cached := Cached(s.c, Key(net, f.res));
    if !f.get then Move(s, id, Waiting(None))
    else if cached.Some? && cached.value < |s.c.heap| && f.start < s.c.heap[cached.value].notBefore then
      Deliver(Leave(s, id), f, s.c.heap[cached.value].rep)
    else Move(s, id, Waiting(cached))
  }

  /** A 403 or 429. */
  function CoolDown(s: Sys, f: Flight, status: int, h: Headers, net: Net): Sys {
    var until := ParseCooldown(f.start, status, h);
    if until.None? then s
    else s.(c := Arm(s.c, net.hash(f.res.token), until.value),
            armed := s.armed + [Armed(f.res.token, until.value)])
  }

  /** A 304 renews the entry the request holds, wherever that pointer is shared. */
  function Renew(s: Sys, f: Flight, cached: Option<nat>, h: Headers): Sys {
    if f.get && cached.Some? && cached.value < |s.c.heap| then
      Deliver(s.(c := Revalidate(s.c, cached.value, f.start + ParsePollInterval(h))), f, s.c.heap[cached.value].rep)
    else s
  }

  /** A 200. */
  function Accept(s: Sys, f: Flight, at: int, h: Headers, net: Net): Sys {
    if !f.get then s
    else
      var rep := net.rep(f.res, at);
      var e := Entry(f.res, rep, f.start + ParsePollInterval(h));
      Deliver(if h.noStore then s else s.(c := Store(s.c, Key(net, f.res), e, net.max)), f, rep)
  }

  function Finished(s: Sys, id: Id, net: Net): Sys
    requires id in s.flights && s.flights[id].stage.Answered?
  {
    var f, s' := s.flights[id], Leave(s, id);
    match f.stage.answer
    case Denied(status, h) => CoolDown(s', f, status, h, net)
    case NotModified(h) => Renew(s', f, f.stage.cached, h)
    case Ok(h) => Accept(s', f, f.stage.at, h, net)
    case Other(_) => s'
  }

  ghost function Next(s: Sys, e: Event, net: Net): Sys
    requires Possible(s, e, net)
  {
    match e
    case Wait(n) => s.(clock := s.clock + n)
    case Begin(id, get, res) => s.(flights := s.flights[id := Flight(get, res, s.clock, Begun)])
    case PassGate(id) =>
      var (c, open) := Gate(s.c, net.hash(s.flights[id].res.token), s.flights[id].start);
      if open then Move(s, id, Admitted).(c := c) else Leave(s, id)
    case LookUp(id) => LookedUp(s, id, net)
    case Exchange(id, answer) =>
      var f := s.flights[id];
      var s' := Move(s, id, Answered(f.stage.cached, s.clock, answer));
      if f.get && (answer.Ok? || answer.NotModified?)
      then s'.(log := s.log + [Validation(f.res, s.clock, ParsePollInterval(answer.headers))]) else s'
    case Finish(id) => Finished(s, id, net)
    case Break(id) => Leave(s, id)
  }

  // ---- the cached client against an uncached one ----

  /** The server validated this representation, and asked not to be polled before `until`. */
  ghost predicate Vouched(res: Resource, rep: Rep, until: int, log: seq<Validation>, net: Net) {
    exists k :: 0 <= k < |log| && log[k].res == res && net.rep(res, log[k].at) == rep && until <= log[k].at + log[k].poll
  }

  /** The representation was current while the request ran, or at some t0 whose poll interval
      had not run out when it began; always for the same URL and token. */
  ghost predicate Current(d: Delivery, log: seq<Validation>, net: Net) {
    exists k :: 0 <= k < |log| && log[k].res == d.res && net.rep(d.res, log[k].at) == d.rep
                && (d.start <= log[k].at <= d.end || d.start < log[k].at + log[k].poll)
  }

  ghost predicate EntriesOk(s: Sys, net: Net) {
    forall e :: e in s.c.heap ==> e.res.token in net.tokens && Vouched(e.res, e.rep, e.notBefore, s.log, net)
  }

  ghost predicate MapOk(s: Sys, net: Net) {
    && KeysOk(s.c) && Within(s.c, net.max)
    && forall k :: k in s.c.resp ==> s.c.resp[k] < |s.c.heap| && Key(net, s.c.heap[s.c.resp[k]].res) == k
  }

  /** A request holding a pointer holds its own resource's entry; an answered GET was logged. */
  ghost predicate FlightOk(f: Flight, s: Sys, net: Net) {
    && f.start <= s.clock && f.res.token in net.tokens
    && (f.stage.Waiting? || f.stage.Answered? ==>
          (f.stage.cached.Some? ==>
             f.get && f.stage.cached.value < |s.c.heap| && s.c.heap[f.stage.cached.value].res == f.res))
    && (f.stage.Answered? ==> f.start <= f.stage.at <= s.clock)
    && (f.get && f.stage.Answered? && (f.stage.answer.Ok? || f.stage.answer.NotModified?) ==>
          Validation(f.res, f.stage.at, ParsePollInterval(f.stage.answer.headers)) in s.log)
    && (f.stage.Answered? && f.stage.answer.NotModified? ==>
          f.stage.cached.Some? && s.c.heap[f.stage.cached.value].rep == net.rep(f.res, f.stage.at))
  }

  ghost predicate FlightsOk(s: Sys, net: Net) {
    forall id :: id in s.flights ==> FlightOk(s.flights[id], s, net)
  }

  ghost predicate DeliveriesOk(s: Sys, net: Net) {
    forall d :: d in s.delivered ==> Current(d, s.log, net)
  }

  ghost predicate Inv(s: Sys, net: Net) {
    EntriesOk(s, net) && MapOk(s, net) && FlightsOk(s, net) && DeliveriesOk(s, net)
  }

  lemma VouchedLater(res: Resource, rep: Rep, until: int, log: seq<Validation>, more: seq<Validation>, net: Net)
    requires Vouched(res, rep, until, log, net)
    ensures Vouched(res, rep, until, log + more, net)
  {
    var k :| 0 <= k < |log| && log[k].res == res && net.rep(res, log[k].at) == rep && until <= log[k].at + log[k].poll;
    assert (log + more)[k] == log[k];
  }

  lemma CurrentLater(d: Delivery, log: seq<Validation>, more: seq<Validation>, net: Net)
    requires Current(d, log, net)
    ensures Current(d, log + more, net)
  {
    var k :| 0 <= k < |log| && log[k].res == d.res && net.rep(d.res, log[k].at) == d.rep
             && (d.start <= log[k].at <= d.end || d.start < log[k].at + log[k].poll);
    assert (log + more)[k] == log[k];
  }

  lemma DeliverKeeps(s: Sys, f: Flight, rep: Rep, net: Net)
    requires Inv(s, net) && Current(Delivery(f.res, f.start, s.clock, rep), s.log, net)
    ensures Inv(Deliver(s, f, rep), net)
  {
  }

  lemma MoveKeeps(s: Sys, id: Id, stage: Stage, net: Net)
    requires Inv(s, net) && id in s.flights && FlightOk(s.flights[id].(stage := stage), s, net)
    ensures Inv(Move(s, id, stage), net)
  {
  }

  lemma LeaveKeeps(s: Sys, id: Id, net: Net)
    requires Inv(s, net)
    ensures Inv(Leave(s, id), net)
  {
  }

  lemma LookUpKeeps(s: Sys, id: Id, net: Net)
    requires NetOk(net) && Inv(s, net) && id in s.flights && s.flights[id].stage.Admitted?
    ensures Inv(LookedUp(s, id, net), net)
  {
    var f := s.flights[id];
    assert FlightOk(f, s, net);
    var cached := Cached(s.c, Key(net, f.res));
    if f.get && cached.Some? {
      var e := s.c.heap[cached.value];
      KeyInjective(net, "GET", e.res.url, e.res.token, "GET", f.res.url, f.res.token);
      assert e.res == f.res;
      if f.start < e.notBefore {
        assert Vouched(e.res, e.rep, e.notBefore, s.log, net);
        LeaveKeeps(s, id, net);
        DeliverKeeps(Leave(s, id), f, e.rep, net);
      } else {
        MoveKeeps(s, id, Waiting(cached), net);
      }
    } else {
      MoveKeeps(s, id, Waiting(None), net);
    }
  }

  lemma ExchangeKeeps(s: Sys, id: Id, answer: Answer, net: Net)
    requires NetOk(net) && Inv(s, net) && Possible(s, Exchange(id, answer), net)
    ensures Inv(Next(s, Exchange(id, answer), net), net)
  {
    var f := s.flights[id];
    assert FlightOk(f, s, net);
    var more := if f.get && (answer.Ok? || answer.NotModified?)
                then [Validation(f.res, s.clock, ParsePollInterval(answer.headers))] else [];
    var s1 := s.(log := s.log + more);
    LogKeeps(s, more, net);
    if answer.NotModified? {
      var e := s.c.heap[f.stage.cached.value];
      assert Vouched(e.res, e.rep, e.notBefore, s.log, net);
    }
    assert more != [] ==> more[0] in s1.log;
    MoveKeeps(s1, id, Answered(f.stage.cached, s.clock, answer), net);
    assert more == [] ==> s1.log == s.log;
  }

  lemma LogKeeps(s: Sys, more: seq<Validation>, net: Net)
    requires Inv(s, net)
    ensures Inv(s.(log := s.log + more), net)
  {
    var s' := s.(log := s.log + more);
    forall e | e in s'.c.heap ensures Vouched(e.res, e.rep, e.notBefore, s'.log, net) {
      VouchedLater(e.res, e.rep, e.notBefore, s.log, more, net);
    }
    forall d | d in s'.delivered ensures Current(d, s'.log, net) {
      CurrentLater(d, s.log, more, net);
    }
    forall i | i in s'.flights ensures FlightOk(s'.flights[i], s', net) {
      assert FlightOk(s.flights[i], s, net);
    }
  }

  /** A client whose entries keep resource and representation serves the same flights. */
  lemma ClientKeeps(s: Sys, c: Client, net: Net)
    requires Inv(s, net)
    requires |s.c.heap| <= |c.heap|
    requires forall i :: 0 <= i < |s.c.heap| ==> c.heap[i].res == s.c.heap[i].res && c.heap[i].rep == s.c.heap[i].rep
    requires EntriesOk(s.(c := c), net) && MapOk(s.(c := c), net)
    ensures Inv(s.(c := c), net)
  {
  }

  lemma StoreKeeps(s: Sys, e: Entry, net: Net)
    requires Inv(s, net) && e.res.token in net.tokens && Vouched(e.res, e.rep, e.notBefore, s.log, net)
    ensures Inv(s.(c := Store(s.c, Key(net, e.res), e, net.max)), net)
  {
    var c := Store(s.c, Key(net, e.res), e, net.max);
    StoreKeepsKeys(s.c, Key(net, e.res), e, net.max);
    assert c.heap == s.c.heap + [e];
    ClientKeeps(s, c, net);
  }

  lemma VouchedByAnswer(f: Flight, s: Sys, rep: Rep, net: Net)
    requires FlightOk(f, s, net) && f.get && f.stage.Answered? && (f.stage.answer.Ok? || f.stage.answer.NotModified?)
    requires rep == net.rep(f.res, f.stage.at)
    ensures Vouched(f.res, rep, f.start + ParsePollInterval(f.stage.answer.headers), s.log, net)
    ensures Current(Delivery(f.res, f.start, s.clock, rep), s.log, net)
  {
  }

  lemma StoreAndDeliver(s: Sys, f: Flight, e: Entry, net: Net)
    requires Inv(s, net) && e.res == f.res && f.res.token in net.tokens && Vouched(e.res, e.rep, e.notBefore, s.log, net)
    requires Current(Delivery(f.res, f.start, s.clock, e.rep), s.log, net)
    ensures Inv(Deliver(s.(c := Store(s.c, Key(net, f.res), e, net.max)), f, e.rep), net)
    ensures Inv(Deliver(s, f, e.rep), net)
  {
    StoreKeeps(s, e, net);
    DeliverKeeps(s, f, e.rep, net);
    DeliverKeeps(s.(c := Store(s.c, Key(net, f.res), e, net.max)), f, e.rep, net);
  }

  lemma AcceptKeeps(s: Sys, s': Sys, f: Flight, net: Net)
    requires Inv(s, net) && Inv(s', net) && s'.c == s.c && s'.log == s.log && s'.clock == s.clock
    requires FlightOk(f, s, net) && f.stage.Answered? && f.stage.answer.Ok?
    ensures Inv(Accept(s', f, f.stage.at, f.stage.answer.headers, net), net)
  {
    if f.get {
      var h, rep := f.stage.answer.headers, net.rep(f.res, f.stage.at);
      VouchedByAnswer(f, s, rep, net);
      StoreAndDeliver(s', f, Entry(f.res, rep, f.start + ParsePollInterval(h)), net);
    }
  }

  lemma RenewKeeps(s: Sys, s': Sys, f: Flight, net: Net)
    requires Inv(s, net) && Inv(s', net) && s'.c == s.c && s'.log == s.log && s'.clock == s.clock
    requires FlightOk(f, s, net) && f.stage.Answered? && f.stage.answer.NotModified?
    ensures Inv(Renew(s', f, f.stage.cached, f.stage.answer.headers), net)
  {
  }

  lemma CoolDownKeeps(s: Sys, f: Flight, status: int, h: Headers, net: Net)
    requires Inv(s, net)
    ensures Inv(CoolDown(s, f, status, h, net), net)
  {
  }

  lemma FinishKeeps(s: Sys, id: Id, net: Net)
    requires NetOk(net) && Inv(s, net) && id in s.flights && s.flights[id].stage.Answered?
    ensures Inv(Finished(s, id, net), net)
  {
    var f, s' := s.flights[id], Leave(s, id);
    assert FlightOk(f, s, net);
    LeaveKeeps(s, id, net);
    match f.stage.answer
    case Denied(status, h) => CoolDownKeeps(s', f, status, h, net);
    case NotModified(h) => RenewKeeps(s, s', f, net);
    case Ok(h) => AcceptKeeps(s, s', f, net);
    case Other(_) =>
  }

  lemma ArmKeeps(s: Sys, c: Client, armed: seq<Armed>, net: Net)
    requires Inv(s, net) && c.heap == s.c.heap && c.resp == s.c.resp && c.order == s.c.order
    ensures Inv(s.(c := c, armed := armed), net)
  {
  }

  lemma StepKeeps(s: Sys, e: Event, net: Net)
    requires NetOk(net) && Inv(s, net) && Possible(s, e, net)
    ensures Inv(Next(s, e, net), net)
  {
    match e
    case Wait(n) =>
      var s' := s.(clock := s.clock + n);
      forall i | i in s'.flights ensures FlightOk(s'.flights[i], s', net) {
        assert FlightOk(s.flights[i], s, net);
      }
    case Begin(id, get, res) =>
      var s' := Next(s, e, net);
      forall i | i in s'.flights ensures FlightOk(s'.flights[i], s', net) {
        assert i != id ==> FlightOk(s.flights[i], s, net);
      }
    case PassGate(id) =>
      var f := s.flights[id];
      assert FlightOk(f, s, net);
      var (c, open) := Gate(s.c, net.hash(f.res.token), f.start);
      if open {
        MoveKeeps(s, id, Admitted, net);
        ArmKeeps(Move(s, id, Admitted), c, s.armed, net);
      } else {
        LeaveKeeps(s, id, net);
      }
    case LookUp(id) => LookUpKeeps(s, id, net);
    case Exchange(id, answer) => ExchangeKeeps(s, id, answer, net);
    case Finish(id) => FinishKeeps(s, id, net);
    case Break(id) => LeaveKeeps(s, id, net);
  }

  ghost predicate Steps(s: Sys, s': Sys, net: Net) {
    exists e :: Possible(s, e, net) && s' == Next(s, e, net)
  }

  ghost predicate Run(run: seq<Sys>, net: Net) {
    && run != [] && run[0] == Sys(Client([], map[], [], map[]), run[0].clock, map[], [], [], [])
    && forall i :: 0 <= i < |run| - 1 ==> Steps(run[i], run[i + 1], net)
  }

  lemma {:induction false} RunsKeep(run: seq<Sys>, net: Net, k: nat)
    requires NetOk(net) && Run(run, net) && k < |run|
    ensures Inv(run[k], net)
  {
    if k > 0 {
      RunsKeep(run, net, k - 1);
      assert Steps(run[k - 1], run[k - 1 + 1], net);
      var e :| Possible(run[k - 1], e, net) && run[k] == Next(run[k - 1], e, net);
      StepKeeps(run[k - 1], e, net);
    }
  }

  /** The cached client refines an uncached one: however requests, stores, revalidations and
      evictions interleave, everything delivered is current in the sense above. */
  lemma CachedClientIsCurrent(run: seq<Sys>, net: Net, k: nat, d: Delivery)
    requires NetOk(net) && Run(run, net) && k < |run| && d in run[k].delivered
    ensures Current(d, run[k].log, net)
    ensures net.max > 0 ==> |run[k].c.order| <= net.max && |run[k].c.resp| <= net.max
  {
    RunsKeep(run, net, k);
    assert MapOk(run[k], net);
    KeysCount(run[k].c.resp, run[k].c.order);
  }

  lemma {:induction false} KeysCount(resp: map<string, nat>, order: seq<string>)
    requires forall k :: k in resp <==> k in order
    ensures |resp| <= |order|
  {
    assert resp.Keys == set k | k in order;
    SetOfSeq(order);
    assert |resp| == |resp.Keys|;
  }

  lemma {:induction false} SetOfSeq(s: seq<string>)
    ensures |set k | k in s| <= |s|
  {
    if s != [] {
      var before, last := s[..|s| - 1], s[|s| - 1];
      assert s == before + [last];
      SetOfSeq(before);
      assert (set k | k in s) == (set k | k in before) + {last};
    }
  }

  // ---- reachable states ----

  ghost predicate Reaches(s: Sys, t: Sys, net: Net) {
    exists run: seq<Sys> :: run != [] && run[0] == s && run[|run| - 1] == t
      && forall i :: 0 <= i < |run| - 1 ==> Steps(run[i], run[i + 1], net)
  }

  lemma Start(s: Sys, net: Net)
    ensures Reaches(s, s, net)
  {
    var run := [s];
    assert run[|run| - 1] == s;
  }

  lemma Onward(s: Sys, t: Sys, e: Event, u: Sys, net: Net)
    requires Reaches(s, t, net) && Possible(t, e, net) && u == Next(t, e, net)
    ensures Reaches(s, u, net)
  {
    var a :| a != [] && a[0] == s && a[|a| - 1] == t && forall i :: 0 <= i < |a| - 1 ==> Steps(a[i], a[i + 1], net);
    var run := a + [u];
    forall i | 0 <= i < |run| - 1 ensures Steps(run[i], run[i + 1], net) {
      if i < |a| - 1 {
        assert Steps(a[i], a[i + 1], net);
      } else {
        assert run[i] == t && run[i + 1] == u;
      }
    }
    assert run[|run| - 1] == u;
  }

  const IDLE := Sys(Client([], map[], [], map[]), 0, map[], [], [], [])

  lemma Chain(s: Sys, t: Sys, u: Sys, net: Net)
    requires Reaches(s, t, net) && Reaches(t, u, net)
    ensures Reaches(s, u, net)
  {
    var a :| a != [] && a[0] == s && a[|a| - 1] == t && forall i :: 0 <= i < |a| - 1 ==> Steps(a[i], a[i + 1], net);
    var b :| b != [] && b[0] == t && b[|b| - 1] == u && forall i :: 0 <= i < |b| - 1 ==> Steps(b[i], b[i + 1], net);
    var run := a + b[1..];
    forall i | 0 <= i < |run| - 1 ensures Steps(run[i], run[i + 1], net) {
      if i < |a| - 1 {
        assert Steps(a[i], a[i + 1], net);
      } else {
        var m := i - |a| + 1;
        assert run[i] == b[m] && run[i + 1] == b[m + 1] && Steps(b[m], b[m + 1], net);
      }
    }
    assert run[|run| - 1] == u;
  }

  /** A state reached from the idle client is the end of a run. */
  lemma ReachedKeeps(t: Sys, net: Net)
    requires NetOk(net) && Reaches(IDLE, t, net)
    ensures Inv(t, net)
  {
    var a :| a != [] && a[0] == IDLE && a[|a| - 1] == t && forall i :: 0 <= i < |a| - 1 ==> Steps(a[i], a[i + 1], net);
    RunsKeep(a, net, |a| - 1);
  }

  // ---- the client ----

  datatype Response = Refused | Broken | Fresh(rep: Rep) | Status(code: int)

  /** One request that meets no other, in terms of the sections above. */
  function Alone(c: Client, net: Net, get: bool, r: Resource, now: int, answer: Option<Answer>): (Client, Response) {
    var (c1, open) := Gate(c, net.hash(r.token), now);
    var cached := if get then Cached(c1, Key(net, r)) else None;
    if !open then (c1, Refused)
    else if cached.Some? && cached.value < |c1.heap| && now < c1.heap[cached.value].notBefore then
      (c1, Fresh(c1.heap[cached.value].rep))
    else if answer.None? then (c1, Broken)
    else
      var f := Flight(get, r, now, Answered(cached, now, answer.value));
      var s := Finished(Sys(c1, now, map[Id(0) := f], [], [], []), Id(0), net);
      (s.c, if s.delivered != [] then Fresh(s.delivered[0].rep) else Status(Code(answer.value)))
  }

  function Code(a: Answer): int {
    match a
    case Ok(_) => 200
    case NotModified(_) => 304
    case Denied(status, _) => status
    case Other(status) => status
  }

  /** `t` is what the request leaves: the client of `Alone`, and its response delivered. */
  ghost predicate Undisturbed(s: Sys, t: Sys, net: Net, get: bool, r: Resource, answer: Option<Answer>) {
    var (c, resp) := Alone(s.c, net, get, r, s.clock, answer);
    && t.flights == map[] && t.clock == s.clock && t.c == c
    && (resp.Fresh? ==> Delivery(r, s.clock, s.clock, resp.rep) in t.delivered)
  }

  /** The same request as a run of the interleaved machine with nobody else in it. */
  lemma AloneIsARun(s: Sys, id: Id, net: Net, get: bool, r: Resource, answer: Option<Answer>)
    requires NetOk(net) && Inv(s, net) && s.flights == map[] && r.token in net.tokens
    requires answer.Some? && answer.value.NotModified? ==>
      get && Validator(s.c, Cached(s.c, Key(net, r))) == net.rep(r, s.clock).etag != ""
    ensures exists t :: Reaches(s, t, net) && Undisturbed(s, t, net, get, r, answer)
  {
    var h := net.hash(r.token);
    var (c1, open) := Gate(s.c, h, s.clock);
    var cached := if get then Cached(c1, Key(net, r)) else None;
    var f := Flight(get, r, s.clock, Begun);
    var begun := s.(flights := map[id := f]);
    Start(s, net);
    Onward(s, s, Begin(id, get, r), begun, net);
    assert begun.flights - {id} == map[];
    if !open {
      Onward(s, begun, PassGate(id), s, net);
    } else {
      var admitted := s.(c := c1, flights := map[id := f.(stage := Admitted)]);
      Onward(s, begun, PassGate(id), admitted, net);
      AloneFromGate(s, admitted, id, net, get, r, answer);
    }
  }

  lemma FinishedAgrees(a: Sys, b: Sys, i: Id, j: Id, net: Net)
    requires i in a.flights && j in b.flights && a.flights[i] == b.flights[j] && a.flights[i].stage.Answered?
    requires a.c == b.c && a.clock == b.clock && b.delivered == []
    ensures var a', b' := Finished(a, i, net), Finished(b, j, net);
      && a'.c == b'.c && a'.clock == a.clock && a'.flights == a.flights - {i}
      && a'.delivered == a.delivered + b'.delivered
      && (b'.delivered != [] ==>
            b'.delivered == [Delivery(a.flights[i].res, a.flights[i].start, a.clock, b'.delivered[0].rep)])
  {
  }

  lemma AloneAnswered(s: Sys, looked: Sys, id: Id, net: Net, answer: Answer)
    requires looked.flights.Keys == {id} && looked.flights[id].stage.Waiting? && Reaches(s, looked, net)
    requires Possible(looked, Exchange(id, answer), net)
    ensures var f := looked.flights[id].(stage := Answered(looked.flights[id].stage.cached, looked.clock, answer));
      var alone := Finished(Sys(looked.c, looked.clock, map[Id(0) := f], [], [], []), Id(0), net);
      exists t :: Reaches(s, t, net) && t.flights == map[] && t.clock == looked.clock && t.c == alone.c
                  && (alone.delivered != [] ==>
                        Delivery(f.res, f.start, looked.clock, alone.delivered[0].rep) in t.delivered)
  {
    var f := looked.flights[id].(stage := Answered(looked.flights[id].stage.cached, looked.clock, answer));
    var e := Exchange(id, answer);
    var answered := Next(looked, e, net);
    Onward(s, looked, e, answered, net);
    var t := Finished(answered, id, net);
    Onward(s, answered, Finish(id), t, net);
    FinishedAgrees(answered, Sys(looked.c, looked.clock, map[Id(0) := f], [], [], []), id, Id(0), net);
    assert answered.flights - {id} == map[];
  }

  lemma AloneFromGate(s: Sys, admitted: Sys, id: Id, net: Net, get: bool, r: Resource, answer: Option<Answer>)
    requires NetOk(net) && s.flights == map[] && MapOk(s, net)
    requires Gate(s.c, net.hash(r.token), s.clock).1
    requires admitted == s.(c := Gate(s.c, net.hash(r.token), s.clock).0,
                            flights := map[id := Flight(get, r, s.clock, Admitted)])
    requires Reaches(s, admitted, net)
    requires answer.Some? && answer.value.NotModified? ==>
      get && Validator(s.c, Cached(s.c, Key(net, r))) == net.rep(r, s.clock).etag != ""
    ensures exists t :: Reaches(s, t, net) && Undisturbed(s, t, net, get, r, answer)
  {
    var c1 := admitted.c;
    var cached := if get then Cached(c1, Key(net, r)) else None;
    assert admitted.flights - {id} == map[];
    var looked := LookedUp(admitted, id, net);
    Onward(s, admitted, LookUp(id), looked, net);
    if !(cached.Some? && s.clock < c1.heap[cached.value].notBefore) {
      assert looked.flights == map[id := Flight(get, r, s.clock, Waiting(cached))];
      assert looked.flights - {id} == map[];
      if answer.None? {
        Onward(s, looked, Break(id), Leave(looked, id), net);
      } else {
        AloneAnswered(s, looked, id, net, answer.value);
      }
    }
  }

  // ---- the assumptions can be met ----

  /** Two tokens whose hashes differ, and a page that changes at instant `edit`. */
  function EditedPage(a: string, b: string, edit: int): Net {
    Net((r, t) => if t < edit then Rep("v1", "before", "") else Rep("v2", "after", ""),
        t => seq(HASH_LENGTH, _ => if t == a then 'a' else 'b'), {a, b}, 4096)
  }

  lemma AssumptionsAreMet(a: string, b: string, edit: int)
    ensures var net := EditedPage(a, b, edit);
      && NetOk(net) && a in net.tokens && b in net.tokens
      && forall r, t, t' :: t < edit <= t' ==> net.rep(r, t) != net.rep(r, t')
  {
    var net := EditedPage(a, b, edit);
    assert forall t :: |net.hash(t)| == HASH_LENGTH;
    assert forall t :: net.hash(t)[0] == if t == a then 'a' else 'b';
    assert "v1"[1] != "v2"[1];
  }

  lemma FirstAnswerIsStored(net: Net, r: Resource, poll: nat)
    requires net.max > 0
    ensures var c := Alone(IDLE.c, net, true, r, 0, Some(Ok(Headers(Some(poll), None, "", None, false)))).0;
      && Key(net, r) in c.resp && c.resp[Key(net, r)] == 0 && c.cooldowns == map[]
      && c.heap == [Entry(r, net.rep(r, 0), poll)]
  {
    var e := Entry(r, net.rep(r, 0), poll);
    assert IDLE.c.cooldowns - {net.hash(r.token)} == map[];
    StoreKeepsKeys(IDLE.c, Key(net, r), e, net.max);
  }

  lemma SecondAskIsAHit(c: Client, net: Net, r: Resource, poll: nat, d: nat)
    requires Key(net, r) in c.resp && c.resp[Key(net, r)] == 0 && c.cooldowns == map[]
    requires c.heap == [Entry(r, net.rep(r, 0), poll)] && d < poll
    ensures Alone(c, net, true, r, d, None).1 == Fresh(net.rep(r, 0))
  {
  }

  /** One GET answered at 0 with a poll interval, the next at `d` inside it: the second delivers
      the representation of 0. */
  lemma PollWindowIsUsed(net: Net, r: Resource, poll: nat, d: nat) returns (s: Sys)
    requires NetOk(net) && r.token in net.tokens && net.max > 0 && d < poll
    ensures Reaches(IDLE, s, net) && s.clock == d && Delivery(r, d, d, net.rep(r, 0)) in s.delivered
  {
    var answer := Some(Ok(Headers(Some(poll), None, "", None, false)));
    Start(IDLE, net);
    ReachedKeeps(IDLE, net);
    AloneIsARun(IDLE, Id(1), net, true, r, answer);
    var t :| Reaches(IDLE, t, net) && Undisturbed(IDLE, t, net, true, r, answer);
    FirstAnswerIsStored(net, r, poll);
    var late := t.(clock := d);
    Onward(IDLE, t, Wait(d), late, net);
    s := SecondAsk(late, net, r, poll, d);
  }

  lemma SecondAsk(late: Sys, net: Net, r: Resource, poll: nat, d: nat) returns (s: Sys)
    requires NetOk(net) && r.token in net.tokens && d < poll
    requires Reaches(IDLE, late, net) && late.flights == map[] && late.clock == d
    requires Key(net, r) in late.c.resp && late.c.resp[Key(net, r)] == 0 && late.c.cooldowns == map[]
    requires late.c.heap == [Entry(r, net.rep(r, 0), poll)]
    ensures Reaches(IDLE, s, net) && s.clock == d && Delivery(r, d, d, net.rep(r, 0)) in s.delivered
  {
    ReachedKeeps(late, net);
    AloneIsARun(late, Id(1), net, true, r, None);
    s :| Reaches(late, s, net) && Undisturbed(late, s, net, true, r, None);
    SecondAskIsAHit(late.c, net, r, poll, d);
    Chain(IDLE, late, s, net);
  }

  /** So inside a poll window a caller can get a page the server has replaced: the second half
      of `Current` is needed. */
  lemma PollWindowServesOldPage(r: Resource, b: string, poll: nat, d: nat) returns (s: Sys)
    requires 0 < d < poll
    ensures var net := EditedPage(r.token, b, d);
      && NetOk(net) && Reaches(IDLE, s, net) && s.clock == d
      && Delivery(r, d, d, net.rep(r, 0)) in s.delivered && net.rep(r, 0) != net.rep(r, d)
  {
    AssumptionsAreMet(r.token, b, d);
    s := PollWindowIsUsed(EditedPage(r.token, b, d), r, poll, d);
  }

  class GHClient {
    const cacheMax: int
    var heap: seq<Entry>
    var respCache: map<string, nat>
    var respOrder: seq<string>
    var cooldowns: map<string, int>

    constructor (cacheMax: int)
      ensures this.cacheMax == cacheMax && Valid() && Snapshot() == IDLE.c
    {
      this.cacheMax, heap, respCache, respOrder, cooldowns := cacheMax, [], map[], [], map[];
    }

    ghost predicate Valid() reads this {
      KeysOk(Snapshot()) && forall k :: k in respCache ==> respCache[k] < |heap|
    }

    ghost function Snapshot(): Client reads this { Client(heap, respCache, respOrder, cooldowns) }

    method StoreResp(key: string, e: Entry)
      requires Valid()
      modifies this
      ensures Snapshot() == Store(old(Snapshot()), key, e, cacheMax)
    {
      var id := |heap|;
      heap := heap + [e];
      if key !in respCache {
        respOrder := respOrder + [key];
      }
      respCache := respCache[key := id];
      ghost var resp0, order0 := respCache, respOrder;
      while 0 < cacheMax < |respOrder|
        invariant heap == old(heap) + [e] && cooldowns == old(cooldowns)
        invariant Evict(resp0, order0, cacheMax) == Evict(respCache, respOrder, cacheMax)
        decreases |respOrder|
      {
        respCache := respCache - {respOrder[0]};
        respOrder := respOrder[1..];
      }
    }

    method DoRequest(net: Net, get: bool, r: Resource, now: int, answer: Option<Answer>) returns (resp: Response)
      requires Valid() && net.max == cacheMax
      modifies this
      ensures Snapshot() == Alone(old(Snapshot()), net, get, r, now, answer).0
      ensures resp == Alone(old(Snapshot()), net, get, r, now, answer).1
    {
      var cdKey := net.hash(r.token);
      if cdKey in cooldowns && now < cooldowns[cdKey] {
        return Refused;
      }
      cooldowns := cooldowns - {cdKey};
      var key := RespCacheKey("GET", r.url, cdKey);
      var cached := None;
      if get && key in respCache {
        cached := Some(respCache[key]);
        if now < heap[respCache[key]].notBefore {
          return Fresh(heap[respCache[key]].rep);
        }
      }
      if answer.None? {
        return Broken;
      }
      resp := Conclude(net, get, r, now, cached, answer.value);
    }

    /** From the moment the answer is read. */
    method Conclude(net: Net, get: bool, r: Resource, now: int, cached: Option<nat>, answer: Answer) returns (resp: Response)
      requires Valid() && net.max == cacheMax && (cached.Some? ==> get && cached.value < |heap|)
      modifies this
      ensures var s := Finished(Sys(old(Snapshot()), now, map[Id(0) := Flight(get, r, now, Answered(cached, now, answer))],
                                    [], [], []), Id(0), net);
        Snapshot() == s.c && resp == if s.delivered != [] then Fresh(s.delivered[0].rep) else Status(Code(answer))
    {
      match answer
      case Denied(status, h) =>
        var until := ParseCooldown(now, status, h);
        if until.Some? {
          cooldowns := cooldowns[net.hash(r.token) := until.value];
        }
        return Status(status);
      case NotModified(h) =>
        if get && cached.Some? {
          var e := heap[cached.value];
          heap := heap[cached.value := e.(notBefore := now + ParsePollInterval(h))];
          return Fresh(e.rep);
        }
        return Status(304);
      case Ok(h) =>
        if !get {
          return Status(200);
        }
        var rep := net.rep(r, now);
        if !h.noStore {
          StoreResp(RespCacheKey("GET", r.url, net.hash(r.token)), Entry(r, rep, now + ParsePollInterval(h)));
        }
        return Fresh(rep);
      case Other(status) => return Status(status);
    }
  }
}
