/** The installation-token cache of internal/github.go (AuthenticateApp).  A refresh appends
    its key to `order` again, so the list may repeat keys that the map holds once. */
module TokenCache {
  import opened Base

  const TOKEN_TTL := 3540

  /** GitHub's lifetime of an installation token. */
  const LIFETIME := 3600

  datatype Key = Key(installation: Id, app: Id)

  datatype Token = Token(value: string, expiresAt: int)

  datatype Cache = Cache(tokens: map<Key, Token>, order: seq<Key>)

  // ---- the two locked sections ----

  function Lookup(c: Cache, key: Key, now: int): Option<string> {
    if key in c.tokens && now < c.tokens[key].expiresAt then Some(c.tokens[key].value) else None
  }

  function Trim(c: Cache, max: nat): Cache
    decreases |c.order|
  {
    if |c.order| > max then Trim(Cache(c.tokens - {c.order[0]}, c.order[1..]), max) else c
  }

  function Remember(c: Cache, key: Key, value: string, now: int, max: nat): Cache {
    Trim(Cache(c.tokens[key := Token(value, now + TOKEN_TTL)], c.order + [key]), max)
  }

  // ---- bounds ----

  ghost predicate Bounded(c: Cache, max: nat) {
    |c.order| <= max && forall k :: k in c.tokens ==> k in c.order
  }

  /** How many list heads a store drops. */
  function Excess(c: Cache, max: nat): nat {
    if |c.order| > max then |c.order| - max else 0
  }

  /** A key survives trimming exactly when none of its occurrences is dropped. */
  lemma {:induction false} TrimKeepsIff(c: Cache, max: nat, k: Key)
    ensures k in Trim(c, max).tokens <==> k in c.tokens && k !in c.order[..Excess(c, max)]
    ensures k in Trim(c, max).tokens ==> Trim(c, max).tokens[k] == c.tokens[k]
    ensures Trim(c, max).order == c.order[Excess(c, max)..]
    decreases |c.order|
  {
    if |c.order| > max {
      var n, rest := Excess(c, max), Cache(c.tokens - {c.order[0]}, c.order[1..]);
      TrimKeepsIff(rest, max, k);
      assert c.order[..n] == [c.order[0]] + rest.order[..n - 1];
      assert rest.order[n - 1..] == c.order[n..];
    }
  }

  /** Keys stay included in the list and the list within its bound. */
  lemma RememberBounded(c: Cache, key: Key, value: string, now: int, max: nat)
    requires Bounded(c, max)
    ensures Bounded(Remember(c, key, value, now, max), max)
  {
    var c1 := Cache(c.tokens[key := Token(value, now + TOKEN_TTL)], c.order + [key]);
    var n := Excess(c1, max);
    TrimKeepsIff(c1, max, key);
    forall k | k in Trim(c1, max).tokens ensures k in Trim(c1, max).order {
      TrimKeepsIff(c1, max, k);
      assert k in c1.order && c1.order == c1.order[..n] + c1.order[n..];
    }
  }

  /** The eviction is by list position, not by age of the token: what was just stored is lost
      exactly when the list is full and its oldest position belongs to the same key. */
  lemma JustStoredIsLostIff(c: Cache, key: Key, value: string, now: int, max: nat)
    requires Bounded(c, max)
    ensures key !in Remember(c, key, value, now, max).tokens <==>
            |c.order| == max && (c.order == [] || c.order[0] == key)
    ensures key in Remember(c, key, value, now, max).tokens ==>
              Remember(c, key, value, now, max).tokens[key] == Token(value, now + TOKEN_TTL)
  {
    var c1 := Cache(c.tokens[key := Token(value, now + TOKEN_TTL)], c.order + [key]);
    TrimKeepsIff(c1, max, key);
    if |c.order| == max {
      assert c1.order[..1] == [c1.order[0]];
    } else {
      assert c1.order[..Excess(c1, max)] == [];
    }
  }

  /** Other keys keep their tokens, except the one at the head of a full list. */
  lemma OthersAreKept(c: Cache, key: Key, value: string, now: int, max: nat, k: Key)
    requires Bounded(c, max) && k != key && k in c.tokens
    ensures k in Remember(c, key, value, now, max).tokens <==> !(|c.order| == max && c.order[0] == k)
    ensures k in Remember(c, key, value, now, max).tokens ==> Remember(c, key, value, now, max).tokens[k] == c.tokens[k]
  {
    var c1 := Cache(c.tokens[key := Token(value, now + TOKEN_TTL)], c.order + [key]);
    TrimKeepsIff(c1, max, k);
    if |c.order| == max {
      assert c1.order[..1] == [c1.order[0]];
    } else {
      assert c1.order[..Excess(c1, max)] == [];
    }
  }

  /** A stored token is handed out again for 3540 seconds, to its own key, unless the store itself
      pushed it out; another key's token stays on its own clock unless it was pushed out. */
  lemma StoredIsServedIff(c: Cache, key: Key, value: string, stored: int, max: nat, k: Key, now: int)
    requires Bounded(c, max)
    ensures var full := |c.order| == max;
      var oldest := if c.order == [] then key else c.order[0];
      var c' := Remember(c, key, value, stored, max);
      && Lookup(c', key, now) == (if !(full && oldest == key) && now < stored + 3540 then Some(value) else None)
      && (k != key ==> Lookup(c', k, now) == if full && oldest == k then None else Lookup(c, k, now))
      && c'.order == (if full then (c.order + [key])[1..] else c.order + [key])
  {
    var c1 := Cache(c.tokens[key := Token(value, stored + TOKEN_TTL)], c.order + [key]);
    JustStoredIsLostIff(c, key, value, stored, max);
    TrimKeepsIff(c1, max, key);
    if k != key {
      TrimKeepsIff(c1, max, k);
      if k in c.tokens {
        OthersAreKept(c, key, value, stored, max, k);
      }
    }
  }

  // ---- any number of callers ----

  /** GitHub issued `value` at one time, the client stored it at another. */
  datatype Issue = Issue(key: Key, value: string, issued: int, stored: int)

  datatype Served = Served(key: Key, value: string, at: int)

  datatype Sys = Sys(c: Cache, clock: int, log: seq<Issue>, served: seq<Served>)

  /** Callers run their two sections in any order; issuing needs no lock. */
  datatype Event = Wait(seconds: nat) | Ask(key: Key) | Keep(key: Key, value: string, issued: int)

  function Next(s: Sys, e: Event, max: nat): Sys {
    match e
    case Wait(n) => s.(clock := s.clock + n)
    case Ask(key) =>
      var hit := Lookup(s.c, key, s.clock);
      if hit.None? then s else s.(served := s.served + [Served(key, hit.value, s.clock)])
    case Keep(key, value, issued) =>
      s.(c := Remember(s.c, key, value, s.clock, max), log := s.log + [Issue(key, value, issued, s.clock)])
  }

  ghost predicate Backed(key: Key, value: string, until: int, log: seq<Issue>) {
    exists i :: 0 <= i < |log| && log[i].key == key && log[i].value == value && until <= log[i].stored + TOKEN_TTL
  }

  ghost predicate Inv(s: Sys, max: nat) {
    && Bounded(s.c, max)
    && (forall k :: k in s.c.tokens ==> Backed(k, s.c.tokens[k].value, s.c.tokens[k].expiresAt, s.log))
    && (forall v :: v in s.served ==> Backed(v.key, v.value, v.at + 1, s.log))
  }

  lemma BackedLater(key: Key, value: string, until: int, log: seq<Issue>, i: Issue)
    requires Backed(key, value, until, log)
    ensures Backed(key, value, until, log + [i])
  {
    var n :| 0 <= n < |log| && log[n].key == key && log[n].value == value && until <= log[n].stored + TOKEN_TTL;
    assert (log + [i])[n] == log[n];
  }

  lemma KeepKeeps(s: Sys, key: Key, value: string, issued: int, max: nat)
    requires Inv(s, max)
    ensures Inv(Next(s, Keep(key, value, issued), max), max)
  {
    var s' := Next(s, Keep(key, value, issued), max);
    var i := Issue(key, value, issued, s.clock);
    RememberBounded(s.c, key, value, s.clock, max);
    assert s'.log[|s.log|] == i;
    var c1 := Cache(s.c.tokens[key := Token(value, s.clock + TOKEN_TTL)], s.c.order + [key]);
    forall k | k in s'.c.tokens ensures Backed(k, s'.c.tokens[k].value, s'.c.tokens[k].expiresAt, s'.log) {
      TrimKeepsIff(c1, max, k);
      if k != key {
        BackedLater(k, s.c.tokens[k].value, s.c.tokens[k].expiresAt, s.log, i);
      }
    }
    forall v | v in s'.served ensures Backed(v.key, v.value, v.at + 1, s'.log) {
      BackedLater(v.key, v.value, v.at + 1, s.log, i);
    }
  }

  lemma AskKeeps(s: Sys, key: Key, max: nat)
    requires Inv(s, max)
    ensures Inv(Next(s, Ask(key), max), max)
  {
  }

  function Exec(s: Sys, es: seq<Event>, max: nat): Sys
    decreases |es|
  {
    if es == [] then s else Exec(Next(s, es[0], max), es[1..], max)
  }

  lemma {:induction false} ExecKeeps(s: Sys, es: seq<Event>, max: nat)
    requires Inv(s, max)
    ensures Inv(Exec(s, es, max), max)
    decreases |es|
  {
    if es != [] {
      match es[0] {
        case Wait(n) =>
        case Ask(key) => AskKeeps(s, key, max);
        case Keep(key, value, issued) => KeepKeeps(s, key, value, issued, max);
      }
      ExecKeeps(Next(s, es[0], max), es[1..], max);
    }
  }

  /** Whatever the interleaving: a served token was issued to the same installation and app and
      stored less than 59 minutes before, so GitHub still honours it if storing it took no
      more than the minute of slack; and the cache stays within its bound. */
  lemma ServedTokensAreValid(es: seq<Event>, start: int, max: nat, v: Served)
    returns (i: Issue)
    requires v in Exec(Sys(Cache(map[], []), start, [], []), es, max).served
    ensures i in Exec(Sys(Cache(map[], []), start, [], []), es, max).log
    ensures i.key == v.key && i.value == v.value && v.at < i.stored + TOKEN_TTL
    ensures i.stored - i.issued <= LIFETIME - TOKEN_TTL ==> v.at < i.issued + LIFETIME
    ensures |Exec(Sys(Cache(map[], []), start, [], []), es, max).c.order| <= max
  {
    var s := Exec(Sys(Cache(map[], []), start, [], []), es, max);
    ExecKeeps(Sys(Cache(map[], []), start, [], []), es, max);
    assert Backed(v.key, v.value, v.at + 1, s.log);
    var n :| 0 <= n < |s.log| && s.log[n].key == v.key && s.log[n].value == v.value
             && v.at + 1 <= s.log[n].stored + TOKEN_TTL;
    i := s.log[n];
  }

  // ---- the client ----

  class TokenStore {
    const max: nat
    var tokens: map<Key, Token>
    var order: seq<Key>

    constructor (max: nat)
      ensures this.max == max && View() == Cache(map[], [])
    {
      this.max, tokens, order := max, map[], [];
    }

    ghost function View(): Cache reads this { Cache(tokens, order) }

    /** `answer` is GitHub's reply, None when it refused; it is stored at `later`. */
    method AuthenticateApp(key: Key, now: int, later: int, answer: Option<string>) returns (token: Option<string>)
      modifies this
      ensures var hit := Lookup(old(View()), key, now);
        && token == Coalesce(hit, answer)
        && View() == if hit.Some? || answer.None? then old(View())
                     else Remember(old(View()), key, answer.value, later, max)
    {
      if key in tokens && now < tokens[key].expiresAt {
        return Some(tokens[key].value);
      }
      if answer.None? {
        return None;
      }
      tokens := tokens[key := Token(answer.value, later + TOKEN_TTL)];
      order := order + [key];
      ghost var c1 := View();
      while |order| > max
        invariant Trim(c1, max) == Trim(View(), max)
        decreases |order|
      {
        tokens := tokens - {order[0]};
        order := order[1..];
      }
      return answer;
    }
  }
}
