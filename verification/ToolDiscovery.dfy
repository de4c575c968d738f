/** Discovering the tools of remote servers: the cache, the key it is kept under, and the retries. */
module ToolDiscovery {
  import opened Messages
  import opened Decimal

  datatype Server = Server(
    name: string, transport: string, url: string, authorization: string, timeout: nat, command: string,
    arguments: seq<string>, environment: seq<string>, workingDirectory: string, connectionId: string)

  // ---------------------------------------------------------------------------------------
  // The cache key.
  // ---------------------------------------------------------------------------------------

  const FIELD: char := '\U{0000}'
  const ITEM: char := '\U{001F}'

  function Joined(items: seq<string>): string {
    if items == [] then ""
    else if |items| == 1 then items[0]
    else items[0] + [ITEM] + Joined(items[1..])
  }

  function Fields(server: Server): seq<string> {
    [server.name, server.transport, server.url, server.authorization, Digits(server.timeout), server.command,
     Joined(server.arguments), Joined(server.environment), server.workingDirectory]
  }

  function Separated(fields: seq<string>): string
    requires fields != []
  {
    if |fields| == 1 then fields[0] else fields[0] + [FIELD] + Separated(fields[1..])
  }

  function Signature(server: Server): string {
    Separated(Fields(server))
  }

  ghost predicate SameConfiguration(a: Server, b: Server) {
    a.(connectionId := "") == b.(connectionId := "")
  }

  /** A list as the key tells it: a lone empty item looks like no item. */
  function Told(items: seq<string>): seq<string> {
    if items == [""] then [] else items
  }

  function ToldServer(server: Server): Server {
    server.(arguments := Told(server.arguments), environment := Told(server.environment))
  }

  ghost predicate PlainList(items: seq<string>) {
    forall i :: 0 <= i < |items| ==> ITEM !in items[i] && FIELD !in items[i]
  }

  /** No field or item holds a separator, the last field aside. */
  ghost predicate Plain(server: Server) {
    FIELD !in server.name && FIELD !in server.transport && FIELD !in server.url && FIELD !in server.authorization &&
    FIELD !in server.command && PlainList(server.arguments) && PlainList(server.environment)
  }

  lemma {:induction false} SeparatorSplits(separator: char, a: string, b: string, c: string, d: string)
    requires a + [separator] + b == c + [separator] + d && separator !in a && separator !in c
    ensures a == c && b == d
  {
    var all := a + [separator] + b;
    assert all[|a|] == separator && all[|c|] == separator;
    assert forall i :: 0 <= i < |a| ==> all[i] == a[i] && all[i] != separator;
    assert forall i :: 0 <= i < |c| ==> all[i] == c[i] && all[i] != separator;
    assert a == all[..|a|] && c == all[..|c|];
    assert b == all[|a| + 1..] && d == all[|c| + 1..];
  }

  lemma {:induction false} SeparatedIsInjective(a: seq<string>, b: seq<string>)
    requires |a| == |b| > 0 && Separated(a) == Separated(b)
    requires forall i :: 0 <= i < |a| - 1 ==> FIELD !in a[i] && FIELD !in b[i]
    ensures a == b
  {
    if |a| > 1 {
      SeparatorSplits(FIELD, a[0], Separated(a[1..]), b[0], Separated(b[1..]));
      SeparatedIsInjective(a[1..], b[1..]);
      assert a == [a[0]] + a[1..] && b == [b[0]] + b[1..];
    }
  }

  lemma {:induction false} JoinedIsInjective(a: seq<string>, b: seq<string>)
    requires Joined(a) == Joined(b) && a != [] && b != []
    requires forall i :: 0 <= i < |a| ==> ITEM !in a[i]
    requires forall i :: 0 <= i < |b| ==> ITEM !in b[i]
    ensures a == b
  {
    assert |a| > 1 ==> Joined(a)[|a[0]|] == ITEM;
    assert |b| > 1 ==> Joined(b)[|b[0]|] == ITEM;
    if |a| > 1 && |b| > 1 {
      SeparatorSplits(ITEM, a[0], Joined(a[1..]), b[0], Joined(b[1..]));
      JoinedIsInjective(a[1..], b[1..]);
      assert a == [a[0]] + a[1..] && b == [b[0]] + b[1..];
    } else {
      assert |a| == 1 && |b| == 1;
      assert a == [a[0]] && b == [b[0]];
    }
  }

  lemma {:induction false} JoinedOfPlain(a: seq<string>, b: seq<string>)
    requires PlainList(a) && PlainList(b)
    ensures Joined(a) == Joined(b) <==> Told(a) == Told(b)
  {
    JoinedIsEmpty(a);
    JoinedIsEmpty(b);
    if a != [] && b != [] && Joined(a) == Joined(b) {
      JoinedIsInjective(a, b);
    }
  }

  lemma {:induction false} JoinedIsEmpty(items: seq<string>)
    ensures Joined(items) == "" <==> items == [] || items == [""]
  {
    if |items| == 1 { assert items == [items[0]]; }
  }

  lemma {:induction false} JoinedHoldsNoField(items: seq<string>)
    requires forall i :: 0 <= i < |items| ==> FIELD !in items[i]
    ensures FIELD !in Joined(items)
  {
    if |items| > 1 { JoinedHoldsNoField(items[1..]); }
  }

  lemma {:induction false} FieldsHoldNoSeparator(server: Server)
    requires Plain(server)
    ensures forall i :: 0 <= i < |Fields(server)| - 1 ==> FIELD !in Fields(server)[i]
  {
    DigitsAreDigits(server.timeout, FIELD);
    JoinedHoldsNoField(server.arguments);
    JoinedHoldsNoField(server.environment);
  }

  /** Configurations without separators share a key if and only if they differ at most in their connection
      and in saying one empty argument or variable for none. */
  lemma {:induction false} SignatureIdentifiesConfiguration(a: Server, b: Server)
    requires Plain(a) && Plain(b)
    ensures Signature(a) == Signature(b) <==> SameConfiguration(ToldServer(a), ToldServer(b))
  {
    FieldsAgree(a, b);
    if Signature(a) == Signature(b) {
      FieldsHoldNoSeparator(a);
      FieldsHoldNoSeparator(b);
      SeparatedIsInjective(Fields(a), Fields(b));
    }
  }

  lemma {:induction false} FieldsAgree(a: Server, b: Server)
    requires Plain(a) && Plain(b)
    ensures Fields(a) == Fields(b) <==> SameConfiguration(ToldServer(a), ToldServer(b))
  {
    var f, g := Fields(a), Fields(b);
    JoinedOfPlain(a.arguments, b.arguments);
    JoinedOfPlain(a.environment, b.environment);
    if f == g {
      assert f[0] == g[0] && f[1] == g[1] && f[2] == g[2] && f[3] == g[3] && f[4] == g[4];
      assert f[5] == g[5] && f[6] == g[6] && f[7] == g[7] && f[8] == g[8];
      DigitsAreInjective(a.timeout, b.timeout);
    }
  }

  // ---------------------------------------------------------------------------------------
  // Probing.
  // ---------------------------------------------------------------------------------------

  datatype Error = Cancelled | DeadlineExceeded | HttpStatus(code: int) | RpcError | NetworkError | OtherError

  predicate IsRetryable(error: Error) {
    match error
    case Cancelled => false
    case DeadlineExceeded => false
    case HttpStatus(code) =>
      code == 408 || code == 425 || code == 429 || code == 500 || code == 502 || code == 503 || code == 504
    case RpcError => false
    case NetworkError => true
    case OtherError => true
  }

  /** Failures worth another attempt: of the connection, of an unknown kind, or these answers of the server. */
  lemma {:induction false} RetriedErrors(error: Error)
    ensures IsRetryable(error) <==>
      error.NetworkError? || error.OtherError? ||
      (error.HttpStatus? && error.code in {408, 425, 429, 500, 502, 503, 504})
  {
  }

  datatype Probed = Tools(tools: seq<string>) | NoTools(error: Error)

  /** What each attempt gives, whether the wait before it is cut short, and whether the caller has gone
      by the time it has failed. */
  datatype World = World(attempt: nat -> Probed, interrupted: nat -> bool, gone: nat -> bool, reason: Error)

  function Power(n: nat): nat {
    if n == 0 then 1 else 2 * Power(n - 1)
  }

  /** Attempt `k` is made and its failure is one to retry. */
  ghost predicate Retried(world: World, k: nat) {
    world.attempt(k).NoTools? && !world.gone(k) && IsRetryable(world.attempt(k).error)
  }

  /** `probed` is what `tries` attempts give: each but the last is one to retry, and the last is not, or is the
      last allowed, or the wait behind it is cut short. `waited` is what the waits that were begun add up to. */
  ghost predicate IsProbe(world: World, attempts: nat, base: nat, probed: Probed, tries: nat, waited: nat) {
    tries <= attempts && (attempts > 0 ==> tries > 0) &&
    (forall k :: 0 <= k < tries - 1 ==> Retried(world, k) && !world.interrupted(k + 1)) &&
    (attempts == 0 ==> probed == Tools([]) && waited == 0) &&
    (tries > 0 ==>
      var last := world.attempt(tries - 1);
      if !Retried(world, tries - 1) then
        probed == (if last.NoTools? && world.gone(tries - 1) then NoTools(world.reason) else last) &&
        waited == base * (Power(tries - 1) - 1)
      else if tries == attempts then probed == last && waited == base * (Power(tries - 1) - 1)
      else
        world.interrupted(tries) && probed == NoTools(world.reason) && waited == base * (Power(tries) - 1))
  }

  /** Attempts are made until one is not to be retried, and no two without the full wait between them. */
  method Probe(world: World, attempts: nat, base: nat) returns (probed: Probed, tries: nat, waited: nat)
    ensures IsProbe(world, attempts, base, probed, tries, waited)
    ensures waited <= base * (Power(if attempts == 0 then 0 else attempts - 1) - 1)
  {
    tries, waited := 0, 0;
    probed := Tools([]);
    while tries < attempts
      invariant tries <= attempts
      invariant forall k :: 0 <= k < tries ==> Retried(world, k)
      invariant forall k :: 0 < k < tries ==> !world.interrupted(k)
      invariant waited == base * (Power(if tries == 0 then 0 else tries - 1) - 1)
      invariant probed == if tries == 0 then Tools([]) else world.attempt(tries - 1)
    {
      if tries > 0 {
        var backoff := base * Power(tries - 1);
        WaitsAddUp(base, tries);
        PowerGrows(tries, attempts - 1);
        TimesGrows(base, Power(tries) - 1, Power(attempts - 1) - 1);
        waited := waited + backoff;
        if world.interrupted(tries) {
          assert Retried(world, tries - 1);
          return NoTools(world.reason), tries, waited;
        }
      }
      probed := world.attempt(tries);
      tries := tries + 1;
      PowerGrows(tries - 1, attempts - 1);
      TimesGrows(base, Power(tries - 1) - 1, Power(attempts - 1) - 1);
      if probed.Tools? {
        return;
      }
      if world.gone(tries - 1) {
        return NoTools(world.reason), tries, waited;
      }
      if !IsRetryable(probed.error) {
        return;
      }
    }
  }

  lemma {:induction false} WaitsAddUp(base: nat, tries: nat)
    requires tries > 0
    ensures base * (Power(tries - 1) - 1) + base * Power(tries - 1) == base * (Power(tries) - 1)
  {
    var p := Power(tries - 1);
    assert Power(tries) == p + p;
  }

  lemma {:induction false} PowerGrows(low: nat, high: nat)
    requires low <= high
    ensures 1 <= Power(low) <= Power(high)
    decreases high
  {
    if low < high { PowerGrows(low, high - 1); } else if low > 0 { PowerGrows(low - 1, low - 1); }
  }

  lemma {:induction false} TimesGrows(base: nat, a: int, b: int)
    requires a <= b
    ensures base * a <= base * b
  {
  }

  // ---------------------------------------------------------------------------------------
  // The cache.
  // ---------------------------------------------------------------------------------------

  datatype CacheEntry = CacheEntry(tools: seq<string>, expiresAt: int)

  /** A successful probe, with the time its result was kept. */
  datatype Success = Success(server: Server, tools: seq<string>, at: int)

  ghost predicate Backed(key: string, entry: CacheEntry, successes: seq<Success>, ttl: int, now: int) {
    exists i :: 0 <= i < |successes| && Signature(successes[i].server) == key && successes[i].tools == entry.tools &&
      successes[i].at + ttl == entry.expiresAt && successes[i].at <= now
  }

  class Manager {
    const ttl: int
    var cache: map<string, CacheEntry>
    ghost var successes: seq<Success>
    ghost var clock: int

    ghost predicate Valid()
      reads this
    {
      forall key :: key in cache ==> Backed(key, cache[key], successes, ttl, clock)
    }

    constructor (ttl: int, now: int)
      ensures Valid() && this.ttl == ttl && clock == now && successes == []
    {
      this.ttl, cache, successes, clock := ttl, map[], [], now;
    }

    /** The first locked section of a discovery. */
    method Lookup(server: Server, now: int) returns (found: Option<seq<string>>)
      requires Valid() && clock <= now
      modifies this`clock
      ensures Valid() && clock == now
      ensures found.Some? ==>
        exists i :: 0 <= i < |successes| && Signature(successes[i].server) == Signature(server) &&
          successes[i].tools == found.value && successes[i].at <= now < successes[i].at + ttl
      ensures found.Some? <==> Signature(server) in cache && now < cache[Signature(server)].expiresAt
      ensures found.Some? ==> found.value == cache[Signature(server)].tools
    {
      var signature := Signature(server);
      found := None;
      if signature in cache && now < cache[signature].expiresAt {
        found := Some(cache[signature].tools);
        assert Backed(signature, cache[signature], successes, ttl, clock);
        ghost var i :| 0 <= i < |successes| && Signature(successes[i].server) == signature &&
          successes[i].tools == found.value && successes[i].at + ttl == cache[signature].expiresAt &&
          successes[i].at <= clock;
        assert Signature(successes[i].server) == Signature(server) && successes[i].at <= now < successes[i].at + ttl;
      }
      clock := now;
    }

    /** The second locked section, behind a successful probe; others may have run in between. */
    method Keep(server: Server, tools: seq<string>, now: int)
      requires Valid() && clock <= now
      modifies this
      ensures Valid() && clock == now && successes == old(successes) + [Success(server, tools, now)]
      ensures cache == old(cache)[Signature(server) := CacheEntry(tools, now + ttl)]
    {
      cache := cache[Signature(server) := CacheEntry(tools, now + ttl)];
      successes := successes + [Success(server, tools, now)];
      clock := now;
      forall key | key in cache ensures Backed(key, cache[key], successes, ttl, clock) {
        if key == Signature(server) {
          assert successes[|successes| - 1] == Success(server, tools, now);
        } else {
          assert Backed(key, old(cache)[key], old(successes), ttl, old(clock));
          var i :| 0 <= i < |old(successes)| && Signature(old(successes)[i].server) == key &&
            old(successes)[i].tools == old(cache)[key].tools &&
            old(successes)[i].at + ttl == old(cache)[key].expiresAt &&
            old(successes)[i].at <= old(clock);
          assert successes[i] == old(successes)[i];
        }
      }
    }

    /** One discovery at a time. A cached answer is that of a successful probe of the same configuration,
        less than one lifetime ago; any other answer is the probe's own. */
    method Discover(server: Server, world: World, attempts: nat, base: nat, now: int, later: int)
      returns (probed: Probed, cached: bool, ghost tries: nat, ghost waited: nat)
      requires Valid() && clock <= now <= later
      modifies this
      ensures Valid()
      ensures cached <==> Signature(server) in old(cache) && now < old(cache)[Signature(server)].expiresAt
      ensures cached ==>
        probed == Tools(old(cache)[Signature(server)].tools) && successes == old(successes) && cache == old(cache)
      ensures !cached ==> IsProbe(world, attempts, base, probed, tries, waited)
      ensures cached ==>
        exists i :: 0 <= i < |successes| && Signature(successes[i].server) == Signature(server) &&
          successes[i].tools == probed.tools && successes[i].at <= now < successes[i].at + ttl
      ensures !cached && probed.Tools? ==>
        successes == old(successes) + [Success(server, probed.tools, later)] &&
        cache == old(cache)[Signature(server) := CacheEntry(probed.tools, later + ttl)]
      ensures !cached && probed.NoTools? ==> successes == old(successes) && cache == old(cache)
    {
      tries, waited := 0, 0;
      var found := Lookup(server, now);
      if found.Some? {
        probed, cached := Tools(found.value), true;
        return;
      }
      var count, total;
      probed, count, total := Probe(world, attempts, base);
      tries, waited := count, total;
      cached := false;
      if probed.Tools? {
        Keep(server, probed.tools, later);
      }
    }
  }
}
