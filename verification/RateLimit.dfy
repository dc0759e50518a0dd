/** The fixed-window limiter: what a key's callers get, and what the periodic cleanup may not change. */
module RateLimit {
  import opened Basics

  datatype Entry = Entry(count: int, resetAt: int)

  datatype Rule = Rule(limit: nat, window: nat)

  type Table = map<string, Entry>

  function Lookup(t: Table, key: string): Option<Entry> {
    if key in t then Some(t[key]) else None
  }

  /** The entry that still decides at a time; a window that is over decides nothing. */
  function Live(e: Option<Entry>, now: int): Option<Entry> {
    if e.Some? && now <= e.value.resetAt then e else None
  }

  /** What a call leaves behind, admitted or not. */
  function Charge(e: Option<Entry>, rule: Rule, now: int): Entry {
    match Live(e, now)
    case None => Entry(1, now + rule.window)
    case Some(w) => w.(count := w.count + 1)
  }

  predicate Admits(e: Option<Entry>, rule: Rule, now: int) {
    match Live(e, now)
    case None => true
    case Some(w) => w.count < rule.limit
  }

  function Swept(t: Table, now: int): Table {
    map key | key in t && now <= t[key].resetAt :: t[key]
  }

  function CeilSeconds(ms: int): int { -((-ms) / 1000) }

  /** Seconds a refused caller is told to wait (section 10.2.3 of RFC 9110). */
  function RetryAfter(e: Option<Entry>, rule: Rule, now: int): int {
    if e.Some? && e.value.resetAt != 0
    then var wait := CeilSeconds(e.value.resetAt - now); if wait > 1 then wait else 1
    else CeilSeconds(rule.window)
  }

  // ---- Runs ----------------------------------------------------------------

  datatype Event = Attempt(key: string, now: int) | Sweep(now: int)

  function Serve(t: Table, e: Event, rule: Rule): Table {
    match e
    case Attempt(key, now) => t[key := Charge(Lookup(t, key), rule, now)]
    case Sweep(now) => Swept(t, now)
  }

  /** The answers one key gets in a run that mixes calls of all keys with cleanups. */
  function Answers(t: Table, events: seq<Event>, rule: Rule, key: string): seq<bool>
    decreases |events|
  {
    if events == [] then []
    else (if events[0].Attempt? && events[0].key == key then [Admits(Lookup(t, key), rule, events[0].now)] else [])
         + Answers(Serve(t, events[0], rule), events[1..], rule, key)
  }

  function TimesOf(events: seq<Event>, key: string): seq<int> {
    if events == [] then []
    else (if events[0].Attempt? && events[0].key == key then [events[0].now] else []) + TimesOf(events[1..], key)
  }

  /** A limiter that serves one key, and never cleans up. */
  function OwnAnswers(e: Option<Entry>, times: seq<int>, rule: Rule): seq<bool>
    decreases |times|
  {
    if times == [] then []
    else [Admits(e, rule, times[0])] + OwnAnswers(Some(Charge(e, rule, times[0])), times[1..], rule)
  }

  predicate ClockFrom(from: int, events: seq<Event>)
    decreases |events|
  {
    events == [] || (from <= events[0].now && ClockFrom(events[0].now, events[1..]))
  }

  predicate TimesFrom(from: int, times: seq<int>)
    decreases |times|
  {
    times == [] || (from <= times[0] && TimesFrom(times[0], times[1..]))
  }

  /**
   The cleanup never changes a decision, and keys do not influence each other: whatever is mixed in, a key gets
   the answers of a limiter that serves it alone.
   */
  lemma {:induction false} KeysAreIndependent(t: Table, e: Option<Entry>, events: seq<Event>, rule: Rule, key: string,
                                              from: int)
    requires ClockFrom(from, events) && Live(Lookup(t, key), from) == Live(e, from)
    ensures Answers(t, events, rule, key) == OwnAnswers(e, TimesOf(events, key), rule)
    decreases |events|
  {
    if events == [] {
    } else {
      var first, rest := events[0], events[1..];
      var u := Serve(t, first, rule);
      assert Live(Lookup(t, key), first.now) == Live(e, first.now);
      if first.Attempt? && first.key == key {
        assert TimesOf(events, key) == [first.now] + TimesOf(rest, key);
        assert TimesOf(events, key)[1..] == TimesOf(rest, key);
        KeysAreIndependent(u, Some(Charge(e, rule, first.now)), rest, rule, key, first.now);
      } else {
        assert TimesOf(events, key) == TimesOf(rest, key);
        KeysAreIndependent(u, e, rest, rule, key, first.now);
      }
    }
  }

  // ---- The window bound ----------------------------------------------------

  function AdmittedWithin(e: Option<Entry>, times: seq<int>, rule: Rule, lo: int, hi: int): nat
    decreases |times|
  {
    if times == [] then 0
    else (if Admits(e, rule, times[0]) && lo <= times[0] <= hi then 1 else 0)
         + AdmittedWithin(Some(Charge(e, rule, times[0])), times[1..], rule, lo, hi)
  }

  function AtLeast(a: int, b: int): int { if a < b then b else a }

  /** What a window admits besides the call that opens it. */
  function Remaining(e: Entry, rule: Rule): nat { AtLeast(rule.limit - e.count, 0) }

  lemma {:induction false} NothingAfter(e: Option<Entry>, times: seq<int>, rule: Rule, lo: int, hi: int, from: int)
    requires TimesFrom(from, times) && from > hi
    ensures AdmittedWithin(e, times, rule, lo, hi) == 0
    decreases |times|
  {
    if times != [] { NothingAfter(Some(Charge(e, rule, times[0])), times[1..], rule, lo, hi, times[0]); }
  }

  lemma {:induction false} InOneWindow(e: Entry, times: seq<int>, rule: Rule, lo: int, hi: int, from: int)
    requires TimesFrom(from, times) && hi <= e.resetAt
    ensures AdmittedWithin(Some(e), times, rule, lo, hi) <= Remaining(e, rule)
    decreases |times|
  {
    if times == [] {
    } else if times[0] <= e.resetAt {
      InOneWindow(Charge(Some(e), rule, times[0]), times[1..], rule, lo, hi, times[0]);
    } else {
      NothingAfter(Some(e), times, rule, lo, hi, times[0]);
    }
  }

  lemma {:induction false} InTwoWindows(e: Entry, times: seq<int>, rule: Rule, lo: int, hi: int, from: int)
    requires lo <= from && TimesFrom(from, times) && hi <= lo + rule.window
    ensures AdmittedWithin(Some(e), times, rule, lo, hi) <= Remaining(e, rule) + AtLeast(1, rule.limit)
    decreases |times|
  {
    if times == [] {
    } else {
      var next := Charge(Some(e), rule, times[0]);
      if times[0] <= e.resetAt {
        InTwoWindows(next, times[1..], rule, lo, hi, times[0]);
      } else {
        InOneWindow(next, times[1..], rule, lo, hi, times[0]);
      }
    }
  }

  /**
   In any interval as long as the window, both ends included, a key gets at most 2L - 1 admissions (one if L is 0):
   what is left of a window opened before, and one more window.
   */
  lemma {:induction false} WindowBound(e: Option<Entry>, times: seq<int>, rule: Rule, lo: int, from: int)
    requires TimesFrom(from, times) && (e.Some? ==> e.value.count >= 1)
    ensures AdmittedWithin(e, times, rule, lo, lo + rule.window) <= AtLeast(1, 2 * rule.limit - 1)
    decreases |times|
  {
    if times == [] {
    } else {
      var next := Charge(e, rule, times[0]);
      if times[0] < lo {
        WindowBound(Some(next), times[1..], rule, lo, times[0]);
      } else if e.Some? {
        InTwoWindows(e.value, times, rule, lo, lo + rule.window, times[0]);
      } else {
        InOneWindow(next, times[1..], rule, lo, lo + rule.window, times[0]);
      }
    }
  }

  /** How many answers are admissions at a time in the interval. */
  function CountWithin(answers: seq<bool>, times: seq<int>, lo: int, hi: int): nat {
    if answers == [] || times == [] then 0
    else (if answers[0] && lo <= times[0] <= hi then 1 else 0) + CountWithin(answers[1..], times[1..], lo, hi)
  }

  lemma {:induction false} AdmissionsAreAnswers(e: Option<Entry>, times: seq<int>, rule: Rule, lo: int, hi: int)
    ensures CountWithin(OwnAnswers(e, times, rule), times, lo, hi) == AdmittedWithin(e, times, rule, lo, hi)
    decreases |times|
  {
    if times != [] {
      var next := Some(Charge(e, rule, times[0]));
      AdmissionsAreAnswers(next, times[1..], rule, lo, hi);
      assert OwnAnswers(e, times, rule)[1..] == OwnAnswers(next, times[1..], rule);
    }
  }

  lemma {:induction false} TimesOfAreOrdered(events: seq<Event>, key: string, from: int, base: int)
    requires ClockFrom(from, events) && base <= from
    ensures TimesFrom(base, TimesOf(events, key))
    decreases |events|
  {
    if events != [] {
      if events[0].Attempt? && events[0].key == key {
        TimesOfAreOrdered(events[1..], key, events[0].now, events[0].now);
        assert TimesOf(events, key)[1..] == TimesOf(events[1..], key);
      } else {
        TimesOfAreOrdered(events[1..], key, events[0].now, base);
        assert TimesOf(events, key) == TimesOf(events[1..], key);
      }
    }
  }

  /** The same bound for a key of a limiter that serves any mixture of keys and is cleaned up at any time. */
  lemma EveryRunIsBounded(events: seq<Event>, rule: Rule, key: string, lo: int, from: int)
    requires ClockFrom(from, events)
    ensures CountWithin(Answers(map[], events, rule, key), TimesOf(events, key), lo, lo + rule.window)
            <= AtLeast(1, 2 * rule.limit - 1)
  {
    KeysAreIndependent(map[], None, events, rule, key, from);
    TimesOfAreOrdered(events, key, from, from);
    AdmissionsAreAnswers(None, TimesOf(events, key), rule, lo, lo + rule.window);
    WindowBound(None, TimesOf(events, key), rule, lo, from);
  }

  function Repeat(time: int, n: nat): seq<int> { seq(n, _ => time) }

  lemma {:induction false} BurstIsAdmitted(e: Entry, time: int, n: nat, rest: seq<int>, rule: Rule, lo: int, hi: int)
    requires time <= e.resetAt && e.count + n <= rule.limit && lo <= time <= hi
    ensures AdmittedWithin(Some(e), Repeat(time, n) + rest, rule, lo, hi)
            == n + AdmittedWithin(Some(e.(count := e.count + n)), rest, rule, lo, hi)
    decreases n
  {
    var times := Repeat(time, n) + rest;
    if n == 0 {
      assert times == rest;
    } else {
      assert times[0] == time && times[1..] == Repeat(time, n - 1) + rest;
      BurstIsAdmitted(e.(count := e.count + 1), time, n - 1, rest, rule, lo, hi);
    }
  }

  /** What a window of this limit has room for besides its first call. */
  function Room(rule: Rule): nat { if rule.limit == 0 then 0 else rule.limit - 1 }

  /**
   The bound is reached, for every limit: open a window, spend the rest of it at its end, and the next one just after.
   A limit of 0 reaches it too, as it lets the first call of each window through, and that call only.
   */
  lemma WindowBoundIsTight(rule: Rule)
    requires rule.window >= 1
    ensures var w, n := rule.window, Room(rule);
      AdmittedWithin(None, [0] + (Repeat(w, n) + ([w + 1] + (Repeat(w + 1, n) + []))), rule, w, w + w)
      == AtLeast(1, 2 * rule.limit - 1)
    ensures forall now :: Admits(None, rule, now)
                          && (rule.limit <= 1 ==> !Admits(Some(Charge(None, rule, now)), rule, now))
  {
    var w, n := rule.window, Room(rule);
    var last := Repeat(w + 1, n) + [];
    var middle := [w + 1] + last;
    assert middle[1..] == last;
    var all := [0] + (Repeat(w, n) + middle);
    assert all[1..] == Repeat(w, n) + middle;
    if rule.limit == 0 {
      assert all[1..] == [w + 1] && [w + 1][1..] == [];
      var first := Some(Charge(None, rule, 0));
      var again := Some(Charge(first, rule, w + 1));
      assert AdmittedWithin(again, [], rule, w, w + w) == 0;
      assert AdmittedWithin(first, [w + 1], rule, w, w + w) == 1;
    } else {
      BurstIsAdmitted(Entry(1, w), w, n, middle, rule, w, w + w);
      BurstIsAdmitted(Entry(1, w + 1 + w), w + 1, n, [], rule, w, w + w);
    }
  }

  // ---- Retry-After ---------------------------------------------------------

  function Served(t: Table, events: seq<Event>, rule: Rule): Table
    decreases |events|
  {
    if events == [] then t else Served(Serve(t, events[0], rule), events[1..], rule)
  }

  /** The time of the last event. */
  function Latest(from: int, events: seq<Event>): int
    decreases |events|
  {
    if events == [] then from else Latest(events[0].now, events[1..])
  }

  /** No window reaches further than one window from now, and none ended before the clock began. */
  predicate Recent(t: Table, rule: Rule, now: int) {
    forall key :: key in t ==> 0 < t[key].resetAt <= now + rule.window
  }

  lemma {:induction false} ServedIsRecent(t: Table, events: seq<Event>, rule: Rule, from: int)
    requires 0 < from && ClockFrom(from, events) && Recent(t, rule, from)
    ensures Recent(Served(t, events, rule), rule, Latest(from, events)) && from <= Latest(from, events)
    decreases |events|
  {
    if events != [] { ServedIsRecent(Serve(t, events[0], rule), events[1..], rule, events[0].now); }
  }

  lemma RefusalWait(e: Entry, rule: Rule, now: int, again: int)
    requires !Admits(Some(e), rule, now) && 0 < e.resetAt <= now + rule.window
    ensures var wait := RetryAfter(Some(Charge(Some(e), rule, now)), rule, now);
      && 1 <= wait && (rule.window > 0 ==> wait <= CeilSeconds(rule.window))
      && (again > now + 1000 * wait ==> Admits(Some(Charge(Some(e), rule, now)), rule, again))
      && (Admits(Some(Charge(Some(e), rule, now)), rule, now + 1000 * wait)
          <==> e.resetAt == now || (e.resetAt - now) % 1000 != 0)
  {
  }

  /**
   For a caller refused after any run of calls and cleanups on a positive clock: the announced wait is between one
   second and the whole window; a caller that waits longer is admitted; one that comes back exactly then is still
   refused just when the remaining time was a whole number of seconds.
   */
  lemma RetryAfterIsEnough(events: seq<Event>, rule: Rule, from: int, key: string, now: int, again: int)
    requires 0 < from && ClockFrom(from, events) && Latest(from, events) <= now
    requires !Admits(Lookup(Served(map[], events, rule), key), rule, now)
    ensures var e := Lookup(Served(map[], events, rule), key);
      var charged := Some(Charge(e, rule, now));
      var wait := RetryAfter(charged, rule, now);
      && e.Some? && 1 <= wait && (rule.window > 0 ==> wait <= CeilSeconds(rule.window))
      && (again > now + 1000 * wait ==> Admits(charged, rule, again))
      && (Admits(charged, rule, now + 1000 * wait) <==> e.value.resetAt == now || (e.value.resetAt - now) % 1000 != 0)
  {
    ServedIsRecent(map[], events, rule, from);
    hide RetryAfter, Charge;
    RefusalWait(Served(map[], events, rule)[key], rule, now, again);
  }

  // ---- The tables in place -------------------------------------------------

  /** One table of the gateway, updated in place. */
  class Limiter {
    const rule: Rule
    var entries: Table

    constructor (rule: Rule)
      ensures this.rule == rule && entries == map[]
    {
      this.rule := rule;
      entries := map[];
    }

    method CheckLimit(key: string, now: int) returns (admitted: bool)
      modifies this
      ensures admitted == Admits(old(Lookup(entries, key)), rule, now)
      ensures entries == Serve(old(entries), Attempt(key, now), rule)
      ensures admitted <==> key !in old(entries) || now > old(entries)[key].resetAt
                            || old(entries)[key].count < rule.limit
      ensures entries == old(entries)[key := if key !in old(entries) || now > old(entries)[key].resetAt
                                             then Entry(1, now + rule.window)
                                             else old(entries)[key].(count := old(entries)[key].count + 1)]
    {
      if key !in entries || now > entries[key].resetAt {
        entries := entries[key := Entry(1, now + rule.window)];
        return true;
      }
      var entry := entries[key];
      entries := entries[key := entry.(count := entry.count + 1)];
      if entries[key].count > rule.limit { return false; }
      return true;
    }

    method Cleanup(now: int)
      modifies this
      ensures entries == Serve(old(entries), Sweep(now), rule)
      ensures forall key :: key in entries <==> key in old(entries) && now <= old(entries)[key].resetAt
      ensures forall key :: key in entries ==> entries[key] == old(entries)[key]
    {
      var todo := entries.Keys;
      ghost var before := entries;
      while todo != {}
        invariant todo <= before.Keys
        invariant entries == map key | key in before && (key in todo || now <= before[key].resetAt) :: before[key]
        decreases |todo|
      {
        var key :| key in todo;
        if now > entries[key].resetAt { entries := entries - {key}; }
        todo := todo - {key};
      }
    }
  }

  // ---- Proxied requests: the tenant's bucket under an optional ceiling per IP

  datatype Refusal = ByIp | ByTenant

  /** The two tables and the ceiling; a ceiling of 0 switches the IP table off. */
  datatype Budget = Budget(tenants: Table, ips: Table, tenantRule: Rule, ipRule: Rule)

  function RefusalOf(b: Budget, tenant: string, ip: string, now: int): Option<Refusal> {
    if b.ipRule.limit > 0 && !Admits(Lookup(b.ips, ip), b.ipRule, now) then Some(ByIp)
    else if !Admits(Lookup(b.tenants, tenant), b.tenantRule, now) then Some(ByTenant)
    else None
  }

  function Spend(b: Budget, tenant: string, ip: string, now: int): Budget {
    var charged := if b.ipRule.limit > 0 then b.(ips := Serve(b.ips, Attempt(ip, now), b.ipRule)) else b;
    if RefusalOf(b, tenant, ip, now) == Some(ByIp) then charged
    else charged.(tenants := Serve(b.tenants, Attempt(tenant, now), b.tenantRule))
  }

  datatype Request = Request(tenant: string, ip: string, now: int)

  function RequestAnswers(b: Budget, requests: seq<Request>, tenant: string): seq<bool>
    decreases |requests|
  {
    if requests == [] then []
    else var r := requests[0];
      (if r.tenant == tenant then [RefusalOf(b, r.tenant, r.ip, r.now).None?] else [])
      + RequestAnswers(Spend(b, r.tenant, r.ip, r.now), requests[1..], tenant)
  }

  function RequestTimes(requests: seq<Request>, tenant: string): seq<int> {
    if requests == [] then []
    else (if requests[0].tenant == tenant then [requests[0].now] else []) + RequestTimes(requests[1..], tenant)
  }

  /** With the ceiling off, a tenant's answers depend on its own requests only: not on its IPs, not on other tenants. */
  lemma {:induction false} TenantsAreIsolated(b: Budget, requests: seq<Request>, tenant: string)
    requires b.ipRule.limit == 0
    ensures RequestAnswers(b, requests, tenant)
            == OwnAnswers(Lookup(b.tenants, tenant), RequestTimes(requests, tenant), b.tenantRule)
    decreases |requests|
  {
    if requests == [] {
    } else {
      var r, rest := requests[0], requests[1..];
      var next := Spend(b, r.tenant, r.ip, r.now);
      TenantsAreIsolated(next, rest, tenant);
      if r.tenant == tenant {
        assert RequestTimes(requests, tenant) == [r.now] + RequestTimes(rest, tenant);
        assert RequestTimes(requests, tenant)[1..] == RequestTimes(rest, tenant);
      } else {
        assert RequestTimes(requests, tenant) == RequestTimes(rest, tenant);
      }
    }
  }

  /** The running window of this key is spent. */
  predicate Full(t: Table, rule: Rule, key: string, now: int) {
    key in t && now <= t[key].resetAt && t[key].count >= rule.limit
  }

  /**
   A request is refused by its IP exactly if there is a ceiling and the IP's running window is spent, and then costs no
   tenant anything; otherwise by its tenant exactly if the tenant's is, and the tenant is charged either way. The IP is
   charged exactly if there is a ceiling.
   */
  lemma IpRefusalIsFree(b: Budget, tenant: string, ip: string, now: int)
    ensures var byIp := b.ipRule.limit > 0 && Full(b.ips, b.ipRule, ip, now);
      var byTenant := !byIp && Full(b.tenants, b.tenantRule, tenant, now);
      var after := Spend(b, tenant, ip, now);
      && RefusalOf(b, tenant, ip, now) == (if byIp then Some(ByIp) else if byTenant then Some(ByTenant) else None)
      && (byIp ==> after.tenants == b.tenants)
      && (!byIp ==> tenant in after.tenants && after.tenants == b.tenants[tenant := after.tenants[tenant]]
                    && after.tenants[tenant]
                       == if tenant in b.tenants && now <= b.tenants[tenant].resetAt
                          then b.tenants[tenant].(count := b.tenants[tenant].count + 1)
                          else Entry(1, now + b.tenantRule.window))
      && (b.ipRule.limit == 0 ==> after.ips == b.ips)
      && (b.ipRule.limit > 0 ==> ip in after.ips && after.ips == b.ips[ip := after.ips[ip]]
                                 && after.ips[ip] == if ip in b.ips && now <= b.ips[ip].resetAt
                                                     then b.ips[ip].(count := b.ips[ip].count + 1)
                                                     else Entry(1, now + b.ipRule.window))
  {
  }

  method RefuseProxyRequest(tenants: Limiter, ips: Limiter, tenant: string, ip: string, now: int)
    returns (refused: Option<Refusal>)
    requires tenants != ips
    modifies tenants, ips
    ensures var b := old(Budget(tenants.entries, ips.entries, tenants.rule, ips.rule));
      && refused == RefusalOf(b, tenant, ip, now)
      && Spend(b, tenant, ip, now) == Budget(tenants.entries, ips.entries, tenants.rule, ips.rule)
  {
    if ips.rule.limit > 0 {
      var admitted := ips.CheckLimit(ip, now);
      if !admitted { return Some(ByIp); }
    }
    var admitted := tenants.CheckLimit(tenant, now);
    return if admitted then None else Some(ByTenant);
  }
}
