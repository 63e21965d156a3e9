/**
 The in-memory rate limiter: per key a pruned list of request times, which decides every request as the
 complete history of accepted requests would.
 */
module RateLimit {
  import opened Common

  datatype Request = Request(path: string, realIp: Option<string>, host: string)

  datatype Decision = Exempt | Accepted | Rejected

  /** What a list of request times belongs to. */
  datatype Key = Key(text: string)

  /** One accepted request; `limit` is the limit it was accepted under. */
  datatype Hit = Hit(key: Key, time: real, limit: int)

  const WINDOW := 60.0
  const EXEMPT_PATHS: set<string> := {"/health", "/health/ready", "/api/v1/admin/auth/me"}
  const LOCAL_IPS: set<string> := {"127.0.0.1", "::1", "localhost"}

  /** The X-Real-IP header when it says something, else the peer. */
  function Ip(r: Request): string {
    if r.realIp.Some? && r.realIp.value != "" then r.realIp.value else r.host
  }

  predicate Bypasses(r: Request) {
    r.path in EXEMPT_PATHS || Ip(r) in LOCAL_IPS
  }

  /** The text up to the first slash. */
  function UpToSlash(s: string): (t: string)
    ensures t <= s && '/' !in t
    ensures t == s || s[|t|] == '/'
  {
    if s == "" || s[0] == '/' then "" else
      var rest := UpToSlash(s[1..]);
      assert s == [s[0]] + s[1..];
      [s[0]] + rest
  }

  /** path.split('/')[1]: the text between the first two slashes. */
  function SecondPart(path: string): string
    requires '/' in path
  {
    var first := UpToSlash(path);
    UpToSlash(path[|first| + 1..])
  }

  function Bucket(path: string): string {
    if |path| > 1 && '/' in path[1..] then SecondPart(path) else path
  }

  function KeyOf(r: Request): Key {
    Key(Ip(r) + ":" + Bucket(r.path))
  }

  lemma {:induction false} UpToSlashFinds(part: string, rest: string)
    requires '/' !in part
    ensures UpToSlash(part + "/" + rest) == part
  {
    var s := part + "/" + rest;
    if part != "" {
      assert s[1..] == part[1..] + "/" + rest;
      UpToSlashFinds(part[1..], rest);
      assert part == [part[0]] + part[1..];
    }
  }

  /** All paths below one first segment count together, whatever their limits. */
  lemma SameSegmentSharesKey(r: Request, part: string, rest: string)
    requires '/' !in part && r.path == "/" + part + "/" + rest
    ensures KeyOf(r) == Key(Ip(r) + ":" + part)
  {
    var s := part + "/" + rest;
    assert r.path == "/" + s;
    assert r.path[1..] == s && s[|part|] == '/';
    UpToSlashFinds("", s);
    assert "" + "/" + s == r.path;
    UpToSlashFinds(part, rest);
  }

  /** Two paths of one client count together exactly when their buckets are the same. */
  lemma SameKeyIff(r: Request, s: Request)
    requires Ip(r) == Ip(s)
    ensures KeyOf(r) == KeyOf(s) <==> Bucket(r.path) == Bucket(s.path)
  {
    var prefix := Ip(r) + ":";
    assert (prefix + Bucket(r.path))[|prefix|..] == Bucket(r.path);
    assert (prefix + Bucket(s.path))[|prefix|..] == Bucket(s.path);
  }

  /** Whom a request counts for: the X-Real-IP header when it says something, whatever the peer; else the peer. */
  predicate IsAddress(r: Request, address: string) {
    match r.realIp
    case Some(header) => if header == "" then address == r.host else address == header
    case None => address == r.host
  }

  /** Its key, and when it passes uncounted. */
  lemma AddressDecides(r: Request, address: string)
    requires IsAddress(r, address)
    ensures KeyOf(r) == Key(address + ":" + Bucket(r.path))
    ensures Bypasses(r) <==> r.path == "/health" || r.path == "/health/ready" || r.path == "/api/v1/admin/auth/me"
                             || address == "127.0.0.1" || address == "::1" || address == "localhost"
  {
  }

  /** A path without a second slash is its own bucket. */
  lemma PlainPathIsItsBucket(path: string)
    requires path == "" || '/' !in path[1..]
    ensures Bucket(path) == path
  {
  }

  /** Otherwise the bucket is the part between the first two slashes, or after the only one. */
  lemma BucketIsSecondPart(head: string, part: string, rest: string)
    requires '/' !in head && '/' !in part
    ensures Bucket(head + "/" + part + "/" + rest) == part
    ensures head != "" ==> Bucket(head + "/" + part) == part
  {
    var long, short := head + "/" + part + "/" + rest, head + "/" + part;
    assert long == head + "/" + (part + "/" + rest);
    UpToSlashFinds(head, part + "/" + rest);
    assert long[|head| + 1..] == part + "/" + rest;
    UpToSlashFinds(part, rest);
    assert long[1..][|head| + |part|] == '/';
    UpToSlashFinds(head, part);
    assert short[|head| + 1..] == part;
    NoSlashStays(part);
    if head != "" {
      assert short[1..][|head| - 1] == '/';
    }
  }

  lemma {:induction false} NoSlashStays(s: string)
    requires '/' !in s
    ensures UpToSlash(s) == s
  {
    if s != "" {
      NoSlashStays(s[1..]);
    }
  }

  // ---------------------------------------------------------------- the complete history

  /** The times of the accepted requests of a key after the cutoff, oldest first. */
  function Recent(history: Log<Hit>, key: Key, cutoff: real): seq<real> {
    if history.Empty? then []
    else
      var h := history.last;
      Recent(history.before, key, cutoff) + (if h.key == key && h.time > cutoff then [h.time] else [])
  }

  function After(times: seq<real>, cutoff: real): seq<real> {
    if times == [] then []
    else
      var t := times[|times| - 1];
      After(times[..|times| - 1], cutoff) + (if t > cutoff then [t] else [])
  }

  /** One request as it reached the limiter, with the limit of its path. */
  datatype Arrival = Arrival(key: Key, exempt: bool, limit: int, now: real)

  /** A limiter that keeps every accepted request and counts those of the last minute. */
  function Decide(history: Log<Hit>, a: Arrival): Decision {
    if a.exempt then Exempt
    else if |Recent(history, a.key, a.now - WINDOW)| >= a.limit then Rejected
    else Accepted
  }

  function Record(history: Log<Hit>, a: Arrival): Log<Hit> {
    if Decide(history, a) == Accepted then Then(history, Hit(a.key, a.now, a.limit)) else history
  }

  /** The accepted requests after these arrivals. */
  function History(arrivals: Log<Arrival>): Log<Hit> {
    if arrivals.Empty? then Empty
    else Record(History(arrivals.before), arrivals.last)
  }

  lemma AfterOfMore(times: seq<real>, t: real, cutoff: real)
    ensures After(times + [t], cutoff) == After(times, cutoff) + (if t > cutoff then [t] else [])
  {
  }

  /** Pruning twice is pruning at the later cutoff. */
  lemma {:induction false} PruneAgain(history: Log<Hit>, key: Key, c: real, c': real)
    requires c <= c'
    ensures After(Recent(history, key, c), c') == Recent(history, key, c')
  {
    if history.Then? {
      var init, h := history.before, history.last;
      PruneAgain(init, key, c, c');
      if h.key == key && h.time > c {
        AfterOfMore(Recent(init, key, c), h.time, c');
      } else {
        assert Recent(history, key, c) == Recent(init, key, c);
      }
    }
  }

  /**
   A list pruned at c counts as the complete history does at c' exactly when the key has no accepted request in
   (c', c]; a clock that never goes back keeps c <= c'.  It never counts more.
   */
  lemma {:induction false} PruningForgetsIff(history: Log<Hit>, key: Key, c: real, c': real)
    ensures var kept, all := After(Recent(history, key, c), c'), Recent(history, key, c');
            && |kept| <= |all|
            && (|kept| == |all| <==>
                  forall h :: Has(history, h) && h.key == key ==> !(c' < h.time <= c))
  {
    if history.Then? {
      var init, h := history.before, history.last;
      PruningForgetsIff(init, key, c, c');
      if h.key == key && h.time > c {
        AfterOfMore(Recent(init, key, c), h.time, c');
      } else {
        assert Recent(history, key, c) == Recent(init, key, c);
      }
    }
  }

  lemma {:induction false} UnknownKeyHasNoHits(history: Log<Hit>, key: Key, cutoff: real)
    requires forall h :: Has(history, h) ==> h.key != key
    ensures Recent(history, key, cutoff) == []
  {
    if history.Then? {
      UnknownKeyHasNoHits(history.before, key, cutoff);
    }
  }

  // ---------------------------------------------------------------- the middleware

  /** Each list holds what its pruning left of the accepted requests of its key. */
  ghost predicate Pruned(requests: map<Key, seq<real>>, cutoffs: map<Key, real>, history: Log<Hit>, latest: real) {
    && requests.Keys == cutoffs.Keys
    && (forall key :: key in requests ==>
          cutoffs[key] <= latest - WINDOW && requests[key] == Recent(history, key, cutoffs[key]))
    && (forall h :: Has(history, h) ==> h.key in requests && h.time <= latest)
  }

  lemma AcceptKeeps(requests: map<Key, seq<real>>, cutoffs: map<Key, real>, history: Log<Hit>, latest: real, h: Hit)
    requires Pruned(requests, cutoffs, history, latest)
    requires h.key in requests && h.time == latest
    ensures Pruned(requests[h.key := requests[h.key] + [h.time]], cutoffs, Then(history, h), latest)
  {
  }

  class Limiter {
    /** Path prefixes with their limits, in the order they are tried. */
    const limits: seq<(string, int)>
    const defaultLimit: int
    var requests: map<Key, seq<real>>

    /** Every request so far, those accepted, how far each list is pruned, and the latest time seen. */
    ghost var arrivals: Log<Arrival>
    ghost var history: Log<Hit>
    ghost var cutoffs: map<Key, real>
    ghost var latest: real

    ghost predicate Valid()
      reads this
    {
      history == History(arrivals) && ListsArePruned()
    }

    ghost predicate ListsArePruned()
      reads this
    {
      Pruned(requests, cutoffs, history, latest)
    }

    constructor (limits: seq<(string, int)>, defaultLimit: int)
      ensures Valid() && arrivals == Empty && this.limits == limits && this.defaultLimit == defaultLimit
    {
      this.limits, this.defaultLimit := limits, defaultLimit;
      requests, arrivals, history, cutoffs, latest := map[], Empty, Empty, map[], 0.0;
    }

    /** The limit of the first prefix that fits. */
    ghost predicate IsLimit(path: string, limit: int) {
      if exists i :: FirstFit(path, i) then exists i :: FirstFit(path, i) && limit == limits[i].1
      else limit == defaultLimit
    }

    ghost predicate FirstFit(path: string, i: int) {
      0 <= i < |limits| && limits[i].0 <= path && forall j :: 0 <= j < i ==> !(limits[j].0 <= path)
    }

    method GetLimit(path: string) returns (limit: int)
      ensures IsLimit(path, limit)
    {
      for i := 0 to |limits|
        invariant forall j :: 0 <= j < i ==> !(limits[j].0 <= path)
      {
        if limits[i].0 <= path {
          assert FirstFit(path, i);
          return limits[i].1;
        }
      }
      return defaultLimit;
    }

    method CleanWindow(key: Key, now: real) returns (count: nat)
      requires ListsArePruned() && latest <= now
      modifies this
      ensures ListsArePruned() && history == old(history) && arrivals == old(arrivals) && latest == now
      ensures key in requests && cutoffs[key] == now - WINDOW && count == |Recent(history, key, now - WINDOW)|
    {
      var window := if key in requests then requests[key] else [];
      var cutoff := now - WINDOW;
      var kept: seq<real> := [];
      for i := 0 to |window|
        invariant kept == After(window[..i], cutoff)
      {
        assert window[..i + 1][..i] == window[..i];
        if window[i] > cutoff {
          kept := kept + [window[i]];
        }
      }
      assert window[..|window|] == window;
      if key in requests {
        PruneAgain(history, key, cutoffs[key], cutoff);
      } else {
        UnknownKeyHasNoHits(history, key, cutoff);
      }
      requests := requests[key := kept];
      cutoffs := cutoffs[key := cutoff];
      latest := now;
      count := |kept|;
    }

    /** Decides as the complete history does, and records what it accepts. */
    method Dispatch(r: Request, now: real) returns (decision: Decision, ghost limit: int)
      requires Valid() && latest <= now
      modifies this
      ensures Valid() && latest <= now
      ensures IsLimit(r.path, limit) && arrivals == Then(old(arrivals), Arrival(KeyOf(r), Bypasses(r), limit, now))
      ensures decision == Decide(History(old(arrivals)), Arrival(KeyOf(r), Bypasses(r), limit, now))
      ensures forall address :: IsAddress(r, address) ==>
                && arrivals.last.key == Key(address + ":" + Bucket(r.path))
                && (decision == Exempt <==>
                      || r.path == "/health" || r.path == "/health/ready" || r.path == "/api/v1/admin/auth/me"
                      || address == "127.0.0.1" || address == "::1" || address == "localhost")
    {
      forall address | IsAddress(r, address)
        ensures KeyOf(r) == Key(address + ":" + Bucket(r.path))
        ensures Bypasses(r) <==> r.path == "/health" || r.path == "/health/ready" || r.path == "/api/v1/admin/auth/me"
                                 || address == "127.0.0.1" || address == "::1" || address == "localhost"
      {
        AddressDecides(r, address);
      }
      var found := GetLimit(r.path);
      limit := found;
      var bypasses := PassesUncounted(r);
      decision := Admit(Arrival(KeyOf(r), bypasses, found, now));
    }

    /** Health checks, session verification and local clients are not limited. */
    method PassesUncounted(r: Request) returns (bypasses: bool)
      ensures bypasses == Bypasses(r)
    {
      if r.path in EXEMPT_PATHS {
        return true;
      }
      var ip := Ip(r);
      return ip in LOCAL_IPS;
    }

    method Admit(a: Arrival) returns (decision: Decision)
      requires Valid() && latest <= a.now
      modifies this
      ensures Valid() && latest <= a.now && arrivals == Then(old(arrivals), a)
      ensures decision == Decide(History(old(arrivals)), a)
    {
      decision := Check(a);
      arrivals := Then(arrivals, a);
    }

    method Check(a: Arrival) returns (decision: Decision)
      requires ListsArePruned() && latest <= a.now
      modifies this
      ensures ListsArePruned() && latest <= a.now && arrivals == old(arrivals)
      ensures decision == Decide(old(history), a) && history == Record(old(history), a)
    {
      if a.exempt {
        return Exempt;
      }
      decision := Count(a.key, a.limit, a.now);
      if decision == Accepted {
        assert Decide(old(history), a) == Accepted;
      } else {
        assert Decide(old(history), a) == Rejected;
      }
    }

    /** The part of `dispatch` that keeps the lists. */
    method Count(key: Key, limit: int, now: real) returns (decision: Decision)
      requires ListsArePruned() && latest <= now
      modifies this
      ensures ListsArePruned() && latest == now && arrivals == old(arrivals)
      ensures decision == if |Recent(old(history), key, now - WINDOW)| >= limit then Rejected else Accepted
      ensures history == if decision == Accepted then Then(old(history), Hit(key, now, limit)) else old(history)
    {
      var count := CleanWindow(key, now);
      if count >= limit {
        return Rejected;
      }
      AcceptKeeps(requests, cutoffs, history, latest, Hit(key, now, limit));
      requests := requests[key := requests[key] + [now]];
      history := Then(history, Hit(key, now, limit));
      decision := Accepted;
    }
  }

  // ---------------------------------------------------------------- what the decisions guarantee

  /** Accepted requests of a key in the window (T - 60, T]. */
  function InWindow(history: Log<Hit>, key: Key, T: real): nat {
    if history.Empty? then 0
    else
      var h := history.last;
      InWindow(history.before, key, T) + (if h.key == key && T - 60.0 < h.time <= T then 1 else 0)
  }

  /** A window that ends later than a request holds at most what the request's own count saw. */
  lemma {:induction false} WindowWithinCount(history: Log<Hit>, key: Key, T: real, cutoff: real)
    requires cutoff <= T - WINDOW
    ensures InWindow(history, key, T) <= |Recent(history, key, cutoff)|
  {
    if history.Then? {
      WindowWithinCount(history.before, key, T, cutoff);
    }
  }

  ghost predicate LimitUsed(history: Log<Hit>, key: Key, limit: int) {
    exists h :: Has(history, h) && h.key == key && h.limit == limit
  }

  /** Each hit found fewer than its limit when it was accepted. */
  ghost predicate Guarded(history: Log<Hit>) {
    history.Empty? ||
    var before, h := history.before, history.last;
    Guarded(before) && |Recent(before, h.key, h.time - WINDOW)| < h.limit
  }

  lemma {:induction false} HistoryIsGuarded(arrivals: Log<Arrival>)
    ensures Guarded(History(arrivals))
  {
    if arrivals.Then? {
      HistoryIsGuarded(arrivals.before);
    }
  }

  lemma {:induction false} GuardedWindow(history: Log<Hit>, key: Key, T: real, largest: int)
    requires Guarded(history)
    requires forall limit :: LimitUsed(history, key, limit) ==> limit <= largest
    ensures InWindow(history, key, T) == 0 || InWindow(history, key, T) <= largest
  {
    if history.Then? {
      var before, h := history.before, history.last;
      LimitsBefore(before, h, key, largest);
      GuardedWindow(before, key, T, largest);
      if h.key == key && T - WINDOW < h.time <= T {
        assert LimitUsed(history, key, h.limit);
        WindowWithinCount(before, key, T, h.time - WINDOW);
      }
    }
  }

  /**
   No window (T - 60, T] of a key ever holds more accepted requests than the largest limit they were accepted
   under; paths of one key may have different limits.
   */
  lemma NoWindowOverLargestLimit(arrivals: Log<Arrival>, key: Key, T: real, largest: int)
    requires forall limit :: LimitUsed(History(arrivals), key, limit) ==> limit <= largest
    ensures InWindow(History(arrivals), key, T) == 0 || InWindow(History(arrivals), key, T) <= largest
  {
    HistoryIsGuarded(arrivals);
    GuardedWindow(History(arrivals), key, T, largest);
  }

  /** Requests of one path, each within the minute before `now`; they need not come at one time or in order. */
  ghost predicate Traffic(arrivals: Log<Arrival>, key: Key, limit: int, now: real) {
    forall a :: Has(arrivals, a) ==> !a.exempt && a.key == key && a.limit == limit && now - 60.0 < a.now <= now
  }

  lemma {:induction false} RecentWithinSize(history: Log<Hit>, key: Key, cutoff: real)
    ensures |Recent(history, key, cutoff)| <= Size(history)
  {
    if history.Then? {
      RecentWithinSize(history.before, key, cutoff);
    }
  }

  /** As long as there are no more of them than their limit, all are accepted, and count for their key alone. */
  lemma {:induction false} TrafficIsAccepted(arrivals: Log<Arrival>, key: Key, limit: int, now: real, other: Key)
    requires Traffic(arrivals, key, limit, now) && Size(arrivals) <= limit
    ensures Size(History(arrivals)) == Size(arrivals)
    ensures |Recent(History(arrivals), other, now - WINDOW)| == if other == key then Size(arrivals) else 0
  {
    if arrivals.Then? {
      assert forall a :: Has(arrivals.before, a) ==> Has(arrivals, a);
      TrafficIsAccepted(arrivals.before, key, limit, now, other);
      assert Has(arrivals, arrivals.last);
      RecentWithinSize(History(arrivals.before), key, arrivals.last.now - WINDOW);
    }
  }

  /**
   A request is rejected only because of another path's traffic, all of it within that path's limit, exactly when
   the two share a bucket and that traffic reaches the request's own limit.
   */
  lemma OtherPathsTrafficRejectsIff(r: Request, s: Request, others: Log<Arrival>, limitR: int, limitS: int, now: real)
    requires Ip(r) == Ip(s) && !Bypasses(r) && 0 < limitR
    requires Traffic(others, KeyOf(s), limitS, now) && Size(others) <= limitS
    ensures Size(History(others)) == Size(others)
    ensures Decide(History(others), Arrival(KeyOf(r), Bypasses(r), limitR, now)) == Rejected <==>
              Bucket(r.path) == Bucket(s.path) && Size(others) >= limitR
  {
    SameKeyIff(r, s);
    TrafficRejectsIff(others, KeyOf(s), limitS, Arrival(KeyOf(r), false, limitR, now));
  }

  lemma TrafficRejectsIff(others: Log<Arrival>, key: Key, limit: int, a: Arrival)
    requires Traffic(others, key, limit, a.now) && Size(others) <= limit && !a.exempt && 0 < a.limit
    ensures Size(History(others)) == Size(others)
    ensures Decide(History(others), a) == Rejected <==> key == a.key && Size(others) >= a.limit
  {
    TrafficIsAccepted(others, key, limit, a.now, a.key);
  }

  function UsersRequest(ip: string): Request {
    Request("/api/v1/users", Some(ip), ip)
  }

  function PublicRequest(ip: string): Request {
    Request("/api/public/sessions", Some(ip), ip)
  }

  lemma ManagementSharesBucket(ip: string)
    ensures Bucket(UsersRequest(ip).path) == Bucket(PublicRequest(ip).path)
  {
    var users, charge := UsersRequest(ip), PublicRequest(ip);
    assert users.path == "/" + "api" + "/" + "v1/users" && charge.path == "/" + "api" + "/" + "public/sessions";
    SameSegmentSharesKey(users, "api", "v1/users");
    SameSegmentSharesKey(charge, "api", "public/sessions");
    SameKeyIff(charge, users);
  }

  /** The management API and the public API are such paths, with limits 120 and 60. */
  lemma ManagementTrafficRejectsPublicRequest(ip: string, others: Log<Arrival>, now: real)
    requires ip != "" && ip !in LOCAL_IPS
    requires Traffic(others, KeyOf(UsersRequest(ip)), 120, now) && 60 <= Size(others) <= 120
    ensures Size(History(others)) == Size(others)
    ensures Decide(History(others), Arrival(KeyOf(PublicRequest(ip)), Bypasses(PublicRequest(ip)), 60, now)) == Rejected
  {
    ManagementSharesBucket(ip);
    NotExempt(PublicRequest(ip));
    OtherPathsTrafficRejectsIff(PublicRequest(ip), UsersRequest(ip), others, 60, 120, now);
  }

  lemma NotExempt(r: Request)
    requires r.path == "/api/public/sessions" && Ip(r) !in LOCAL_IPS
    ensures !Bypasses(r)
  {
    assert |"/api/v1/admin/auth/me"| == 21 && "/health"[1] == "/health/ready"[1] == 'h';
    assert |r.path| < 21 && r.path[1] == 'a';
  }

  lemma LimitsBefore(before: Log<Hit>, h: Hit, key: Key, largest: int)
    requires forall limit :: LimitUsed(Then(before, h), key, limit) ==> limit <= largest
    ensures forall limit :: LimitUsed(before, key, limit) ==> limit <= largest
  {
    forall limit | LimitUsed(before, key, limit) ensures limit <= largest {
      var hit :| Has(before, hit) && hit.key == key && hit.limit == limit;
      assert Has(Then(before, h), hit);
      assert LimitUsed(Then(before, h), key, limit);
    }
  }

  /** Of these arrivals, those accepted after this history. */
  function AcceptedAfter(history: Log<Hit>, arrivals: Log<Arrival>): Log<Hit> {
    if arrivals.Empty? then Empty
    else
      var hits, a := AcceptedAfter(history, arrivals.before), arrivals.last;
      if Decide(Join(history, hits), a) == Accepted then Then(hits, Hit(a.key, a.now, a.limit)) else hits
  }

  lemma {:induction false} HistoryOfJoin(before: Log<Arrival>, after: Log<Arrival>)
    ensures History(Join(before, after)) == Join(History(before), AcceptedAfter(History(before), after))
  {
    if after.Then? {
      HistoryOfJoin(before, after.before);
    }
  }

  lemma {:induction false} RecentOfJoin(first: Log<Hit>, second: Log<Hit>, key: Key, cutoff: real)
    requires forall h :: Has(first, h) ==> h.time <= cutoff
    ensures Recent(Join(first, second), key, cutoff) == Recent(second, key, cutoff)
  {
    if second.Empty? {
      NothingRecent(first, key, cutoff);
    } else {
      RecentOfJoin(first, second.before, key, cutoff);
    }
  }

  /**
   The advertised retry_after: a minute after a rejection only what was accepted since then counts.  The request
   passes exactly when that is less than its limit, so for a positive limit it does when nothing was.
   */
  lemma RetryAfterSuffices(before: Log<Arrival>, a: Arrival, after: Log<Arrival>, later: real)
    requires forall h :: Has(History(before), h) ==> h.time <= a.now
    requires Decide(History(before), a) == Rejected && a.now + 60.0 <= later
    ensures var since := AcceptedAfter(History(before), after);
            var decision := Decide(History(Join(before, after)), a.(now := later));
            && (decision == Accepted <==> |Recent(since, a.key, later - 60.0)| < a.limit)
            && (since == Empty ==> (decision == Accepted <==> a.limit > 0))
  {
    HistoryOfJoin(before, after);
    RecentOfJoin(History(before), AcceptedAfter(History(before), after), a.key, later - WINDOW);
  }

  lemma {:induction false} NothingRecent(history: Log<Hit>, key: Key, cutoff: real)
    requires forall h :: Has(history, h) ==> h.time <= cutoff
    ensures Recent(history, key, cutoff) == []
  {
    if history.Then? {
      NothingRecent(history.before, key, cutoff);
    }
  }
}
