/** The two callers of the script: the gateway's per-plan middleware
    (api-gateway/internal/ratelimit/ratelimit.go) and the per-endpoint limiter
    (auth-service/middleware/ratelimit.go), over the sorted sets Redis keeps for them. */
module RateLimiter {
  import opened RateLimit
  import opened Text
  import opened Wrappers

  function LogOf(log: map<string, seq<int>>, key: string): seq<int> {
    if key in log then log[key] else []
  }

  /** The members that ZREMRANGEBYSCORE removes. */
  function RangeByScore(scores: set<int>, lo: int, hi: int): set<int> {
    set s | s in scores && lo <= s <= hi
  }

  /** Removing that range, counting, adding and expiring is the script. */
  lemma CallsMakeScript(k: Key, window: int, now: int)
    ensures var scores := Live(k, now) - RangeByScore(Live(k, now), 0, now - window);
            Script(k, window, now) == (Record(scores, now, Ttl(window)), CountFrom(scores, now - window))
  {
    var scores := Live(k, now);
    assert scores - RangeByScore(scores, 0, now - window) == Trim(scores, now - window);
  }

  lemma AppendedCount(window: int, past: seq<int>, now: int)
    ensures After(window, past + [now]) == Script(After(window, past), window, now).0
    ensures window >= SECOND && Clock(window, past + [now])
      ==> Script(After(window, past), window, now).1 == Recent(past, now - window)
  {
    assert (past + [now])[..|past|] == past;
    if window >= SECOND && Clock(window, past + [now]) {
      CountsLikeUnboundedLog(window, past + [now], |past|);
    }
  }

  /** The key lives for twice the whole seconds of the window. */
  lemma RecordExpires(scores: set<int>, now: int, window: int)
    requires window >= 1_000_000_000
    ensures Record(scores, now, Ttl(window)).expiresAt == now + window / 1_000_000_000 * 2_000_000_000
  {
    assert window / SECOND >= 1;
  }

  /** The sorted sets, and a ghost log of every request made on each key. */
  class Store {
    var keys: map<string, Key>
    ghost var log: map<string, seq<int>>

    constructor ()
      ensures keys == map[] && log == map[]
    {
      keys, log := map[], map[];
    }

    function KeyAt(key: string): Key
      reads this`keys
    {
      if key in keys then keys[key] else Absent
    }

    /** Every request on this key has been made with this window. */
    ghost predicate Follows(window: int, key: string)
      reads this
    {
      KeyAt(key) == After(window, LogOf(log, key))
    }

    /** So has every request on keys that begin with this prefix. */
    ghost predicate AllFollow(window: int, prefix: string)
      reads this
    {
      forall key :: prefix <= key ==> Follows(window, key)
    }

    /** The script: trim, count, add, expire. */
    method RunScript(key: string, window: int, now: int) returns (count: nat)
      requires Follows(window, key)
      modifies this
      ensures log == old(log)[key := LogOf(old(log), key) + [now]]
      ensures Follows(window, key)
      ensures forall other :: other != key ==> KeyAt(other) == old(KeyAt(other))
      ensures window >= SECOND && Clock(window, LogOf(log, key))
        ==> count == Recent(LogOf(old(log), key), now - window)
      ensures window >= 1_000_000_000
        ==> key in keys && keys[key].expiresAt == now + window / 1_000_000_000 * 2_000_000_000
    {
      ghost var before := LogOf(log, key);
      var windowStart, stored := now - window, KeyAt(key);
      var scores := Live(stored, now) - RangeByScore(Live(stored, now), 0, windowStart);
      count := CountFrom(scores, windowStart);
      var k := Record(scores, now, Ttl(window));
      assert (k, count) == Script(stored, window, now) by { CallsMakeScript(stored, window, now); }
      AppendedCount(window, before, now);
      ghost var expiry := now + window / 1_000_000_000 * 2_000_000_000;
      assert window >= 1_000_000_000 ==> k.expiresAt == expiry by {
        if window >= 1_000_000_000 {
          RecordExpires(scores, now, window);
        }
      }
      keys := keys[key := k];
      log := log[key := before + [now]];
    }
  }

  // ------------------------------------------------------------ The gateway

  datatype Plan = Anonymous | Free | Pro

  /** A plan name in any case and with space around it; an unknown one is a guest's. */
  function PlanNamed(name: string): Plan {
    var n := ToLower(TrimSpace(name));
    if n == "pro" then Pro else if n == "free" then Free else Anonymous
  }

  datatype Auth = Auth(userID: string, guest: bool, plan: string)

  /** Who is charged: a user by id on a plan, or an address. */
  datatype Identity = User(id: string, plan: Plan) | Address(ip: string)
  {
    function Plan(): Plan {
      if User? then plan else Anonymous
    }

    function Subject(): string {
      if User? then "user:" + id else "ip:" + ip
    }
  }

  function IdentityOf(auth: Option<Auth>, ip: string): Identity {
    if auth.Some? && !auth.value.guest && TrimSpace(auth.value.userID) != ""
    then User(auth.value.userID, PlanNamed(auth.value.plan)) else Address(ip)
  }

  function BeforeComma(s: string): string {
    if s == "" || s[0] == ',' then "" else [s[0]] + BeforeComma(s[1..])
  }

  /** The leftmost X-Forwarded-For entry, or the host of the connection. */
  function ClientIP(forwarded: string, host: string): string {
    if TrimSpace(BeforeComma(forwarded)) != "" then TrimSpace(BeforeComma(forwarded)) else host
  }

  /** Redis is nil when the limiter has no client. */
  datatype Config = Config(prefix: string, window: int, guestLimit: int, freeLimit: int, proLimit: int)

  /** The defaults Middleware fills in. */
  function WithDefaults(cfg: Config): (c: Config)
    ensures c.prefix != "" && c.window > 0 && c.guestLimit > 0 && c.freeLimit > 0 && c.proLimit > 0
    ensures cfg.prefix != "" && cfg.window > 0 && cfg.guestLimit > 0 && cfg.freeLimit > 0 && cfg.proLimit > 0
      ==> c == cfg
  {
    Config(if cfg.prefix == "" then "apilimit" else cfg.prefix,
           if cfg.window <= 0 then 60 * SECOND else cfg.window,
           if cfg.guestLimit <= 0 then 30 else cfg.guestLimit,
           if cfg.freeLimit <= 0 then 120 else cfg.freeLimit,
           if cfg.proLimit <= 0 then 600 else cfg.proLimit)
  }

  function LimitForPlan(cfg: Config, plan: Plan): int {
    match plan
    case Pro => cfg.proLimit
    case Free => cfg.freeLimit
    case Anonymous => cfg.guestLimit
  }

  function PlanLabel(plan: Plan): string {
    match plan
    case Pro => "pro"
    case Free => "free"
    case Anonymous => "anon"
  }

  predicate ShouldLimit(path: string) {
    "/api/" <= path || path == "/api"
  }

  function BucketKey(cfg: Config, who: Identity): string {
    cfg.prefix + ":" + PlanLabel(who.Plan()) + ":" + who.Subject()
  }

  lemma PartsDetermine(prefix: string, p: Plan, q: Plan, a: string, b: string)
    requires prefix + ":" + PlanLabel(p) + ":" + a == prefix + ":" + PlanLabel(q) + ":" + b
    ensures p == q && a == b
  {
    var n := |prefix| + 1;
    var l, r := prefix + ":" + PlanLabel(p) + ":" + a, prefix + ":" + PlanLabel(q) + ":" + b;
    var x, y := PlanLabel(p) + ":" + a, PlanLabel(q) + ":" + b;
    assert l[n..] == x && r[n..] == y;
    assert x[0] == y[0];
    assert p == q;
    assert x[|PlanLabel(p)| + 1..] == a && y[|PlanLabel(p)| + 1..] == b;
  }

  lemma SubjectsDetermine(a: Identity, b: Identity)
    requires a.Subject() == b.Subject() && a.Plan() == b.Plan()
    ensures a == b
  {
    assert a.Subject()[0] == b.Subject()[0];
    var n := if a.User? then |"user:"| else |"ip:"|;
    assert a.Subject()[n..] == if a.User? then a.id else a.ip;
    assert b.Subject()[n..] == if b.User? then b.id else b.ip;
  }

  /** A bucket is charged by one user on one plan, or by one address, so every request on it meets the same ceiling. */
  lemma BucketsDoNotMix(cfg: Config, a: Identity, b: Identity)
    ensures BucketKey(cfg, a) == BucketKey(cfg, b) <==> a == b
  {
    if BucketKey(cfg, a) == BucketKey(cfg, b) {
      PartsDetermine(cfg.prefix, a.Plan(), b.Plan(), a.Subject(), b.Subject());
      SubjectsDetermine(a, b);
    }
  }

  // ------------------------------------------------------------ Who is charged, and how

  lemma IdentityIs(auth: Option<Auth>, ip: string)
    ensures var user := auth.Some? && !auth.value.guest && !Blank(auth.value.userID);
            IdentityOf(auth, ip)
            == if !user then Address(ip)
               else User(auth.value.userID, if SpelledAs(auth.value.plan, "pro") then Pro
                                            else if SpelledAs(auth.value.plan, "free") then Free else Anonymous)
  {
    if auth.Some? {
      NotBlankIff(auth.value.userID);
      SpelledAsIff(auth.value.plan, "pro");
      SpelledAsIff(auth.value.plan, "free");
    }
  }

  /** The text before the first comma. */
  predicate FirstEntry(s: string, entry: string) {
    ',' !in entry && (s == entry || entry + "," <= s)
  }

  /** The address is the first X-Forwarded-For entry without the white space around it; if that is nothing, the host of
      the connection. */
  ghost predicate ComesFrom(forwarded: string, host: string, ip: string) {
    exists entry, trimmed ::
      FirstEntry(forwarded, entry) && Trims(entry, trimmed) && ip == if trimmed == "" then host else trimmed
  }

  lemma {:induction false} BeforeCommaIsFirst(s: string)
    ensures FirstEntry(s, BeforeComma(s))
  {
    if s != "" && s[0] != ',' {
      BeforeCommaIsFirst(s[1..]);
      var entry := BeforeComma(s[1..]);
      assert s == [s[0]] + s[1..];
      assert [s[0]] + entry + "," == [s[0]] + (entry + ",");
    }
  }

  lemma ClientIPComes(forwarded: string, host: string)
    ensures ComesFrom(forwarded, host, ClientIP(forwarded, host))
  {
    BeforeCommaIsFirst(forwarded);
    TrimSpaceIff(BeforeComma(forwarded), TrimSpace(BeforeComma(forwarded)));
  }

  /** What the middleware does with a request; both answers carry the ceiling, what remains of it and the reset time. */
  datatype Verdict =
    | PassedThrough
    | Served(limit: int, remaining: nat, reset: int)
    | Refused(limit: int, remaining: nat, reset: int, retryAfter: int)

  /** One request of this bucket, logged and measured against a ceiling. */
  ghost predicate Answers(log: map<string, seq<int>>, log': map<string, seq<int>>, key: string, limit: int, window: int,
                          now: int, later: int, v: Verdict)
  {
    var past := LogOf(log, key);
    && log' == log[key := past + [now]]
    && (window >= 1_000_000_000 && Clock(window, past + [now]) ==>
          var count, reset := Recent(past, now - window), (later + window) / 1_000_000_000;
          v == if count < limit then Served(limit, limit - count - 1, reset)
               else Refused(limit, 0, reset, window / 1_000_000_000))
  }

  /** What the request and the configuration say of it.  A signed-in user who is not a guest is charged by id,
      under the ceiling of a plan spelled "pro" or "free" in any case; everyone else, and any other plan, meets the
      guest ceiling. */
  ghost predicate Limited(cfg: Config, auth: Option<Auth>, ip: string, log: map<string, seq<int>>,
                          log': map<string, seq<int>>, now: int, later: int, v: Verdict)
  {
    var user := auth.Some? && !auth.value.guest && !Blank(auth.value.userID);
    var pro, free := user && SpelledAs(auth.value.plan, "pro"), user && SpelledAs(auth.value.plan, "free");
    var prefix := if cfg.prefix == "" then "apilimit" else cfg.prefix;
    var key := prefix + (if pro then ":pro:" else if free then ":free:" else ":anon:")
               + (if user then "user:" + auth.value.userID else "ip:" + ip);
    var limit := if pro then (if cfg.proLimit > 0 then cfg.proLimit else 600)
                 else if free then (if cfg.freeLimit > 0 then cfg.freeLimit else 120)
                 else if cfg.guestLimit > 0 then cfg.guestLimit else 30;
    Answers(log, log', key, limit, if cfg.window > 0 then cfg.window else 60_000_000_000, now, later, v)
  }

  /** The computed bucket and ceiling are those. */
  lemma VerdictIsLimited(cfg: Config, auth: Option<Auth>, ip: string, log: map<string, seq<int>>,
                         log': map<string, seq<int>>, now: int, later: int, v: Verdict)
    ensures var c, who := WithDefaults(cfg), IdentityOf(auth, ip);
            Answers(log, log', BucketKey(c, who), LimitForPlan(c, who.Plan()), c.window, now, later, v)
            ==> Limited(cfg, auth, ip, log, log', now, later, v)
  {
    IdentityIs(auth, ip);
    var c, who := WithDefaults(cfg), IdentityOf(auth, ip);
    if auth.Some? {
      PlansDiffer(auth.value.plan);
    }
    var middle := if who.Plan().Pro? then ":pro:" else if who.Plan().Free? then ":free:" else ":anon:";
    assert ":" + PlanLabel(who.Plan()) + ":" == middle;
    assert BucketKey(c, who) == c.prefix + (":" + PlanLabel(who.Plan()) + ":") + who.Subject();
  }

  lemma PlansDiffer(plan: string)
    ensures !(SpelledAs(plan, "pro") && SpelledAs(plan, "free"))
  {
    SpelledAsIff(plan, "pro");
    SpelledAsIff(plan, "free");
  }

  /** One request, counted on its bucket: served or refused by the ceiling. */
  method Charge(store: Store, ghost prefix: string, key: string, limit: int, window: int, now: int, later: int)
    returns (v: Verdict)
    requires store.AllFollow(window, prefix) && prefix <= key && limit > 0
    modifies store
    ensures store.AllFollow(window, prefix)
    ensures Answers(old(store.log), store.log, key, limit, window, now, later, v) && !v.PassedThrough?
  {
    assert store.Follows(window, key);
    var count := store.RunScript(key, window, now);
    forall other | prefix <= other
      ensures store.Follows(window, other)
    {
      assert old(store.Follows(window, other));
    }
    var remaining := limit - count - 1;
    if remaining < 0 {
      remaining := 0;
    }
    var reset := (later + window) / SECOND;
    if count >= limit {
      return Refused(limit, remaining, reset, window / SECOND);
    }
    return Served(limit, remaining, reset);
  }

  /** One request through the middleware; up is false when the script call fails, and the clock is read once more for
      the reset time.  Whatever the store has below the limiter's prefix has been charged with its window. */
  method Middleware(cfg: Config, store: Store, hasClient: bool, path: string, auth: Option<Auth>, forwarded: string,
                    host: string, now: int, later: int, up: bool)
    returns (v: Verdict)
    requires store.AllFollow(if cfg.window > 0 then cfg.window else 60_000_000_000,
                             (if cfg.prefix == "" then "apilimit" else cfg.prefix) + ":")
    modifies store
    ensures store.AllFollow(if cfg.window > 0 then cfg.window else 60_000_000_000,
                            (if cfg.prefix == "" then "apilimit" else cfg.prefix) + ":")
    ensures v.PassedThrough? <==> !hasClient || !(path == "/api" || "/api/" <= path) || !up
    ensures v.PassedThrough? ==> store.keys == old(store.keys) && store.log == old(store.log)
    ensures !v.PassedThrough? ==>
              exists ip :: ComesFrom(forwarded, host, ip)
                && Limited(cfg, auth, ip, old(store.log), store.log, now, later, v)
  {
    var c := WithDefaults(cfg);
    if !hasClient || !ShouldLimit(path) {
      return PassedThrough;
    }
    var ip := ClientIP(forwarded, host);
    var who := IdentityOf(auth, ip);
    var limit := LimitForPlan(c, who.Plan());
    if !up {
      return PassedThrough;
    }
    KeyHasPrefix(c, who);
    v := Charge(store, c.prefix + ":", BucketKey(c, who), limit, c.window, now, later);
    assert ComesFrom(forwarded, host, ip) by { ClientIPComes(forwarded, host); }
    VerdictIsLimited(cfg, auth, ip, old(store.log), store.log, now, later, v);
  }

  lemma KeyHasPrefix(c: Config, who: Identity)
    ensures c.prefix + ":" <= BucketKey(c, who)
  {
    assert BucketKey(c, who) == (c.prefix + ":") + (PlanLabel(who.Plan()) + ":" + who.Subject());
  }

  // ------------------------------------------------------------ The endpoint limiter

  /** A RateLimiter as NewRateLimiter leaves it. */
  datatype Endpoint = Endpoint(prefix: string, maxRequests: int, window: int, burst: int)

  function NewRateLimiter(prefix: string, maxRequests: int, window: int, burst: int): (e: Endpoint)
    ensures e.prefix == if prefix != "" then prefix else "ratelimit"
    ensures e.maxRequests == if maxRequests > 0 then maxRequests else 10
    ensures e.window == if window > 0 then window else 60_000_000_000
    ensures e.burst == burst
  {
    Endpoint(if prefix == "" then "ratelimit" else prefix,
             if maxRequests <= 0 then 10 else maxRequests,
             if window <= 0 then 60 * SECOND else window,
             burst)
  }

  /** One call of the limiter: the burst, if there is one, comes on top of the ceiling. */
  method CheckLimit(e: Endpoint, store: Store, identifier: string, now: int)
    returns (allowed: bool, remaining: nat, resetTime: int)
    requires store.Follows(e.window, e.prefix + ":" + identifier)
    modifies store
    ensures var key := e.prefix + ":" + identifier;
            var past := LogOf(old(store.log), key);
            && store.Follows(e.window, key)
            && store.log == old(store.log)[key := past + [now]]
            && (e.window >= SECOND && Clock(e.window, past + [now]) ==>
                  var count := Recent(past, now - e.window);
                  var ceiling := if e.burst > 0 then e.maxRequests + e.burst else e.maxRequests;
                  && allowed == (count < ceiling)
                  && remaining == if count < ceiling then ceiling - count - 1 else 0)
    ensures resetTime == now + e.window
  {
    var count := store.RunScript(e.prefix + ":" + identifier, e.window, now);
    var maxAllowed := e.maxRequests;
    if e.burst > 0 {
      maxAllowed := e.maxRequests + e.burst;
    }
    var left := maxAllowed - count - 1;
    if left < 0 {
      left := 0;
    }
    return count < maxAllowed, left, now + e.window;
  }
}
