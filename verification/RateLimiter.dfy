/** The middleware's check of one client key, updating the sorted set in place. */
module RateLimiters {
  import opened Core
  import opened RateLimit

  /** What the client sees: the X-RateLimit headers and whether it is served. */
  datatype Answer = FailOpen | Checked(served: bool, limit: int, remaining: int)

  class RateLimiter {
    const cfg: Config
    var members: set<Member>
    var expires: Option<int>

    constructor (cfg: Config)
      ensures this.cfg == cfg && Value() == EMPTY
    {
      this.cfg, members, expires := cfg, {}, None;
    }

    function Value(): Zset
      reads this
    {
      Zset(members, expires)
    }

    ghost predicate Valid()
      reads this
    {
      |members| <= Limit(cfg)
    }

    /** The Lua script, statement by statement. */
    method RunScript(r: Req) returns (reply: Reply)
      requires Valid()
      modifies this
      ensures Valid()
      ensures Value() == Script(old(Value()), r, cfg)
      ensures reply.allowed == Allowed(old(Value()), r, cfg) && reply.limit == cfg.maxRequests
      ensures reply.allowed ==> reply.current == |Pruned(old(Value()), r, cfg)| + 1
      ensures reply.allowed && Member(r.at, r.nonce) !in Pruned(old(Value()), r, cfg) ==> reply.current == |members|
      ensures cfg.maxRequests >= 0 ==> 0 <= reply.current <= reply.limit
      ensures !reply.allowed ==> reply.current == |Pruned(old(Value()), r, cfg)|
    {
      ghost var before := Value();
      PruneShrinks(before, r, cfg);
      if expires.Some? && r.clock >= expires.value {
        members, expires := {}, None;
      }
      members := set m | m in members && m.at > r.at - cfg.window;
      assert members == Pruned(before, r, cfg);
      var current := |members|;
      if current >= cfg.maxRequests {
        return Reply(false, current, cfg.maxRequests);
      }
      members := members + {Member(r.at, r.nonce)};
      expires := Some(r.clock + cfg.window / NS_PER_MS * NS_PER_MS);
      reply := Reply(true, current + 1, cfg.maxRequests);
    }

    /** One request through the middleware. When Redis does not answer, the
        request is served and nothing changes. The clamp on `remaining` never
        fires for a limit that is not negative. */
    method Check(r: Req, redisUp: bool) returns (answer: Answer)
      requires Valid()
      modifies this
      ensures Valid()
      ensures !redisUp ==> answer == FailOpen && Value() == old(Value())
      ensures redisUp ==> Value() == Script(old(Value()), r, cfg)
      ensures redisUp ==> answer.Checked? && answer.served == Allowed(old(Value()), r, cfg)
      ensures redisUp ==> answer.limit == cfg.maxRequests && answer.remaining >= 0
      ensures redisUp && cfg.maxRequests >= 0 ==>
        answer.remaining == cfg.maxRequests - |Pruned(old(Value()), r, cfg)| - (if answer.served then 1 else 0)
    {
      if !redisUp {
        return FailOpen;
      }
      var reply := RunScript(r);
      var remaining := reply.limit - reply.current;
      if remaining < 0 {
        remaining := 0;
      }
      answer := Checked(reply.allowed, reply.limit, remaining);
    }
  }
}
