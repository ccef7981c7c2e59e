/**
 * The middleware that limits requests per API key and minute. A request without a key
 * id, and one for which Redis gives no answer, is let through.
 */
module Middleware {
  import opened RateLimit

  const MINUTE := 60_000_000_000

  /** The earlier requests of the same key in the same calendar minute; instants are in milliseconds. */
  function SameMinute(history: seq<Event>, id: string, clock: nat): set<nat> {
    set i: nat | i < |history| && history[i].id == "apikey:" + id && history[i].clock / 60_000 == clock / 60_000
  }

  lemma SameMinuteSnoc(history: seq<Event>, e: Event, id: string, clock: nat)
    ensures SameMinute(history + [e], id, clock) == SameMinute(history, id, clock)
      + if e.id == "apikey:" + id && e.clock / 60_000 == clock / 60_000 then {|history|} else {}
  {
  }

  /** What the limiter counts under one Redis key are the requests of one API key in one minute. */
  lemma RequestsInMinute(history: seq<Event>, id: string, clock: nat)
    ensures Requests(history, RedisKey("apikey:" + id, clock / 60_000), 60_000) == |SameMinute(history, id, clock)|
  {
    CountsAreOfOneBucket(history, "apikey:" + id, clock / 60_000, 0, 60_000);
    assert SameMinute(history, id, clock) == Tagged(history, "apikey:" + id, clock / 60_000, 60_000);
  }

  /** Scripts run in the order of the history, each in the minute in which its caller read the clock. */
  ghost predicate PromptAndOrdered(history: seq<Event>) {
    && (forall e | e in history :: e.clock <= e.at && e.at / 60_000 == e.clock / 60_000)
    && (forall i, j | 0 <= i < j < |history| :: history[i].at <= history[j].at)
  }

  /** In a prompt and ordered history the reply counts the earlier requests of the minute, and this one. */
  lemma ReplyInMinute(history: seq<Event>, id: string, e: Event)
    requires e.id == "apikey:" + id && PromptAndOrdered(history + [e])
    ensures Reply(history + [e], 60_000) == |SameMinute(history, id, e.clock)| + 1
  {
    var t := history + [e];
    assert Ordered(t) && Prompt(t, 60_000);
    hide PromptAndOrdered, Ordered, Prompt;
    ReplyIsOrdinal(t, 60_000);
    RequestsInMinute(t, id, e.clock);
    SameMinuteSnoc(history, e, id, e.clock);
  }

  class RateLimiter {
    const limiter: Limiter
    const maxPerMin: int
    /** The requests whose script ran. */
    ghost var history: seq<Event>

    ghost predicate Valid()
      reads this, limiter
    {
      limiter.counters == After(history, 60_000)
    }

    constructor (maxPerMin: int)
      ensures Valid() && fresh(limiter) && history == [] && this.maxPerMin == maxPerMin
    {
      this.maxPerMin := maxPerMin;
      limiter := new Limiter();
      history := [];
    }

    /** True if the request is passed on, false if it is answered with 429. */
    method Handle(id: string, clock: nat, at: nat, lingers: bool, call: Call) returns (passes: bool)
      requires Valid()
      modifies this, limiter
      ensures Valid()
      ensures history == old(history) +
        if id == "" || call == NotRun then [] else [Event("apikey:" + id, clock, at, lingers)]
      ensures id == "" || call != Answered ==> passes
      ensures id != "" && call == Answered && PromptAndOrdered(history) ==>
        (passes <==> |SameMinute(old(history), id, clock)| < maxPerMin)
    {
      if id == "" {
        return true;
      }
      hide Increments, Script, Reply, PromptAndOrdered, SameMinute;
      ghost var e := Event("apikey:" + id, clock, at, lingers);
      ghost var before := history;
      var out := limiter.Allow("apikey:" + id, maxPerMin, MINUTE, clock, at, lingers, call);
      if call != NotRun {
        history := history + [e];
        if PromptAndOrdered(history) {
          ReplyInMinute(before, id, e);
        }
      }
      passes := out != Denied;
    }
  }
}
