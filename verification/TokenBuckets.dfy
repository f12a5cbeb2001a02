/** The local token bucket of each key (internal/middleware/ratelimit.go), on exact reals. */
module TokenBuckets {
  datatype Bucket = Bucket(tokens: real, capacity: real, rate: real, last: real)

  /** The tokens that flow in from one time to another. */
  function Gain(rate: real, from: real, to: real): real { (to - from) * rate }

  function Refilled(b: Bucket, now: real): real {
    var full := b.tokens + Gain(b.rate, b.last, now);
    if full > b.capacity then b.capacity else full
  }

  predicate Grants(b: Bucket, now: real) { Refilled(b, now) >= 1.0 }

  function Asked(b: Bucket, now: real): Bucket {
    b.(tokens := Refilled(b, now) - if Grants(b, now) then 1.0 else 0.0, last := now)
  }

  function NewBucket(rpm: int, now: real): Bucket {
    Bucket(rpm as real, rpm as real, rpm as real / 60.0, now)
  }

  class TokenBucket {
    var tokens: real
    var capacity: real
    var rate: real
    var lastUpdate: real

    function Value(): Bucket
      reads this
    {
      Bucket(tokens, capacity, rate, lastUpdate)
    }

    constructor (rpm: int, now: real)
      ensures Value() == NewBucket(rpm, now)
    {
      tokens, capacity, rate, lastUpdate := rpm as real, rpm as real, rpm as real / 60.0, now;
    }

    method Allow(now: real) returns (granted: bool)
      modifies this
      ensures granted == Grants(old(Value()), now) && Value() == Asked(old(Value()), now)
    {
      var elapsed := now - lastUpdate;
      ghost var gain := Gain(rate, lastUpdate, now);
      assert elapsed * rate == gain;
      lastUpdate := now;
      tokens := tokens + elapsed * rate;
      if tokens > capacity {
        tokens := capacity;
      }
      if tokens >= 1.0 {
        tokens := tokens - 1.0;
        return true;
      }
      return false;
    }
  }

  class RateLimiter {
    var buckets: map<string, TokenBucket>

    constructor ()
      ensures buckets == map[]
    {
      buckets := map[];
    }

    /** A key's bucket is made on its first call and kept: a limit changed later is not looked at. */
    method GetBucket(key: string, rpm: int, now: real) returns (b: TokenBucket)
      modifies this
      ensures key in old(buckets) ==> b == old(buckets[key]) && buckets == old(buckets)
      ensures key !in old(buckets) ==> fresh(b) && b.Value() == NewBucket(rpm, now) && buckets == old(buckets)[key := b]
    {
      if key in buckets {
        return buckets[key];
      }
      b := new TokenBucket(rpm, now);
      buckets := buckets[key := b];
    }
  }
}
