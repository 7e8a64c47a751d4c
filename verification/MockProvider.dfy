/**
 * The mock payment provider: an idempotency cache of result objects. execute hands out the very object
 * it stores, and requeryStatus settles a pending one in place.
 */
module MockProvider {
  import opened Basics

  datatype PayStatus = Success | InProcess | Failure

  datatype Result = Result(status: PayStatus, providerRef: string, token: Option<string>, error: Option<string>)

  type Cache = map<string, Result>

  const INSUFFICIENT_FUNDS := "Insufficient funds at aggregator"
  const NOT_FOUND := Result(Failure, "unknown", None, Some("Transaction not found"))

  /** The remainder of a truncating division, as the % operator of the source computes it. */
  function Rem(a: int, n: int): int
    requires n > 0
  {
    if a >= 0 then a % n else -((-a) % n)
  }

  function LowerCase(s: string): string {
    seq(|s|, i requires 0 <= i < |s| => if 'A' <= s[i] <= 'Z' then s[i] - 'A' + 'a' else s[i])
  }

  predicate Includes(s: string, part: string) {
    part <= s || (s != "" && Includes(s[1..], part))
  }

  predicate IsElectricityBiller(billerId: string) {
    var lower := LowerCase(billerId);
    Includes(lower, "electric") || Includes(lower, "ekedc") || Includes(lower, "nepa") || Includes(lower, "light")
  }

  function StatusFor(amount: int): PayStatus {
    if Rem(amount, 100) == 99 then InProcess else if Rem(amount, 100) == 98 then Failure else Success
  }

  function FirstResult(amount: int, billerId: Option<string>, providerRef: string, token: string): Result {
    var status := StatusFor(amount);
    Result(status, providerRef,
           if status == Success && billerId.Some? && IsElectricityBiller(billerId.value) then Some(token) else None,
           if status == Failure then Some(INSUFFICIENT_FUNDS) else None)
  }

  /** What execute stores and answers; the reference and the token are the random values it would draw. */
  function Executed(cache: Cache, key: string, amount: int, billerId: Option<string>,
                    providerRef: string, token: string): (Cache, Result) {
    if key in cache then (cache, cache[key])
    else
      var result := FirstResult(amount, billerId, providerRef, token);
      (cache[key := result], result)
  }

  function Requeried(cache: Cache, key: string, token: string): (Cache, Result) {
    if key !in cache then (cache, NOT_FOUND)
    else if cache[key].status == InProcess then
      var settled := cache[key].(status := Success, token := Some(token));
      (cache[key := settled], settled)
    else (cache, cache[key])
  }

  class PaymentResult {
    var status: PayStatus
    var providerRef: string
    var token: Option<string>
    var error: Option<string>

    constructor (status: PayStatus, providerRef: string, token: Option<string>, error: Option<string>)
      ensures Value() == Result(status, providerRef, token, error)
    {
      this.status, this.providerRef, this.token, this.error := status, providerRef, token, error;
    }

    function Value(): Result
      reads this
    {
      Result(status, providerRef, token, error)
    }
  }

  class MockPaymentProvider {
    var cache: map<string, PaymentResult>

    /** Every key owns its result object: writing one entry cannot disturb another. */
    ghost predicate Valid()
      reads this
    {
      forall k, k' :: k in cache && k' in cache && k != k' ==> cache[k] != cache[k']
    }

    ghost function Contents(): Cache
      reads this, cache.Values
    {
      map k | k in cache :: cache[k].Value()
    }

    constructor ()
      ensures Valid() && Contents() == map[]
    {
      cache := map[];
    }

    /** A replayed key gets the stored object back; a new key gets a fresh object, which is stored. */
    method Execute(key: string, amount: int, billerId: Option<string>, providerRef: string, token: string)
      returns (result: PaymentResult)
      requires Valid()
      modifies this
      ensures Valid() && fresh(cache.Values - old(cache.Values))
      ensures result in cache.Values && key in cache && cache[key] == result
      ensures (Contents(), result.Value()) == Executed(old(Contents()), key, amount, billerId, providerRef, token)
    {
      if key in cache {
        result := cache[key];
        assert key in Contents();
        return;
      }
      var status := Success;
      var error: Option<string> := None;
      if Rem(amount, 100) == 99 {
        status := InProcess;
      } else if Rem(amount, 100) == 98 {
        status := Failure;
        error := Some(INSUFFICIENT_FUNDS);
      }
      result := new PaymentResult(status, providerRef, None, error);
      if status == Success && billerId.Some? && IsElectricityBiller(billerId.value) {
        result.token := Some(token);
      }
      cache := cache[key := result];
      assert key in cache;
      assert Contents() == old(Contents())[key := result.Value()];
    }

    /** Settles a pending entry in place, so every holder of the object sees the success. */
    method RequeryStatus(key: string, token: string) returns (result: PaymentResult)
      requires Valid()
      modifies this, cache.Values
      ensures Valid() && cache == old(cache)
      ensures key in cache ==> result == cache[key]
      ensures (Contents(), result.Value()) == Requeried(old(Contents()), key, token)
    {
      if key !in cache {
        result := new PaymentResult(Failure, "unknown", None, Some("Transaction not found"));
        return;
      }
      result := cache[key];
      if result.status == InProcess {
        result.status := Success;
        result.token := Some(token);
        cache := cache[key := result];
      }
      assert key in Contents();
      assert Contents() == old(Contents())[key := result.Value()];
    }
  }
}
