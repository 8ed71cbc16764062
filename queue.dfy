// The Redis-backed queue store: one list of pending email events
// (`email:queue`) and the string-keyed counters used for daily quotas.

module QueueStore {
  import opened JsText

  /** A unit of work. `retryCount` and `timestamp` are optional on input. */
  datatype EmailEvent = EmailEvent(
    toAddress: string,
    tenantId: string,
    userId: string,
    subject: string,
    fromAddress: string,
    body: string,
    retryCount: Option<int>,
    timestamp: Option<int>)

  /** What a store call gives back: its value, or the error it rethrows. */
  datatype StoreResult<+T> = Ok(value: T) | StoreError

  /** `event.retryCount || 0`: a missing count reads as 0. */
  function Retries(e: EmailEvent): int
  {
    e.retryCount.GetOr(0)
  }

  /** The two records agree on every field except `retryCount` and `timestamp`. */
  predicate SamePayload(a: EmailEvent, b: EmailEvent)
  {
    && a.toAddress == b.toAddress
    && a.tenantId == b.tenantId
    && a.userId == b.userId
    && a.subject == b.subject
    && a.fromAddress == b.fromAddress
    && a.body == b.body
  }

  /** `{...event, retryCount: 0, timestamp: now}`, the record `addToQueue` stores. */
  function ForEnqueue(e: EmailEvent, now: int): EmailEvent
  {
    e.(retryCount := Some(0), timestamp := Some(now))
  }

  /** `{...event, retryCount: (event.retryCount || 0) + 1, timestamp: now}`, the record `requeueEmail` stores. */
  function ForRequeue(e: EmailEvent, now: int): EmailEvent
  {
    e.(retryCount := Some(Retries(e) + 1), timestamp := Some(now))
  }

  /** The count stored under `key`, 0 when there is none (how Redis INCR reads it). */
  function CountOf(m: map<string, int>, key: string): int
  {
    if key in m then m[key] else 0
  }

  /** The counters after Redis INCR on `key`. */
  function Bumped(m: map<string, int>, key: string): map<string, int>
  {
    m[key := CountOf(m, key) + 1]
  }

  /** The list read from its far end: index 0 is the next element `rPop` yields. */
  function Reversed<T>(s: seq<T>): (r: seq<T>)
    ensures |r| == |s|
  {
    if s == [] then [] else Reversed(s[1..]) + [s[0]]
  }

  lemma {:induction false} ReversedAt<T>(s: seq<T>, k: nat)
    requires k < |s|
    ensures Reversed(s)[k] == s[|s| - 1 - k]
  {
    if k < |s| - 1 {
      ReversedAt(s[1..], k);
    }
  }

  /** Pushing at the head (`lPush`) appends at the far end of the reversed view. */
  lemma ReversedPush<T>(x: T, s: seq<T>)
    ensures Reversed([x] + s) == Reversed(s) + [x]
  {
    assert ([x] + s)[1..] == s;
  }

  /** Popping at the tail (`rPop`) removes the first element of the reversed view. */
  lemma {:induction false} ReversedPop<T>(s: seq<T>)
    requires s != []
    ensures Reversed(s)[0] == s[|s| - 1]
    ensures Reversed(s[..|s| - 1]) == Reversed(s)[1..]
  {
    ReversedAt(s, 0);
    var t := s[..|s| - 1];
    forall k | 0 <= k < |t|
      ensures Reversed(t)[k] == Reversed(s)[1..][k]
    {
      ReversedAt(t, k);
      ReversedAt(s, k + 1);
    }
  }

  class EmailQueue {
    /** The list `email:queue` as Redis holds it: `lPush` adds at index 0, `rPop` takes the last element. */
    var list: seq<EmailEvent>
    /** String-keyed counters (`quota:{tenantId}:{date}`). */
    var counters: map<string, int>
    /** Seconds to live of the counters that carry an expiry. */
    var ttl: map<string, int>

    /** Redis keeps an expiry only on a key that exists. */
    ghost predicate Valid()
      reads this
    {
      ttl.Keys <= counters.Keys
    }

    /** Pending events, oldest first: the order in which `getNextEmail` hands them out. */
    function Pending(): seq<EmailEvent>
      reads this
    {
      Reversed(list)
    }

    constructor ()
      ensures Valid()
      ensures list == [] && counters == map[] && ttl == map[]
    {
      list := [];
      counters := map[];
      ttl := map[];
    }

    /**
     * `addToQueue`: stores the caller's event with `retryCount` 0 and the
     * current time, behind every event already pending. A store error is
     * rethrown and nothing is stored.
     */
    method AddToQueue(e: EmailEvent, now: int, fails: bool) returns (r: StoreResult<()>)
      requires Valid()
      modifies this
      ensures Valid()
      ensures fails ==> r == StoreError && unchanged(this)
      ensures !fails ==> r == Ok(())
      ensures !fails ==> |list| == |old(list)| + 1
      ensures !fails ==> counters == old(counters) && ttl == old(ttl)
      ensures !fails ==> |Pending()| > 0 && Pending() == old(Pending()) + [Pending()[|Pending()| - 1]]
      ensures !fails ==>
        var stored := Pending()[|Pending()| - 1];
        SamePayload(stored, e) && stored.retryCount == Some(0) && stored.timestamp == Some(now)
    {
      if fails {
        return StoreError;
      }
      ReversedPush(ForEnqueue(e, now), list);
      list := [ForEnqueue(e, now)] + list;
      r := Ok(());
    }

    /**
     * `getNextEmail`: removes and returns the oldest pending event, or
     * `null` on an empty queue. A store error is rethrown.
     */
    method GetNextEmail(fails: bool) returns (r: StoreResult<Option<EmailEvent>>)
      requires Valid()
      modifies this
      ensures Valid()
      ensures fails ==> r == StoreError && unchanged(this)
      ensures !fails && old(list) == [] ==> r == Ok(None) && unchanged(this)
      ensures !fails && old(list) != [] ==>
        && r == Ok(Some(old(Pending())[0]))
        && Pending() == old(Pending())[1..]
        && |list| == |old(list)| - 1
        && counters == old(counters) && ttl == old(ttl)
    {
      if fails {
        return StoreError;
      }
      if list == [] {
        return Ok(None);
      }
      ReversedPop(list);
      var e := list[|list| - 1];
      list := list[..|list| - 1];
      r := Ok(Some(e));
    }

    /**
     * `requeueEmail`: stores the event again with its retry count one
     * higher (a missing count reads as 0) and a fresh timestamp, at the
     * same end as `addToQueue`. A store error is rethrown.
     */
    method RequeueEmail(e: EmailEvent, now: int, fails: bool) returns (r: StoreResult<()>)
      requires Valid()
      modifies this
      ensures Valid()
      ensures fails ==> r == StoreError && unchanged(this)
      ensures !fails ==> r == Ok(())
      ensures !fails ==> |list| == |old(list)| + 1
      ensures !fails ==> counters == old(counters) && ttl == old(ttl)
      ensures !fails ==> |Pending()| > 0 && Pending() == old(Pending()) + [Pending()[|Pending()| - 1]]
      ensures !fails ==>
        var stored := Pending()[|Pending()| - 1];
        && SamePayload(stored, e)
        && stored.retryCount == Some(e.retryCount.GetOr(0) + 1)
        && stored.timestamp == Some(now)
    {
      if fails {
        return StoreError;
      }
      ReversedPush(ForRequeue(e, now), list);
      list := [ForRequeue(e, now)] + list;
      r := Ok(());
    }

    /** `get`: the value stored under `key`, `null` when there is none. */
    method Get(key: string, fails: bool) returns (r: StoreResult<Option<int>>)
      requires Valid()
      ensures fails ==> r == StoreError
      ensures !fails && key in counters ==> r == Ok(Some(counters[key]))
      ensures !fails && key !in counters ==> r == Ok(None)
    {
      if fails {
        return StoreError;
      }
      r := Ok(if key in counters then Some(counters[key]) else None);
    }

    /** `set`: stores `value` under `key`; like Redis SET, it drops any expiry the key had. */
    method Set(key: string, value: int, fails: bool) returns (r: StoreResult<()>)
      requires Valid()
      modifies this
      ensures Valid()
      ensures fails ==> r == StoreError && unchanged(this)
      ensures !fails ==> r == Ok(()) && list == old(list)
      ensures !fails ==> counters == old(counters)[key := value] && ttl == old(ttl) - {key}
    {
      if fails {
        return StoreError;
      }
      counters := counters[key := value];
      ttl := ttl - {key};
      r := Ok(());
    }

    /**
     * `expire`: gives an existing key `seconds` to live; a missing key is
     * left alone, and a non-positive lifetime deletes the key at once.
     */
    method Expire(key: string, seconds: int, fails: bool) returns (r: StoreResult<()>)
      requires Valid()
      modifies this
      ensures Valid()
      ensures fails ==> r == StoreError && unchanged(this)
      ensures !fails ==> r == Ok(()) && list == old(list)
      ensures !fails && key !in old(counters) ==> counters == old(counters) && ttl == old(ttl)
      ensures !fails && key in old(counters) && seconds > 0 ==>
        counters == old(counters) && ttl == old(ttl)[key := seconds]
      ensures !fails && key in old(counters) && seconds <= 0 ==>
        counters == old(counters) - {key} && ttl == old(ttl) - {key}
    {
      if fails {
        return StoreError;
      }
      if key in counters {
        if seconds > 0 {
          ttl := ttl[key := seconds];
        } else {
          counters := counters - {key};
          ttl := ttl - {key};
        }
      }
      r := Ok(());
    }

    /**
     * `incr`: adds one to the count under `key` (a missing key counts as
     * 0), keeps its expiry, and touches no other key.
     */
    method Incr(key: string, fails: bool) returns (r: StoreResult<()>)
      requires Valid()
      modifies this
      ensures Valid()
      ensures fails ==> r == StoreError && unchanged(this)
      ensures !fails ==> r == Ok(()) && list == old(list) && ttl == old(ttl)
      ensures !fails ==> key in counters && counters[key] == CountOf(old(counters), key) + 1
      ensures !fails ==> counters.Keys == old(counters).Keys + {key}
      ensures !fails ==> forall k :: k in old(counters) && k != key ==> counters[k] == old(counters)[k]
    {
      if fails {
        return StoreError;
      }
      counters := Bumped(counters, key);
      r := Ok(());
    }
  }
}
