// The entities every store and service of the engine shares, and the small
// facts about finite sequences that several proofs use.
module Delivery {

  datatype Option<+T> = None | Some(value: T)

  type Id = string

  // Microseconds on the clock the whole deployment reads.
  type Time = int

  const SECOND: Time := 1_000_000

  // timedelta(seconds=n)
  function Span(seconds: int): Time {
    seconds * 1_000_000
  }

  datatype Status = Pending | InFlight | Sent | FailedRetry | DeadLettered | Cancelled {

    predicate Claimable() {
      Pending? || FailedRetry?
    }

    predicate Terminal() {
      Sent? || DeadLettered?
    }
  }

  // One queue row, as producers hand it in and stores hand it out.
  datatype Record = Record(
    deliveryId: Id,
    subscriptionId: Id,
    ownerId: string,
    eventName: string,
    eventId: Id,
    tenantId: Option<string>,
    bodySize: nat,
    targetUrl: string,
    resolvedIp: string,
    attempts: int,
    fireAt: Time,
    createdAt: Time,
    status: Status,
    profile: string,
    secretVersion: Option<string>)

  // One line of a delivery's attempt log.
  datatype Attempt = Attempt(number: int, attemptedAt: Time, httpCode: Option<int>, error: Option<string>)

  function Min(a: nat, b: nat): nat {
    if a < b then a else b
  }

  ghost predicate Distinct<T>(s: seq<T>) {
    forall i, j :: 0 <= i < j < |s| ==> s[i] != s[j]
  }

  ghost function Elements<T>(s: seq<T>): set<T> {
    set x | x in s
  }

  lemma {:induction false} DistinctCount<T>(s: seq<T>)
    requires Distinct(s)
    ensures |Elements(s)| == |s|
  {
    if s != [] {
      var rest := s[..|s| - 1];
      DistinctCount(rest);
      assert s == rest + [s[|s| - 1]];
      assert Elements(s) == Elements(rest) + {s[|s| - 1]};
    }
  }

  lemma SubsetCount<T>(small: set<T>, big: set<T>)
    requires small <= big
    ensures |small| <= |big|
    ensures |small| == |big| ==> small == big
  {
    assert |big| == |small| + |big - small| by {
      assert big == small + (big - small);
    }
  }
}
