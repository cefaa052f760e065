/** Renewing a lease in time although timestamps only carry whole seconds. */
module LeaseRenewal {
  /** Time runs in nanoseconds. */
  const SECOND: nat := 1_000_000_000
  const MILLISECOND: nat := 1_000_000

  const POLL: nat := 250 * MILLISECOND

  const MAX_INTERVAL_MILLIS: nat := 15_000

  function RenewInterval(timeoutSeconds: nat): nat {
    var third := timeoutSeconds * 1000 / 3;
    var millis := if third < 250 then 250 else if third > MAX_INTERVAL_MILLIS then MAX_INTERVAL_MILLIS else third;
    millis * MILLISECOND
  }

  /** What a renewal at `now` writes, and how any reader judges it later. */
  function ExpiresAt(now: nat, timeoutSeconds: nat): nat {
    (now + timeoutSeconds * SECOND) / SECOND
  }

  predicate SeenExpired(expiresAt: nat, now: nat) {
    expiresAt <= now / SECOND
  }

  /** The owner acquires at its first poll and looks again at most 250 ms later each time. */
  predicate Polls(polls: seq<nat>) {
    && |polls| >= 1
    && forall k :: 0 <= k < |polls| - 1 ==> polls[k] <= polls[k + 1] <= polls[k] + POLL
  }

  /** The renewal in force after poll `k`: the owner renews at the first poll that is
      an interval past the last renewal. */
  function RenewedAt(polls: seq<nat>, k: nat, timeoutSeconds: nat): nat
    requires k < |polls|
  {
    if k == 0 then polls[0]
    else
      var last := RenewedAt(polls, k - 1, timeoutSeconds);
      if polls[k] >= last + RenewInterval(timeoutSeconds) then polls[k] else last
  }

  method RunOwner(polls: seq<nat>, timeoutSeconds: nat) returns (renewals: seq<nat>)
    requires Polls(polls)
    ensures |renewals| == |polls|
    ensures forall k :: 0 <= k < |polls| ==> renewals[k] == RenewedAt(polls, k, timeoutSeconds)
    ensures forall k :: 0 <= k < |polls| ==> renewals[k] <= polls[k] < renewals[k] + RenewInterval(timeoutSeconds)
    ensures forall k :: 0 < k < |polls| ==>
              renewals[k] == renewals[k - 1] || renewals[k] == polls[k] >= renewals[k - 1] + RenewInterval(timeoutSeconds)
  {
    var lastRenewal := polls[0];
    renewals := [lastRenewal];
    for k := 1 to |polls|
      invariant |renewals| == k && lastRenewal == RenewedAt(polls, k - 1, timeoutSeconds)
      invariant forall j :: 0 <= j < k ==> renewals[j] == RenewedAt(polls, j, timeoutSeconds)
    {
      if polls[k] - lastRenewal >= RenewInterval(timeoutSeconds) {
        lastRenewal := polls[k];
      }
      renewals := renewals + [lastRenewal];
    }
    EveryRenewalIsRecent(polls, timeoutSeconds);
  }

  lemma {:induction false} RenewalIsRecent(polls: seq<nat>, k: nat, timeoutSeconds: nat)
    requires Polls(polls) && k < |polls|
    ensures RenewedAt(polls, k, timeoutSeconds) <= polls[k]
    ensures polls[k] < RenewedAt(polls, k, timeoutSeconds) + RenewInterval(timeoutSeconds)
  {
    if k > 0 {
      RenewalIsRecent(polls, k - 1, timeoutSeconds);
      assert polls[k - 1] <= polls[k - 1 + 1];
    }
  }

  lemma EveryRenewalIsRecent(polls: seq<nat>, timeoutSeconds: nat)
    requires Polls(polls)
    ensures forall k :: 0 <= k < |polls| ==>
              RenewedAt(polls, k, timeoutSeconds) <= polls[k] < RenewedAt(polls, k, timeoutSeconds) + RenewInterval(timeoutSeconds)
  {
    forall k | 0 <= k < |polls|
      ensures RenewedAt(polls, k, timeoutSeconds) <= polls[k] < RenewedAt(polls, k, timeoutSeconds) + RenewInterval(timeoutSeconds)
    {
      RenewalIsRecent(polls, k, timeoutSeconds);
    }
  }

  /** No reader between this poll and the next finds the lease expired. */
  ghost predicate NeverExpired(polls: seq<nat>, timeoutSeconds: nat)
    requires Polls(polls)
  {
    forall k, now :: 0 <= k < |polls| && polls[k] <= now <= polls[k] + POLL ==>
                       !SeenExpired(ExpiresAt(RenewedAt(polls, k, timeoutSeconds), timeoutSeconds), now)
  }

  lemma WindowFits(timeoutSeconds: nat)
    requires timeoutSeconds >= 2
    ensures RenewInterval(timeoutSeconds) + POLL <= (timeoutSeconds - 1) * SECOND
  {
    var third := timeoutSeconds * 1000 / 3;
    assert 3 * third <= timeoutSeconds * 1000;
  }

  lemma NotExpiredAt(renewed: nat, now: nat, timeoutSeconds: nat)
    requires timeoutSeconds >= 2 && renewed <= now < renewed + RenewInterval(timeoutSeconds) + POLL
    ensures !SeenExpired(ExpiresAt(renewed, timeoutSeconds), now)
  {
    WindowFits(timeoutSeconds);
    assert now < renewed + (timeoutSeconds - 1) * SECOND;
    WholeSeconds(renewed, timeoutSeconds);
    WholeSeconds(renewed, timeoutSeconds - 1);
    SecondsMonotone(now, renewed + (timeoutSeconds - 1) * SECOND);
  }

  lemma WholeSeconds(base: nat, seconds: nat)
    ensures (base + seconds * SECOND) / SECOND == base / SECOND + seconds
  {
  }

  lemma SecondsMonotone(a: nat, b: nat)
    requires a <= b
    ensures a / SECOND <= b / SECOND
  {
  }

  /** The renewal rule keeps a lease alive for every whole-second timeout from two on,
      and for no smaller one: at one second the truncated expiry can fall due early. */
  lemma NeverExpiredFromTwoSeconds(timeoutSeconds: nat)
    ensures (forall polls :: Polls(polls) ==> NeverExpired(polls, timeoutSeconds)) <==> timeoutSeconds >= 2
  {
    if timeoutSeconds >= 2 {
      forall polls | Polls(polls) ensures NeverExpired(polls, timeoutSeconds) {
        forall k, now | 0 <= k < |polls| && polls[k] <= now <= polls[k] + POLL
          ensures !SeenExpired(ExpiresAt(RenewedAt(polls, k, timeoutSeconds), timeoutSeconds), now)
        {
          RenewalIsRecent(polls, k, timeoutSeconds);
          NotExpiredAt(RenewedAt(polls, k, timeoutSeconds), now, timeoutSeconds);
        }
      }
    } else {
      var start := SECOND - 1;
      var polls := [start];
      assert Polls(polls);
      assert RenewedAt(polls, 0, timeoutSeconds) == start;
      assert SeenExpired(ExpiresAt(start, timeoutSeconds), start + POLL);
      assert polls[0] <= start + POLL <= polls[0] + POLL;
    }
  }
}
