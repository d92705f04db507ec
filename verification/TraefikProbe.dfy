/** Waiting for Traefik to enable the routers of a preview: a polling loop with a growing pause.

    Times are nanoseconds.  The network is a function that says how the n-th request of the call, for a
    router's name, ends and how long it takes; sleeps are exact and computing takes no time. */
module TraefikProbe {
  import opened Previews

  const MILLISECOND: int := 1000000
  const SECOND: int := 1000 * MILLISECOND
  const POLL_INITIAL: int := 100 * MILLISECOND
  const POLL_MAX: int := 250 * MILLISECOND

  datatype Answer = Found(text: string) | NotFound | HttpError | NetworkError | BadBody

  datatype Reply = Reply(answer: Answer, took: nat)

  /** `cancelAt` is when the caller's context is cancelled, if ever. */
  datatype Network = Network(reply: (nat, string) -> Reply, cancelAt: Option<int>)

  datatype Outcome = Ready | TimedOut(lastErr: bool) | Cancelled

  /** The client gives up on a request after a second. */
  ghost predicate Sensible(net: Network) {
    forall n: nat, name: string :: net.reply(n, name).took <= SECOND
  }

  predicate CancelledBy(net: Network, t: int) { net.cancelAt.Some? && net.cancelAt.value <= t }

  predicate Enabled(net: Network, n: nat, name: string) { net.reply(n, name).answer == Found("enabled") }

  /** A sweep whose first request is the n-th one asks for the names in order and finds them all enabled. */
  ghost predicate SawAll(net: Network, names: seq<string>, n: nat) {
    forall i | 0 <= i < |names| :: Enabled(net, n + i, names[i])
  }

  /** Number of requests of the sweep whose first one is the n-th, from the i-th name on: up to the first name
      that is not enabled. */
  function Requests(net: Network, names: seq<string>, n: nat, i: nat): (r: nat)
    requires i <= |names|
    ensures i <= r <= |names|
    decreases |names| - i
  {
    if i == |names| then i else if Enabled(net, n + i, names[i]) then Requests(net, names, n, i + 1) else i + 1
  }

  /** And how long they take. */
  function Duration(net: Network, names: seq<string>, n: nat, i: nat): nat
    requires i <= |names|
    decreases |names| - i
  {
    if i == |names| then 0
    else net.reply(n + i, names[i]).took + if Enabled(net, n + i, names[i]) then Duration(net, names, n, i + 1) else 0
  }

  /** A sweep ends with the first name that is not answered "enabled", or with the last one. */
  lemma {:induction false} RequestsMean(net: Network, names: seq<string>, n: nat, i: nat)
    requires i <= |names|
    ensures var r := Requests(net, names, n, i);
      && i <= r <= |names| && (i < |names| ==> i < r)
      && (forall k | i <= k < r - 1 :: net.reply(n + k, names[k]).answer == Found("enabled"))
      && (i < r < |names| ==> net.reply(n + r - 1, names[r - 1]).answer != Found("enabled"))
    decreases |names| - i
  {
    if i == |names| {
    } else {
      RequestsMean(net, names, n, i + 1);
    }
  }

  /** The clock goes on by what each request takes. */
  ghost predicate Clocks(net: Network, names: seq<string>, n: nat, i: nat, clock: seq<int>) {
    i <= |names| && 1 <= |clock| <= |names| - i + 1 &&
    forall k | 0 <= k < |clock| - 1 :: clock[k + 1] == clock[k] + net.reply(n + i + k, names[i + k]).took
  }

  lemma ClocksShift(net: Network, names: seq<string>, n: nat, i: nat, rest: seq<int>) returns (clock: seq<int>)
    requires i < |names| && Clocks(net, names, n, i + 1, rest) && rest[0] == 0
    ensures Clocks(net, names, n, i, clock) && |clock| == |rest| + 1 && clock[0] == 0
    ensures clock[|rest|] == rest[|rest| - 1] + net.reply(n + i, names[i]).took
  {
    var took := net.reply(n + i, names[i]).took;
    clock := [0] + seq(|rest|, k requires 0 <= k < |rest| => rest[k] + took);
    forall k | 0 <= k < |clock| - 1 ensures clock[k + 1] == clock[k] + net.reply(n + i + k, names[i + k]).took {
      if k > 0 {
        assert rest[k] == rest[k - 1] + net.reply(n + (i + 1) + (k - 1), names[(i + 1) + (k - 1)]).took;
        assert n + (i + 1) + (k - 1) == n + i + k && (i + 1) + (k - 1) == i + k;
      }
    }
  }

  lemma {:induction false} DurationMeans(net: Network, names: seq<string>, n: nat, i: nat) returns (clock: seq<int>)
    requires i <= |names|
    ensures Clocks(net, names, n, i, clock) && |clock| == Requests(net, names, n, i) - i + 1
    ensures clock[0] == 0 && clock[|clock| - 1] == Duration(net, names, n, i)
    decreases |names| - i
  {
    if i == |names| {
      clock := [0];
    } else if Enabled(net, n + i, names[i]) {
      var rest := DurationMeans(net, names, n, i + 1);
      hide Clocks;
      clock := ClocksShift(net, names, n, i, rest);
    } else {
      clock := [0, net.reply(n + i, names[i]).took];
    }
  }

  /** Asks for each name until one is not enabled. */
  method AllEnabled(net: Network, names: seq<string>, n: nat, now: int)
    returns (ok: bool, failed: bool, asked: nat, end: int)
    requires Sensible(net)
    ensures ok <==> SawAll(net, names, n)
    ensures ok <==> forall i | 0 <= i < |names| :: net.reply(n + i, names[i]).answer == Found("enabled")
    ensures asked == Requests(net, names, n, 0) && end == now + Duration(net, names, n, 0)
    ensures asked <= |names| && now <= end <= now + asked * SECOND
    ensures forall i | 0 <= i < asked - 1 :: Enabled(net, n + i, names[i])
    ensures !ok ==> 0 < asked && !Enabled(net, n + asked - 1, names[asked - 1])
    ensures ok ==> asked == |names|
    ensures failed <==> !ok && net.reply(n + asked - 1, names[asked - 1]).answer in {HttpError, NetworkError, BadBody}
  {
    asked, end := 0, now;
    while asked < |names|
      invariant asked <= |names| && now <= end <= now + asked * SECOND
      invariant forall i | 0 <= i < asked :: Enabled(net, n + i, names[i])
      invariant Requests(net, names, n, 0) == Requests(net, names, n, asked)
      invariant now + Duration(net, names, n, 0) == end + Duration(net, names, n, asked)
    {
      var reply := net.reply(n + asked, names[asked]);
      asked := asked + 1;
      end := end + reply.took;
      match reply.answer {
        case NetworkError => return false, true, asked, end;
        case NotFound => return false, false, asked, end;
        case HttpError => return false, true, asked, end;
        case BadBody => return false, true, asked, end;
        case Found(text) => if text != "enabled" { return false, false, asked, end; }
      }
    }
    ok, failed := true, false;
  }

  function Grown(interval: int): int {
    if interval * 3 / 2 < POLL_MAX then interval * 3 / 2 else POLL_MAX
  }

  /** The k-th sweep cannot start earlier than this after the first one. */
  function Earliest(k: nat): int {
    if k == 0 then 0 else if k == 1 then 100 * MILLISECOND else if k == 2 then 250 * MILLISECOND
    else 475 * MILLISECOND + (k - 3) * POLL_MAX
  }

  /** The pause after the k-th sweep. */
  function Pause(k: nat): int {
    if k == 0 then POLL_INITIAL else Grown(Pause(k - 1))
  }

  lemma {:induction false} PauseMeans(k: nat)
    ensures Earliest(k + 1) == Earliest(k) + Pause(k) && POLL_INITIAL <= Pause(k) <= POLL_MAX
    ensures k >= 3 ==> Pause(k) == POLL_MAX
    ensures Pause(k) == if k == 0 then 100000000 else if k == 1 then 150000000 else if k == 2 then 225000000 else 250000000
  {
    if k == 0 {
    } else {
      PauseMeans(k - 1);
      if k == 1 { assert Pause(0) == POLL_INITIAL; }
      if k == 2 { assert Pause(1) == Grown(POLL_INITIAL); }
      if k == 3 { assert Pause(2) == Grown(Grown(POLL_INITIAL)); }
    }
  }

  lemma EarliestGrows(k: nat)
    ensures k * POLL_INITIAL <= Earliest(k)
  {
    if k >= 3 { assert (k - 3) * POLL_INITIAL <= (k - 3) * POLL_MAX; }
  }

  /** One sweep of the call: the number of its first request and the time it started. */
  datatype Sweep = Sweep(first: nat, start: int)

  /** When the sweep is over. */
  function Finish(net: Network, names: seq<string>, s: Sweep): int { s.start + Duration(net, names, s.first, 0) }

  /** The sweeps of one call: the first at once, each next one after the pause, asking from where the one before
      stopped. */
  predicate Consecutive(net: Network, names: seq<string>, start: int, sweeps: seq<Sweep>) {
    && (sweeps != [] ==> sweeps[0] == Sweep(0, start))
    && forall k | 0 <= k < |sweeps| - 1 ::
         sweeps[k + 1] == Sweep(sweeps[k].first + Requests(net, names, sweeps[k].first, 0),
                                Finish(net, names, sweeps[k]) + Pause(k))
  }

  /** The first sweep starts at once; each next one asks on from where the one before stopped, a pause after its end. */
  lemma ConsecutiveMeans(net: Network, names: seq<string>, start: int, sweeps: seq<Sweep>)
    requires Consecutive(net, names, start, sweeps)
    ensures sweeps != [] ==> sweeps[0] == Sweep(0, start)
    ensures forall k | 0 <= k < |sweeps| - 1 ::
      && sweeps[k + 1].first == sweeps[k].first + Requests(net, names, sweeps[k].first, 0)
      && sweeps[k + 1].start == sweeps[k].start + Duration(net, names, sweeps[k].first, 0) + Pause(k)
  {
  }

  /** `sweeps` lists the sweeps made, `end` is when the call returns. */
  method WaitTraefikRouters(net: Network, baseUrl: string, names: seq<string>, timeout: int, start: int)
    returns (outcome: Outcome, sweeps: seq<Sweep>, end: int)
    requires Sensible(net)
    ensures baseUrl == "" || timeout <= 0 || names == [] ==> outcome == Ready && sweeps == [] && end == start
    ensures baseUrl != "" && timeout > 0 && names != [] ==>
      && (outcome == Ready <==> exists k | 0 <= k < |sweeps| :: SawAll(net, names, sweeps[k].first))
      && (forall k | 0 <= k < |sweeps| - 1 ::
            !SawAll(net, names, sweeps[k].first) && Finish(net, names, sweeps[k]) <= start + timeout)
      && (forall k | 0 <= k < |sweeps| :: !CancelledBy(net, sweeps[k].start))
      && (outcome == Cancelled ==> CancelledBy(net, end))
      && (outcome.TimedOut? ==> end > start + timeout)
      && (outcome != Cancelled ==> sweeps != [] && end == Finish(net, names, sweeps[|sweeps| - 1]))
      && |sweeps| <= timeout / (100 * MILLISECOND) + 2
      && (|sweeps| >= 2 ==> Earliest(|sweeps| - 2) <= timeout)
      && start <= end <= start + timeout + 250 * MILLISECOND + |names| * SECOND
    ensures Consecutive(net, names, start, sweeps)
    ensures forall k | 0 <= k < |sweeps| :: sweeps[k].start >= start + Earliest(k)
  {
    hide Sensible, SawAll, Enabled, Pause, Grown, Earliest, Requests, Duration, Consecutive, Finish, CancelledBy;
    EarliestStarts();
    sweeps, end := [], start;
    ConsecutiveStarts(net, names, start);
    if baseUrl == "" || timeout <= 0 || |names| == 0 { return Ready, sweeps, end; }
    var deadline := start + timeout;
    var interval := POLL_INITIAL;
    var asked := 0;
    while true
      invariant interval == Pause(|sweeps|)
      invariant Consecutive(net, names, start, sweeps + [Sweep(asked, end)])
      invariant start + Earliest(|sweeps|) <= end <= deadline + POLL_MAX
      invariant start <= end
      invariant |sweeps| >= 1 ==> Earliest(|sweeps| - 1) <= timeout
      invariant forall k | 0 <= k < |sweeps| :: !SawAll(net, names, sweeps[k].first)
      invariant forall k | 0 <= k < |sweeps| :: Finish(net, names, sweeps[k]) <= deadline
      invariant forall k | 0 <= k < |sweeps| :: !CancelledBy(net, sweeps[k].start)
      invariant forall k | 0 <= k < |sweeps| :: sweeps[k].start >= start + Earliest(k)
      decreases deadline + POLL_MAX - end
    {
      CountBound(|sweeps|, timeout);
      PauseMeans(|sweeps|);
      ConsecutiveFront(net, names, start, sweeps, Sweep(asked, end));
      if |sweeps| >= 2 { PauseMeans(|sweeps| - 2); }
      if CancelledBy(net, end) { return Cancelled, sweeps, end; }
      var ok, failed, n, after := AllEnabled(net, names, asked, end);
      RoundBound(n, |names|);
      sweeps := sweeps + [Sweep(asked, end)];
      asked, end := asked + n, after;
      FinishIs(net, names, sweeps[|sweeps| - 1]);
      if ok {
        assert SawAll(net, names, sweeps[|sweeps| - 1].first);
        return Ready, sweeps, end;
      }
      if end > deadline { return TimedOut(failed), sweeps, end; }
      if CancelledBy(net, end + interval) {
        CancelledWithin(net, end, interval);
        return Cancelled, sweeps, if net.cancelAt.value > end then net.cancelAt.value else end;
      }
      end := end + interval;
      interval := Grown(interval);
      NextPause(|sweeps| - 1);
      ConsecutiveNext(net, names, start, sweeps, Sweep(asked, end));
    }
  }

  lemma FinishIs(net: Network, names: seq<string>, s: Sweep)
    ensures Finish(net, names, s) == s.start + Duration(net, names, s.first, 0)
  {
  }

  lemma CancelledWithin(net: Network, from: int, pause: int)
    requires pause >= 0 && CancelledBy(net, from + pause)
    ensures net.cancelAt.Some? && net.cancelAt.value <= from + pause
    ensures CancelledBy(net, if net.cancelAt.value > from then net.cancelAt.value else from)
  {
  }

  lemma ConsecutiveStarts(net: Network, names: seq<string>, start: int)
    ensures Consecutive(net, names, start, []) && Consecutive(net, names, start, [] + [Sweep(0, start)])
  {
  }

  lemma ConsecutiveFront(net: Network, names: seq<string>, start: int, sweeps: seq<Sweep>, last: Sweep)
    requires Consecutive(net, names, start, sweeps + [last])
    ensures Consecutive(net, names, start, sweeps)
  {
    var all := sweeps + [last];
    forall k | 0 <= k < |sweeps| - 1
      ensures sweeps[k + 1] == Sweep(sweeps[k].first + Requests(net, names, sweeps[k].first, 0),
                                     Finish(net, names, sweeps[k]) + Pause(k))
    {
      assert sweeps[k + 1] == all[k + 1] && sweeps[k] == all[k];
    }
    hide Requests, Duration, Pause;
  }

  lemma ConsecutiveNext(net: Network, names: seq<string>, start: int, sweeps: seq<Sweep>, next: Sweep)
    requires Consecutive(net, names, start, sweeps) && sweeps != []
    requires var last := sweeps[|sweeps| - 1];
      next == Sweep(last.first + Requests(net, names, last.first, 0), Finish(net, names, last) + Pause(|sweeps| - 1))
    ensures Consecutive(net, names, start, sweeps + [next])
  {
  }

  lemma EarliestStarts()
    ensures Earliest(0) == 0 && Pause(0) == POLL_INITIAL
  {
  }

  lemma NextPause(k: nat)
    ensures Pause(k + 1) == Grown(Pause(k))
  {
  }

  lemma RoundBound(n: nat, all: nat)
    requires n <= all
    ensures n * SECOND <= all * SECOND
  {
  }

  lemma CountBound(count: nat, timeout: int)
    requires timeout > 0 && (count >= 1 ==> Earliest(count - 1) <= timeout)
    ensures count + 1 <= timeout / (100 * MILLISECOND) + 2
  {
    if count >= 1 { EarliestGrows(count - 1); }
  }
}
