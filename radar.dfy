/**
 * The `Agent Status` panel of the sidebar: four fixed agent backends, a map from
 * each backend's key to the last health status seen for it (`None` until the
 * first poll answers), the merge a poll performs on that map, and the dot each
 * status is drawn with.
 *
 * A call to the status endpoint is given as its outcome: the number it
 * returned, or that it threw. The timer that repeats the poll and the order in
 * which concurrent calls settle are not part of this model.
 */
module StatusRadar {
  import opened Wrappers

  /** One polled backend: its key in the status map, its caption (`label`), its address. */
  datatype Target = Target(key: string, caption: string, endpoint: string)

  /** The backends, in the order the panel lists them. */
  const Targets: seq<Target> := [
    Target("gnosis", "Gnosis", "http://localhost:8600"),
    Target("architect", "Architect", "http://localhost:8601"),
    Target("browser", "Browser", "http://localhost:8602"),
    Target("phantom", "Phantom", "http://localhost:8603")
  ]

  /** `Record<string, number | null>`: `None` is `null`. */
  type StatusMap = map<string, Option<int>>

  /** No two targets share a key. */
  predicate DistinctKeys(ts: seq<Target>) {
    forall i, j :: 0 <= i < j < |ts| ==> ts[i].key != ts[j].key
  }

  /** The keys of the targets. */
  function KeysOf(ts: seq<Target>): set<string> {
    set i | 0 <= i < |ts| :: ts[i].key
  }

  /** Before any poll answers, every backend has an entry and none has a status. */
  function InitialStatusMap(): (m: StatusMap)
    ensures forall k :: k in m ==> m[k] == None
  {
    map["gnosis" := None, "architect" := None, "browser" := None, "phantom" := None]
  }

  /** The initial map has exactly one entry per backend, and the backends' keys
      are distinct, so each poll writes four different entries. */
  lemma TargetsMatchInitialMap()
    ensures DistinctKeys(Targets)
    ensures KeysOf(Targets) == InitialStatusMap().Keys
  {
    var ks := KeysOf(Targets);
    assert Targets[0].key in ks && Targets[1].key in ks && Targets[2].key in ks && Targets[3].key in ks;
  }

  /** What one `getStatusAPI` call came to. */
  datatype CallOutcome = Returned(status: int) | Threw

  /** The status recorded for one call: what it returned, or 0 when it threw. */
  function StatusOrZero(o: CallOutcome): (s: int)
    ensures o.Returned? ==> s == o.status
    ensures o.Threw? ==> s == 0
  {
    match o
    case Returned(status) => status
    case Threw => 0
  }

  /** `targets.map(...)` under `Promise.all`: one `[key, status]` pair per target,
      in target order whatever order the calls settle in. */
  function Results(ts: seq<Target>, os: seq<CallOutcome>): (r: seq<(string, int)>)
    requires |ts| == |os|
    ensures |r| == |ts|
    ensures forall i :: 0 <= i < |r| ==> r[i] == (ts[i].key, StatusOrZero(os[i]))
  {
    if ts == [] then []
    else [(ts[0].key, StatusOrZero(os[0]))] + Results(ts[1..], os[1..])
  }

  /** `Object.fromEntries`: the pairs are written in order, so when a key occurs
      twice the later pair wins. */
  function FromEntries(es: seq<(string, int)>): (m: StatusMap)
    ensures m.Keys == set i | 0 <= i < |es| :: es[i].0
    decreases |es|
  {
    if es == [] then map[]
    else FromEntries(es[..|es| - 1])[es[|es| - 1].0 := Some(es[|es| - 1].1)]
  }

  /** A pair of `es` whose key does not occur later in `es` gives that key its value. */
  lemma {:induction false} FromEntriesLookup(es: seq<(string, int)>, i: nat)
    requires i < |es|
    requires forall j :: i < j < |es| ==> es[j].0 != es[i].0
    ensures es[i].0 in FromEntries(es) && FromEntries(es)[es[i].0] == Some(es[i].1)
    decreases |es|
  {
    if i < |es| - 1 {
      var front := es[..|es| - 1];
      assert front[i] == es[i];
      FromEntriesLookup(front, i);
    }
  }

  /** The setter `pollStatuses` passes to `setStatusMap`, `{ ...prev,
      ...fromEntries(results) }`, for the targets `ts` (the panel polls `Targets`). */
  function Poll(ts: seq<Target>, prev: StatusMap, os: seq<CallOutcome>): StatusMap
    requires |os| == |ts|
  {
    prev + FromEntries(Results(ts, os))
  }

  /** A poll adds the targets' keys and removes none. */
  lemma PollKeys(ts: seq<Target>, prev: StatusMap, os: seq<CallOutcome>)
    requires |os| == |ts|
    ensures Poll(ts, prev, os).Keys == prev.Keys + KeysOf(ts)
  {
  }

  /** After a poll, each target's entry is the status its call returned, or 0
      when the call threw. */
  lemma PollLookup(ts: seq<Target>, prev: StatusMap, os: seq<CallOutcome>, i: nat)
    requires |os| == |ts| && i < |ts| && DistinctKeys(ts)
    ensures ts[i].key in Poll(ts, prev, os)
    ensures Poll(ts, prev, os)[ts[i].key] == Some(StatusOrZero(os[i]))
  {
    var es := Results(ts, os);
    assert forall j :: i < j < |es| ==> es[j].0 != es[i].0;
    FromEntriesLookup(es, i);
  }

  /** A poll leaves every key that is not a target's as it was. */
  lemma PollOthers(ts: seq<Target>, prev: StatusMap, os: seq<CallOutcome>, k: string)
    requires |os| == |ts| && k in prev && k !in KeysOf(ts)
    ensures k in Poll(ts, prev, os) && Poll(ts, prev, os)[k] == prev[k]
  {
  }

  /** Every target's entry is overwritten by each poll, so what an earlier poll
      saw never shows through a later one. */
  lemma LastPollWins(ts: seq<Target>, prev: StatusMap, earlier: seq<CallOutcome>, later: seq<CallOutcome>)
    requires |earlier| == |ts| && |later| == |ts| && DistinctKeys(ts)
    ensures Poll(ts, Poll(ts, prev, earlier), later) == Poll(ts, prev, later)
  {
    var mid := Poll(ts, prev, earlier);
    var a := Poll(ts, mid, later);
    var b := Poll(ts, prev, later);
    PollKeys(ts, prev, earlier);
    PollKeys(ts, mid, later);
    PollKeys(ts, prev, later);
    forall k | k in a
      ensures a[k] == b[k]
    {
      if k in KeysOf(ts) {
        var i :| 0 <= i < |ts| && ts[i].key == k;
        PollLookup(ts, mid, later, i);
        PollLookup(ts, prev, later, i);
      } else {
        PollOthers(ts, mid, later, k);
        PollOthers(ts, prev, earlier, k);
        PollOthers(ts, prev, later, k);
      }
    }
  }

  /** The map after a run of polls, oldest first, from `m`. */
  function Polls(ts: seq<Target>, m: StatusMap, rounds: seq<seq<CallOutcome>>): StatusMap
    requires forall r :: 0 <= r < |rounds| ==> |rounds[r]| == |ts|
    decreases |rounds|
  {
    if rounds == [] then m else Poll(ts, Polls(ts, m, rounds[..|rounds| - 1]), rounds[|rounds| - 1])
  }

  /** After one or more polls the map is what the latest poll alone makes of the
      starting map. */
  lemma {:induction false} PollsIsLastPoll(ts: seq<Target>, m: StatusMap, rounds: seq<seq<CallOutcome>>)
    requires forall r :: 0 <= r < |rounds| ==> |rounds[r]| == |ts|
    requires rounds != [] && DistinctKeys(ts)
    ensures Polls(ts, m, rounds) == Poll(ts, m, rounds[|rounds| - 1])
    decreases |rounds|
  {
    var front := rounds[..|rounds| - 1];
    if front != [] {
      var p, q := front[|front| - 1], rounds[|rounds| - 1];
      assert |p| == |ts| && |q| == |ts|;
      PollsIsLastPoll(ts, m, front);
      assert Polls(ts, m, rounds) == Poll(ts, Poll(ts, m, p), q);
      LastPollWins(ts, m, p, q);
    }
  }

  /** The panel's map keeps exactly the four backend keys through any run of polls. */
  lemma {:induction false} PollsKeepKeys(rounds: seq<seq<CallOutcome>>)
    requires forall r :: 0 <= r < |rounds| ==> |rounds[r]| == |Targets|
    ensures Polls(Targets, InitialStatusMap(), rounds).Keys == InitialStatusMap().Keys
    decreases |rounds|
  {
    TargetsMatchInitialMap();
    if rounds != [] {
      PollsKeepKeys(rounds[..|rounds| - 1]);
      PollKeys(Targets, Polls(Targets, InitialStatusMap(), rounds[..|rounds| - 1]), rounds[|rounds| - 1]);
    }
  }

  /** How a status dot is drawn. */
  datatype Dot = Pending | Healthy | Unhealthy

  /** `getDotClass`: no status yet is pending, a 2xx status is healthy, and
      anything else (0 for a failed call included) is unhealthy. */
  function DotClass(status: Option<int>): (d: Dot)
    ensures d == Pending <==> status == None
    ensures d == Healthy <==> status.Some? && 200 <= status.value < 300
  {
    if status == None then Pending
    else if 200 <= status.value < 300 then Healthy
    else Unhealthy
  }

  /** `getDotClass(statusMap[key])`: a key missing from the map reads as
      `undefined`, which is neither `null` nor in range, so it is drawn unhealthy. */
  function DotFor(m: StatusMap, key: string): (d: Dot)
    ensures key !in m ==> d == Unhealthy
    ensures key in m ==> d == DotClass(m[key])
  {
    if key in m then DotClass(m[key]) else Unhealthy
  }

  /** The panel's grid: each backend's caption with its dot, in target order. */
  function Dots(m: StatusMap): (r: seq<(string, Dot)>)
    ensures |r| == |Targets|
    ensures forall i :: 0 <= i < |r| ==> r[i] == (Targets[i].caption, DotFor(m, Targets[i].key))
  {
    seq(|Targets|, i requires 0 <= i < |Targets| => (Targets[i].caption, DotFor(m, Targets[i].key)))
  }

  /** Before the first poll answers, every dot is pending. */
  lemma InitialDotsPending()
    ensures forall i :: 0 <= i < |Targets| ==> Dots(InitialStatusMap())[i].1 == Pending
  {
  }

  /** After any poll no dot is pending: each is healthy exactly when its call
      returned a 2xx status, so a call that threw shows unhealthy. */
  lemma DotsAfterPoll(prev: StatusMap, os: seq<CallOutcome>, i: nat)
    requires |os| == |Targets| && i < |Targets|
    ensures Dots(Poll(Targets, prev, os))[i].1 != Pending
    ensures Dots(Poll(Targets, prev, os))[i].1 == Healthy <==> os[i].Returned? && 200 <= os[i].status < 300
  {
    TargetsMatchInitialMap();
    PollLookup(Targets, prev, os, i);
  }

  /** The browser agent is down and the others answer 200, 503 and 204. */
  lemma OneBackendDown()
    ensures var d := Dots(Poll(Targets, InitialStatusMap(), [Returned(200), Returned(503), Threw, Returned(204)]));
      d[0].1 == Healthy && d[1].1 == Unhealthy && d[2].1 == Unhealthy && d[3].1 == Healthy
  {
    var os := [Returned(200), Returned(503), Threw, Returned(204)];
    DotsAfterPoll(InitialStatusMap(), os, 0);
    DotsAfterPoll(InitialStatusMap(), os, 1);
    DotsAfterPoll(InitialStatusMap(), os, 2);
    DotsAfterPoll(InitialStatusMap(), os, 3);
  }
}
