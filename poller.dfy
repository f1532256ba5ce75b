/** The readiness poller (`waitForDeploymentToBeReady`): re-fetch a
    deployment every `ReadyInterval` seconds until its ready state is
    terminal or the readiness budget runs out. */
module Poller {
  import opened Vercel

  /** A ready state the poller waits on: anything but READY, ERROR and
      CANCELED (QUEUED, BUILDING and any unknown string alike). */
  predicate Pending(d: Deployment)
  {
    d.readyState != StateReady && d.readyState != StateError && d.readyState != StateCanceled
  }

  /** `n` readiness checks of deployment `id`: a wait of `ReadyInterval`
      seconds, then a fetch by `id`. */
  function Refetches(id: string, n: nat): (es: seq<Effect>)
    ensures |es| == 2 * n
  {
    if n == 0 then [] else [Wait(ReadyInterval), FetchById(id)] + Refetches(id, n - 1)
  }

  /** Effects that are waits of `ReadyInterval` seconds, each followed by a
      fetch by id. */
  predicate PollShape(es: seq<Effect>)
    decreases |es|
  {
    es == [] || (|es| >= 2 && es[0] == Wait(ReadyInterval) && es[1].FetchById? && PollShape(es[2..]))
  }

  /** The last snapshot of the deployment the poller looked at: `d` itself if
      it fetched nothing, else the provider's answer to its last fetch (none
      if that fetch failed). */
  function LastSeen(p: Provider, d: Deployment, past: seq<Effect>, es: seq<Effect>): Option<Deployment>
  {
    if es == [] || !es[|es| - 1].FetchById? then Some(d)
    else match p.fetch(es[|es| - 1].id, past + es[..|es| - 1])
      case Fetched(u) => Some(u)
      case FetchError => None
  }

  lemma LastSeenStep(p: Provider, d: Deployment, u: Deployment, past: seq<Effect>, rest: seq<Effect>)
    requires p.fetch(d.id, past + [Wait(ReadyInterval)]) == Fetched(u)
    requires rest == [] || rest[|rest| - 1].FetchById?
    ensures LastSeen(p, d, past, [Wait(ReadyInterval), FetchById(d.id)] + rest)
      == LastSeen(p, u, past + [Wait(ReadyInterval), FetchById(d.id)], rest)
  {
    var round := [Wait(ReadyInterval), FetchById(d.id)];
    var es := round + rest;
    if rest == [] {
      assert es == round && es[..1] == [Wait(ReadyInterval)];
    } else {
      assert es[|es| - 1] == rest[|rest| - 1];
      assert es[..|es| - 1] == round + rest[..|rest| - 1];
      assert past + es[..|es| - 1] == (past + round) + rest[..|rest| - 1];
    }
  }

  /** `waitForDeploymentToBeReady` (index.js:102-132). The budget is checked
      before the state; the outcome is decided by the last snapshot seen. */
  function WaitForDeploymentToBeReady(p: Provider, d: Deployment, retries: int, past: seq<Effect>): (s: Run)
    decreases Budget(retries)
    ensures PollShape(s.effects) && |s.effects| <= 2 * Budget(retries)
    ensures s.effects != [] ==> s.effects[1] == FetchById(d.id) && s.effects[|s.effects| - 1].FetchById?
    ensures s.outcome.Record? ==>
      LastSeen(p, d, past, s.effects) == Some(s.outcome.deployment) && s.outcome.deployment.readyState == StateReady
    ensures s.outcome.NoRecord? ==>
      LastSeen(p, d, past, s.effects).Some? && LastSeen(p, d, past, s.effects).value.readyState == StateCanceled
    ensures s.outcome == Threw(DeploymentFailed) ==>
      LastSeen(p, d, past, s.effects).Some? && LastSeen(p, d, past, s.effects).value.readyState == StateError
    ensures s.outcome == Threw(ReadyTimeout) ==> |s.effects| == 2 * Budget(retries)
    ensures s.outcome.Threw? ==> s.outcome.error in {ReadyTimeout, DeploymentFailed, ApiError}
    ensures s.outcome == Threw(ApiError) <==> LastSeen(p, d, past, s.effects).None?
  {
    if retries <= 0 then Run(Threw(ReadyTimeout), [])
    else if d.readyState == StateReady then Run(Record(d), [])
    else if d.readyState == StateError then Run(Threw(DeploymentFailed), [])
    else if d.readyState == StateCanceled then Run(NoRecord, [])
    else
      var round := [Wait(ReadyInterval), FetchById(d.id)];
      match p.fetch(d.id, past + [Wait(ReadyInterval)])
      case FetchError =>
        assert round[2..] == [] && round[..1] == [Wait(ReadyInterval)];
        Run(Threw(ApiError), round)
      case Fetched(u) =>
        var rest := WaitForDeploymentToBeReady(p, u, retries - 1, past + round);
        LastSeenStep(p, d, u, past, rest.effects);
        assert (round + rest.effects)[2..] == rest.effects;
        Run(rest.outcome, round + rest.effects)
  }

  /** The budget is checked before the state: with no budget left even a
      READY deployment times out. Within the budget, READY returns the very
      record it was given, however often it is polled, ERROR throws and
      CANCELED returns nothing, all three without a wait or a fetch
      (index.js:104-117). */
  lemma PollerTerminalStates(p: Provider, d: Deployment, retries: int, past: seq<Effect>)
    ensures retries <= 0 ==> WaitForDeploymentToBeReady(p, d, retries, past) == Run(Threw(ReadyTimeout), [])
    ensures retries > 0 && d.readyState == StateReady ==>
      WaitForDeploymentToBeReady(p, d, retries, past) == Run(Record(d), [])
    ensures retries > 0 && d.readyState == StateError ==>
      WaitForDeploymentToBeReady(p, d, retries, past) == Run(Threw(DeploymentFailed), [])
    ensures retries > 0 && d.readyState == StateCanceled ==>
      WaitForDeploymentToBeReady(p, d, retries, past) == Run(NoRecord, [])
  {
  }

  /** A pending deployment within the budget costs one round, a wait and a
      re-fetch, in front of the polling of the re-fetched record. */
  lemma PendingRoundStep(p: Provider, d: Deployment, u: Deployment, retries: int, past: seq<Effect>, rest: Run)
    requires retries > 0 && Pending(d) && p.fetch(d.id, past + [Wait(ReadyInterval)]) == Fetched(u)
    requires WaitForDeploymentToBeReady(p, u, retries - 1, past + [Wait(ReadyInterval), FetchById(d.id)]) == rest
    ensures WaitForDeploymentToBeReady(p, d, retries, past)
      == Run(rest.outcome, [Wait(ReadyInterval), FetchById(d.id)] + rest.effects)
  {
  }

  /** A provider that keeps answering fetches of `id` with a pending record
      of that same id. */
  ghost predicate NeverSettles(p: Provider, id: string)
  {
    forall t :: p.fetch(id, t).Fetched? && p.fetch(id, t).deployment.id == id && Pending(p.fetch(id, t).deployment)
  }

  /** A deployment that never leaves a pending state is polled exactly as
      often as the budget allows: that many waits of `ReadyInterval` seconds,
      each followed by a re-fetch by the original id, then the timeout
      (index.js:104-108, 118-130). */
  lemma {:induction false} PollerTimesOut(p: Provider, d: Deployment, retries: int, past: seq<Effect>)
    requires Pending(d) && NeverSettles(p, d.id)
    ensures WaitForDeploymentToBeReady(p, d, retries, past) == Run(Threw(ReadyTimeout), Refetches(d.id, Budget(retries)))
    decreases Budget(retries)
  {
    if retries > 0 {
      var round := [Wait(ReadyInterval), FetchById(d.id)];
      var u := p.fetch(d.id, past + [Wait(ReadyInterval)]).deployment;
      PollerTimesOut(p, u, retries - 1, past + round);
      PendingRoundStep(p, d, u, retries, past, Run(Threw(ReadyTimeout), Refetches(d.id, Budget(retries - 1))));
    }
  }

  /** The provider's snapshots of `d` stay pending and keep the id for `k`
      re-fetches, and the `k`-th one is READY. */
  ghost predicate ReadyAfter(p: Provider, d: Deployment, k: nat, past: seq<Effect>)
    decreases k
  {
    if k == 0 then d.readyState == StateReady
    else
      && Pending(d)
      && var r := p.fetch(d.id, past + [Wait(ReadyInterval)]);
         && r.Fetched? && r.deployment.id == d.id
         && ReadyAfter(p, r.deployment, k - 1, past + [Wait(ReadyInterval), FetchById(d.id)])
  }

  /** A deployment that becomes READY on the `k`-th re-fetch, with `k` below
      the budget, is returned READY after exactly `k` waits and `k` fetches by
      its id, leaving the rest of the budget unused (index.js:111-113,
      118-130). */
  lemma {:induction false} PollerReachesReady(p: Provider, d: Deployment, retries: int, past: seq<Effect>, k: nat)
    requires k < Budget(retries) && ReadyAfter(p, d, k, past)
    ensures var s := WaitForDeploymentToBeReady(p, d, retries, past);
      s.outcome.Record? && s.outcome.deployment.readyState == StateReady && s.effects == Refetches(d.id, k)
    decreases k
  {
    if k > 0 {
      var round := [Wait(ReadyInterval), FetchById(d.id)];
      var u := p.fetch(d.id, past + [Wait(ReadyInterval)]).deployment;
      PollerReachesReady(p, u, retries - 1, past + round, k - 1);
      PendingRoundStep(p, d, u, retries, past, WaitForDeploymentToBeReady(p, u, retries - 1, past + round));
    }
  }
}
