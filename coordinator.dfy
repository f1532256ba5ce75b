/** The run coordinator (`main`, index.js:12-163): read the retry settings,
    locate the deployment of the triggering commit, wait for it to be ready,
    and set the action's outputs. */
module Coordinator {
  import opened Vercel
  import Locator
  import Poller

  const DefaultSearchRetries: int := 3
  const DefaultReadyRetries: int := 10

  /** `parseInt(input, 10) || fallback` (index.js:17-18). The input is the
      parsed integer, `None` when it does not parse (NaN). Zero and NaN are
      false in JavaScript and give the fallback; every other integer,
      negative ones included, is kept. */
  function RetriesSetting(input: Option<int>, fallback: int): (r: int)
    ensures input.Some? && input.value != 0 ==> r == input.value
    ensures input.None? || input.value == 0 ==> r == fallback
    ensures fallback != 0 ==> r != 0
  {
    if input.Some? && input.value != 0 then input.value else fallback
  }

  /** The action's inputs that reach the core, and the triggering commit. */
  datatype Inputs = Inputs(sha: string, searchRetries: Option<int>, readyRetries: Option<int>)

  /** The four outputs the action sets. */
  datatype Outputs = Outputs(url: string, id: string, name: string, branchName: Option<string>)

  /** How a run ends: failed with an error's message, or completed, with or
      without outputs. */
  datatype Ending = Failed(error: Error) | Completed(outputs: Option<Outputs>)

  datatype Action = Action(ending: Ending, effects: seq<Effect>)

  function OutputsOf(d: Deployment): Outputs
  {
    Outputs(d.url, d.id, d.name, d.branchRef)
  }

  /** Locate the deployment, then poll it (index.js:134-148). The outcome is
      the poller's, or the not-found error, or the search's API error. */
  function Pipeline(inputs: Inputs, p: Provider, h: History, bound: nat): (r: Run)
    requires Locator.MergeChainWithin(h, inputs.sha, bound)
    ensures var search := RetriesSetting(inputs.searchRetries, DefaultSearchRetries);
      (r.outcome == Threw(DeploymentNotFound(inputs.sha))) <==>
      Locator.FindDeployment(search, p, h, inputs.sha, 0, bound, []).outcome.NoRecord?
    ensures r.outcome.Record? ==> r.outcome.deployment.readyState == StateReady
    ensures r.outcome.Threw? ==>
      r.outcome.error in {ApiError, DeploymentNotFound(inputs.sha), DeploymentFailed, ReadyTimeout}
    ensures var located := Locator.FindDeployment(RetriesSetting(inputs.searchRetries, DefaultSearchRetries),
                                                  p, h, inputs.sha, 0, bound, []);
      && (located.outcome.Threw? ==> r == located)
      && (located.outcome.NoRecord? ==> r.effects == located.effects)
      && (located.outcome.Record? ==>
            var polled := Poller.WaitForDeploymentToBeReady(p, located.outcome.deployment,
                                                            RetriesSetting(inputs.readyRetries, DefaultReadyRetries),
                                                            located.effects);
            r == Run(polled.outcome, located.effects + polled.effects))
  {
    var search := RetriesSetting(inputs.searchRetries, DefaultSearchRetries);
    var ready := RetriesSetting(inputs.readyRetries, DefaultReadyRetries);
    var located := Locator.FindDeployment(search, p, h, inputs.sha, 0, bound, []);
    match located.outcome
    case NoRecord => Run(Threw(DeploymentNotFound(inputs.sha)), located.effects)
    case Threw(e) => Run(Threw(e), located.effects)
    case Record(d) =>
      var polled := Poller.WaitForDeploymentToBeReady(p, d, ready, located.effects);
      Run(polled.outcome, located.effects + polled.effects)
  }

  /** index.js:150-163 as written: line 150 reads `readyDeployment.url`
      before the check on line 152, so a poller that returned nothing (the
      CANCELED state) makes the run fail with a TypeError. */
  function ConcludeAsWritten(polled: Outcome): (e: Ending)
    ensures polled.NoRecord? ==> e == Failed(UrlOfUndefined)
    ensures e.Completed? && e.outputs.Some? <==> polled.Record? && polled.deployment.url != ""
    ensures !polled.NoRecord? ==> e == Conclude(polled)
  {
    match polled
    case Threw(err) => Failed(err)
    case NoRecord => Failed(UrlOfUndefined)
    case Record(d) => if d.url != "" then Completed(Some(OutputsOf(d))) else Completed(None)
  }

  /** index.js:150-163 as evidently intended by the check on line 152: a
      poller that returned nothing completes the run silently. Outputs are set
      exactly when a record with a non-empty url came back, and are that
      record's url, id, name and branch. */
  function Conclude(polled: Outcome): (e: Ending)
    ensures e.Completed? && e.outputs.Some? <==> polled.Record? && polled.deployment.url != ""
    ensures e.Completed? && e.outputs.Some? ==> e.outputs.value == OutputsOf(polled.deployment)
    ensures e.Completed? <==> !polled.Threw?
    ensures e.Failed? ==> e.error == polled.error
  {
    match polled
    case Threw(err) => Failed(err)
    case NoRecord => Completed(None)
    case Record(d) => if d.url != "" then Completed(Some(OutputsOf(d))) else Completed(None)
  }

  /** The whole run with the corrected ending (index.js:134-163). */
  function Main(inputs: Inputs, p: Provider, h: History, bound: nat): (a: Action)
    requires Locator.MergeChainWithin(h, inputs.sha, bound)
    ensures var search := RetriesSetting(inputs.searchRetries, DefaultSearchRetries);
      (a.ending == Failed(DeploymentNotFound(inputs.sha))) <==>
      Locator.FindDeployment(search, p, h, inputs.sha, 0, bound, []).outcome.NoRecord?
    ensures a.ending.Completed? && a.ending.outputs.Some? ==> a.ending.outputs.value.url != ""
    ensures a.ending.Failed? ==>
      a.ending.error in {ApiError, DeploymentNotFound(inputs.sha), DeploymentFailed, ReadyTimeout}
    ensures var r := Pipeline(inputs, p, h, bound);
      && a.effects == r.effects
      && (a.ending.Completed? && a.ending.outputs.Some? <==> r.outcome.Record? && r.outcome.deployment.url != "")
      && (a.ending.Completed? && a.ending.outputs.Some? ==> a.ending.outputs.value == OutputsOf(r.outcome.deployment))
      && (a.ending.Completed? <==> !r.outcome.Threw?)
      && (a.ending.Failed? ==> a.ending.error == r.outcome.error)
  {
    var r := Pipeline(inputs, p, h, bound);
    Action(Conclude(r.outcome), r.effects)
  }

  /** The whole run as written (index.js:134-163). */
  function MainAsWritten(inputs: Inputs, p: Provider, h: History, bound: nat): (a: Action)
    requires Locator.MergeChainWithin(h, inputs.sha, bound)
    ensures a.effects == Main(inputs, p, h, bound).effects
    ensures a.ending != Main(inputs, p, h, bound).ending ==>
      a.ending == Failed(UrlOfUndefined) && Main(inputs, p, h, bound).ending == Completed(None)
    ensures a.ending != Main(inputs, p, h, bound).ending <==> Pipeline(inputs, p, h, bound).outcome.NoRecord?
  {
    var r := Pipeline(inputs, p, h, bound);
    Action(ConcludeAsWritten(r.outcome), r.effects)
  }

  /** When nothing is found for the commit nor along its merge parents, the
      run fails with the not-found message, which names the commit
      (index.js:136-141). */
  lemma NotFoundNamesCommit(inputs: Inputs, p: Provider, h: History, bound: nat)
    requires Locator.MergeChainWithin(h, inputs.sha, bound)
    requires Locator.FindDeployment(RetriesSetting(inputs.searchRetries, DefaultSearchRetries),
                                    p, h, inputs.sha, 0, bound, []).outcome.NoRecord?
    ensures Main(inputs, p, h, bound).ending.Failed?
    ensures var m := Message(Main(inputs, p, h, bound).ending.error);
      |m| > |NotFoundPrefix| && m[..|NotFoundPrefix|] == NotFoundPrefix
      && m[|NotFoundPrefix|..|m| - 1] == inputs.sha
  {
  }

  /** A located deployment that is CANCELED, polled with budget left, makes
      the run as written fail with a TypeError, where the corrected run
      completes without outputs (index.js:116-117, 150-152). */
  lemma CanceledRunCrashesAsWritten(inputs: Inputs, p: Provider, h: History, bound: nat, d: Deployment)
    requires Locator.MergeChainWithin(h, inputs.sha, bound)
    requires Locator.FindDeployment(RetriesSetting(inputs.searchRetries, DefaultSearchRetries),
                                    p, h, inputs.sha, 0, bound, []).outcome == Record(d)
    requires d.readyState == StateCanceled
    requires RetriesSetting(inputs.readyRetries, DefaultReadyRetries) > 0
    ensures MainAsWritten(inputs, p, h, bound).ending == Failed(UrlOfUndefined)
    ensures Main(inputs, p, h, bound).ending == Completed(None)
  {
    var ready := RetriesSetting(inputs.readyRetries, DefaultReadyRetries);
    var located := Locator.FindDeployment(RetriesSetting(inputs.searchRetries, DefaultSearchRetries),
                                          p, h, inputs.sha, 0, bound, []);
    Poller.PollerTerminalStates(p, d, ready, located.effects);
  }

  /** With the ready-retries input unset, a located deployment that stays
      pending is re-fetched every 30 seconds exactly 10 times, and then the
      run fails with the timeout (index.js:18, 145-148, 104-108, 118-130). */
  lemma DefaultPendingRunTimesOut(inputs: Inputs, p: Provider, h: History, bound: nat, d: Deployment)
    requires Locator.MergeChainWithin(h, inputs.sha, bound)
    requires Locator.FindDeployment(RetriesSetting(inputs.searchRetries, DefaultSearchRetries),
                                    p, h, inputs.sha, 0, bound, []).outcome == Record(d)
    requires inputs.readyRetries.None?
    requires Poller.Pending(d) && Poller.NeverSettles(p, d.id)
    ensures var located := Locator.FindDeployment(RetriesSetting(inputs.searchRetries, DefaultSearchRetries),
                                                  p, h, inputs.sha, 0, bound, []);
      Main(inputs, p, h, bound) == Action(Failed(ReadyTimeout), located.effects + Poller.Refetches(d.id, 10))
  {
    var located := Locator.FindDeployment(RetriesSetting(inputs.searchRetries, DefaultSearchRetries),
                                          p, h, inputs.sha, 0, bound, []);
    Poller.PollerTimesOut(p, d, DefaultReadyRetries, located.effects);
  }

  /** A located deployment that turns READY on its `k`-th re-fetch, within
      the ready budget, completes the run after exactly `k` waits and
      re-fetches, and any outputs it sets carry a url (index.js:145-163). */
  lemma ReadyRunCompletes(inputs: Inputs, p: Provider, h: History, bound: nat, d: Deployment, k: nat)
    requires Locator.MergeChainWithin(h, inputs.sha, bound)
    requires Locator.FindDeployment(RetriesSetting(inputs.searchRetries, DefaultSearchRetries),
                                    p, h, inputs.sha, 0, bound, []).outcome == Record(d)
    requires k < Budget(RetriesSetting(inputs.readyRetries, DefaultReadyRetries))
    requires Poller.ReadyAfter(p, d, k, Locator.FindDeployment(RetriesSetting(inputs.searchRetries, DefaultSearchRetries),
                                                                p, h, inputs.sha, 0, bound, []).effects)
    ensures var located := Locator.FindDeployment(RetriesSetting(inputs.searchRetries, DefaultSearchRetries),
                                                  p, h, inputs.sha, 0, bound, []);
      var a := Main(inputs, p, h, bound);
      && a.ending.Completed?
      && a.effects == located.effects + Poller.Refetches(d.id, k)
      && (a.ending.outputs.Some? ==> a.ending.outputs.value.url != "")
  {
    var located := Locator.FindDeployment(RetriesSetting(inputs.searchRetries, DefaultSearchRetries),
                                          p, h, inputs.sha, 0, bound, []);
    Poller.PollerReachesReady(p, d, RetriesSetting(inputs.readyRetries, DefaultReadyRetries), located.effects, k);
  }

  /** A concrete run that shows the difference: the commit's one deployment
      is found at once and is CANCELED. */
  const CanceledDeployment := Deployment("dpl_1", "app-1.vercel.app", "app", StateCanceled, None)
  const CanceledProvider := Provider(
    (sha, past) => Listed([DeploymentRef("dpl_1", "app-1.vercel.app")]),
    (id, past) => Fetched(CanceledDeployment))
  const CanceledInputs := Inputs("abc123", None, None)

  lemma CanceledExample()
    ensures Locator.MergeChainWithin(History(map[], {}), CanceledInputs.sha, 0)
    ensures MainAsWritten(CanceledInputs, CanceledProvider, History(map[], {}), 0).ending == Failed(UrlOfUndefined)
    ensures Main(CanceledInputs, CanceledProvider, History(map[], {}), 0).ending == Completed(None)
  {
    var h := History(map[], {});
    assert Locator.MergeChainWithin(h, CanceledInputs.sha, 0);
    var search := RetriesSetting(CanceledInputs.searchRetries, DefaultSearchRetries);
    assert !Locator.IsEmpty(CanceledProvider.list(CanceledInputs.sha, []));
    Locator.SearchStopsAtFirstAnswer(CanceledProvider, CanceledInputs.sha, search, [], 0);
    assert [] + Locator.EmptyRounds(CanceledInputs.sha, 0) == [];
    CanceledRunCrashesAsWritten(CanceledInputs, CanceledProvider, h, 0, CanceledDeployment);
  }
}
