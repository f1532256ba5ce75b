# vercel-deployment-url, modelled in Dafny

This project models the core of a GitHub Action that finds the Vercel
deployment of a commit, waits until that deployment is ready, and sets its url,
id, name and branch as the step's outputs. The source is one JavaScript file,
`index.js`. Its core is three retry-bounded procedures and the logic of
`main` that joins them:

- `findLatestDeployment` lists the deployments of a commit. When the list is
  non-empty, it fetches the first entry by `uid` and returns it. When the list is
  empty, it waits 5 seconds and tries again, up to `retries` times.
- `findDeployment` runs that search with the `search-retries` budget at the top
  level and with a budget of 1 on every later hop. When nothing is found, it asks
  GitHub for the commit and repeats on the second parent of a merge commit. A
  failing lookup ends the walk with nothing.
- `waitForDeploymentToBeReady` checks its budget first. Then READY returns the
  record, ERROR throws, and CANCELED returns nothing. Any other state waits 30
  seconds, re-fetches the record by `id` and tries again with one retry fewer.
- `main` reads the two retry settings. A value that is 0 or does not parse
  falls back to 3 or 10. `main` fails when no deployment is found, and sets the
  outputs only for a ready record with a non-empty url.

The procedures change no state, so each one is a recursive function. It
returns a `Run`: the outcome plus the ordered list of effects it performed
(`Query(sha)`, `FetchById(id)`, `Wait(seconds)`, `GetCommit(ref)`). The outcome
mirrors JavaScript: a returned record, `null`/`undefined`, or a thrown error.

The Vercel API is a scripted oracle, `Provider`. For each request it answers a
list or a record, and its answer may depend on everything the action has done
before, waits included. Commit history is a map from each commit to its
ordered parents, plus a set of commits whose lookup fails.

Modules: `Vercel` (shared values, effects, errors, messages), `Locator`
(search and ancestry walk), `Poller` (readiness) and `Coordinator` (`main`).

The model follows the code, including where it may surprise a reader:

- The code has no fallback to the latest READY deployment of a branch when a
  deployment is CANCELED. The poller simply returns nothing.
- The code checks the readiness budget before it looks at the state. So with
  no budget left, even a READY or CANCELED record ends in the timeout error.
- The code waits 5 seconds after the last empty search as well.
- The code does not complete silently after a CANCELED deployment. It crashes
  (see Findings).

## Model

| member | source | states |
|---|---|---|
| `Vercel.Message` | index.js:138-140 | the not-found message is exactly the fixed prefix, the commit SHA, then a full stop |
| `Locator.Answered` | index.js:45-63 | a round that got an answer makes exactly one query and no wait; a failed list query throws the API error after that query alone; a non-empty list has its first entry fetched by `uid`, and the round returns exactly the fetched record, or throws the API error when the fetch fails |
| `Locator.FindLatestDeployment` | index.js:39-70 | the search finds nothing exactly when its effects are `Budget(retries)` rounds of query plus 5-second wait (none for a budget at or below zero); the only error it throws is the API error; it makes at most `Budget(retries)` queries, all for the requested commit |
| `Locator.SearchGivesUp` | index.js:65-69 | when every answer is empty, the search makes exactly as many queries as the budget, each followed by a 5-second wait (the last one too), and returns nothing |
| `Locator.SearchStopsAtFirstAnswer` | index.js:51-63 | when the first `k` answers are empty and answer `k + 1` within the budget is not, the result is that answer's round after `k` empty rounds, with no further query or wait |
| `Locator.FindDeployment` | index.js:72-100 | only the API error escapes the walk (lookup failures are swallowed); every queried commit lies on the chain of second parents; the walk makes at most the top-level budget plus one query per further hop |
| `Locator.MergeChain` | index.js:88-93 | the walk visits the commit itself first and at most `bound` second parents after it |
| `Locator.WalkStops` | index.js:78-99 | a found record or a thrown API error from the search is returned unchanged; with nothing found and no second parent (or a failing lookup), the walk ends with nothing right after the lookup |
| `Locator.WalkRecurses` | index.js:82-93 | with nothing found for a merge commit, the walk is the lookup followed by the walk from its second parent one hop deeper, whose outcome, an API error included, is the result unchanged |
| `Locator.HopsExhausted` | index.js:73-76 | below the top level, when nothing is ever listed for any commit of the chain, each hop makes exactly one query, one 5-second wait and one commit lookup, and the walk ends with nothing |
| `Locator.AncestryExhausted` | index.js:72-100 | when nothing is ever listed, the walk is the top-level search with the configured budget, then one single-attempt hop per second parent, and ends with nothing |
| `Locator.AncestryAnsweredOnSecondParent` | index.js:88-93 | after a failed top-level search of a merge commit, the second parent gets exactly one attempt, and its answer is the result |
| `Poller.WaitForDeploymentToBeReady` | index.js:102-132 | effects are pairs of a 30-second wait and a fetch, the first fetch by the given record's id; a returned record is the last snapshot seen and is READY; nothing is returned only after a CANCELED snapshot, and the failure error only after an ERROR one; the timeout comes only after all `Budget(retries)` rounds; the API error is thrown exactly when the last re-fetch, after its wait, failed |
| `Poller.PollerTerminalStates` | index.js:104-117 | with no budget even READY times out; within the budget READY returns the same record however often it is polled, ERROR throws, CANCELED returns nothing, all with no wait or fetch |
| `Poller.PollerTimesOut` | index.js:118-130 | a deployment that stays pending gets exactly `M` waits of 30 seconds and `M` re-fetches by its original id, then the timeout |
| `Poller.PollerReachesReady` | index.js:110-130 | a deployment that becomes READY on re-fetch `k < M` is returned READY after exactly `k` waits and `k` fetches by its id |
| `Coordinator.RetriesSetting` | index.js:17-18 | 0 or an unparsable value gives the default; every other integer, negative ones too, is kept; a non-zero default never yields 0 |
| `Coordinator.Pipeline` | index.js:134-148 | the run fails with not-found exactly when the walk found nothing, after the walk's effects; the walk's API error passes through unchanged; a located record is polled with the ready budget (default 10) after the walk's effects, and the poll's outcome is the result; a record that comes out is READY; the only errors are API, not-found, failed and timeout |
| `Coordinator.ConcludeAsWritten` | index.js:150-163 | a poller that returned nothing makes the run fail with a TypeError; outputs are set exactly for a record with a non-empty url; in every other case (a thrown error passes through, outputs are the record's url, id, name and branch) it ends as the corrected conclusion does |
| `Coordinator.Conclude` | index.js:152-163 | outputs are set exactly for a record with a non-empty url, and they are its url, id, name and branch; the run completes exactly when no error was thrown |
| `Coordinator.Main` | index.js:134-163 | the run fails with not-found exactly when the walk found nothing; it has the effects of locating and polling; outputs are set exactly when polling returned a record with a non-empty url, and are that record's url, id, name and branch; the run completes exactly when nothing was thrown, and otherwise fails with the very error thrown, one of the four errors of the core |
| `Coordinator.MainAsWritten` | index.js:145-163 | same effects as the corrected run; the endings differ exactly when polling returned nothing (CANCELED, at once or after re-fetches), and then the source fails with a TypeError where the corrected run completes without outputs |
| `Coordinator.DefaultPendingRunTimesOut` | index.js:18 | with the ready-retries input unset, a located deployment that stays pending gets exactly 10 waits of 30 seconds and re-fetches by its id after the walk, then the run fails with the timeout |
| `Coordinator.ReadyRunCompletes` | index.js:145-163 | a located deployment that turns READY on re-fetch `k` within the ready budget completes the run after exactly `k` waits and re-fetches, and any outputs carry a url |
| `Coordinator.NotFoundNamesCommit` | index.js:136-141 | when the walk finds nothing, the run fails with a message that names the commit |
| `Coordinator.CanceledRunCrashesAsWritten` | index.js:145-152 | a located CANCELED deployment polled within budget fails the run as written with a TypeError, where the corrected run completes without outputs |
| `Coordinator.CanceledExample` | index.js:150 | a concrete provider and commit for which the two endings differ |

## Findings

| source | as written | input that shows it | evidently intended | confidence | as-written member | corrected member |
|---|---|---|---|---|---|---|
| index.js:150 | reads `readyDeployment.url` before line 152 checks that `readyDeployment` exists | commit `abc123`; the provider lists one deployment, `dpl_1`, whose record is CANCELED; default ready budget | the run completes without outputs, as the `readyDeployment &&` guard on line 152 expects | high (not executed) | `Coordinator.CanceledExample` | `Coordinator.Main` |

## Left out

- The HTTP transport: `node-fetch`, JSON decoding, the bearer header and the exact request paths and query strings (`teamId`, `projectId`, `withGitRepoInfo`). A list query is keyed by the commit and a fetch by the deployment id, and nothing else.
- Any failed Vercel request, whether a non-success status or a network or JSON failure, is the single `ApiError`. Its message is the one `api()` throws on line 32. A rejected `fetch` on line 24 or a body that is not JSON on line 29 throws its own error before line 30 instead, whose message is not modelled.
- The GitHub client (`Octokit`, `repos.getCommit`) and the owner/repo split of `GITHUB_REPOSITORY`. The model replaces them with the `History` parents map and its set of failing lookups.
- `wait`/`setTimeout` is real-time sleeping. It appears only as a `Wait(seconds)` effect.
- `core.getInput` (including its required-input errors), `core.setOutput`, `core.info`, `core.setFailed`, `process.env` and all console logging are environment I/O. The inputs arrive as an `Inputs` value and the outputs leave as an `Ending`.
- The `typeof retries !== "number"` half of the guards on lines 40 and 104. Budgets are always integers here, because `parseInt(...) || default` never yields anything else.
- The JavaScript values behind `parseInt` are left out. A setting is the parsed integer, or `None` when it does not parse.
- JavaScript number precision: a retry setting above 2^53 (such as `99999999999999999999`, parsed as 1e20) is not decremented by `retries - 1` on lines 69 and 130, so the source would search or poll it forever. The model counts with unbounded integers, so every such budget runs out.
- `UrlOfUndefined`'s message is the JavaScript engine's wording, which depends on the Node version; the model uses the wording of Node 16 and later.
- An absent or empty `url` is the empty string, and an absent `gitSource` is `None`.
- Locator.FindDeployment: the source's ancestry walk has no bound. The model requires `MergeChainWithin(h, sha, bound)`: following second parents from the commit ends within `bound` hops. This holds for every commit of a real, acyclic history. A history with a cycle of merge parents, on which the source would recurse forever, is not modelled.
- The CANCELED fallback to the latest READY deployment of a branch is not in this code, so it is not modelled.
