/** Values exchanged between the action and its two providers (the Vercel
    deployment API and the GitHub commit API), the effects the action performs,
    and the errors it can throw. */
module Vercel {

  /** Seconds slept between two searches for a commit's deployments. */
  const SearchInterval: nat := 5
  /** Seconds slept between two readiness checks of one deployment. */
  const ReadyInterval: nat := 30

  /** The ready states the poller singles out; every other string is pending. */
  const StateReady: string := "READY"
  const StateError: string := "ERROR"
  const StateCanceled: string := "CANCELED"

  datatype Option<T> = None | Some(value: T)

  /** The full record returned by `GET /v13/deployments/<id>`. An absent `url`
      is written as the empty string, which JavaScript also treats as false. */
  datatype Deployment = Deployment(
    id: string,
    url: string,
    name: string,
    readyState: string,
    branchRef: Option<string>)

  /** One entry of the list returned by `GET /v6/now/deployments`. */
  datatype DeploymentRef = DeploymentRef(uid: string, url: string)

  /** What a list query answers: a `deployments` array, a body without one,
      or a non-success HTTP status (which makes the request helper throw). */
  datatype ListReply = Listed(deployments: seq<DeploymentRef>) | NoArray | ListError

  /** What a fetch of one deployment by id answers. */
  datatype FetchReply = Fetched(deployment: Deployment) | FetchError

  /** The externally visible steps the action takes, in order. */
  datatype Effect =
    | Query(sha: string)        // list deployments of one commit
    | FetchById(id: string)     // fetch one deployment record
    | Wait(seconds: nat)        // sleep
    | GetCommit(ref: string)    // ask GitHub for a commit's parents

  /** The deployment provider as a scripted oracle: each answer may depend on
      the request and on everything the action did before it (including how
      long it has waited). */
  datatype Provider = Provider(
    list: (string, seq<Effect>) -> ListReply,
    fetch: (string, seq<Effect>) -> FetchReply)

  /** Commit history as GitHub reports it: the ordered parents of every known
      commit, and the commits whose lookup fails even though they may exist. */
  datatype History = History(parents: map<string, seq<string>>, unresolvable: set<string>)

  /** The errors thrown somewhere in the action and caught at top level. */
  datatype Error =
    | ApiError                        // non-success answer of the Vercel API
    | DeploymentNotFound(sha: string) // nothing found for the commit nor its merge parents
    | DeploymentFailed                // the deployment reached ERROR
    | ReadyTimeout                    // the readiness budget ran out
    | UrlOfUndefined                  // TypeError: the poller returned nothing

  /** What a JavaScript procedure of the action ends with: a returned record,
      `null`/`undefined`, or a thrown error. */
  datatype Outcome = Record(deployment: Deployment) | NoRecord | Threw(error: Error)

  /** An outcome with the effects performed to reach it. */
  datatype Run = Run(outcome: Outcome, effects: seq<Effect>)

  const ApiErrorMessage: string :=
    "Something went wrong while trying to fetch deployments from the Vercel API, see the error above."
  const NotFoundPrefix: string := "Could not find any Vercel deployments for the commit with SHA "
  const FailedMessage: string := "The Vercel deployment did not succeed."
  const TimeoutMessage: string := "The Vercel deployment is still not ready after running out of retries."
  /** The TypeError's wording is the JavaScript engine's, not the action's;
      this is the wording of Node 16 and later (Node 12 words it
      "Cannot read property 'url' of undefined"). */
  const UndefinedUrlMessage: string := "Cannot read properties of undefined (reading 'url')"

  /** The message the action fails with for each error; the not-found message
      names the commit. */
  function Message(e: Error): (m: string)
    ensures e.DeploymentNotFound? ==>
      && |m| == |NotFoundPrefix| + |e.sha| + 1
      && m[..|NotFoundPrefix|] == NotFoundPrefix
      && m[|NotFoundPrefix|..|m| - 1] == e.sha
      && m[|m| - 1] == '.'
  {
    match e
    case ApiError => ApiErrorMessage
    case DeploymentNotFound(sha) => NotFoundPrefix + sha + "."
    case DeploymentFailed => FailedMessage
    case ReadyTimeout => TimeoutMessage
    case UrlOfUndefined => UndefinedUrlMessage
  }

  /** The number of attempts a retry counter allows: none once it is at or
      below zero. */
  function Budget(retries: int): (n: nat)
    ensures retries <= 0 ==> n == 0
    ensures retries > 0 ==> n == retries
  {
    if retries <= 0 then 0 else retries
  }

  /** How many list queries a sequence of effects contains. */
  function Queries(es: seq<Effect>): nat
  {
    if es == [] then 0 else (if es[0].Query? then 1 else 0) + Queries(es[1..])
  }

  lemma {:induction false} QueriesAppend(a: seq<Effect>, b: seq<Effect>)
    ensures Queries(a + b) == Queries(a) + Queries(b)
  {
    if a == [] {
      assert a + b == b;
    } else {
      assert (a + b)[1..] == a[1..] + b;
      QueriesAppend(a[1..], b);
    }
  }
}
