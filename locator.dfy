/** The deployment locator: the retry-bounded search for the deployments of
    one commit (`findLatestDeployment`) and the walk along second parents of
    merge commits when that search finds nothing (`findDeployment`). */
module Locator {
  import opened Vercel

  /** A list answer that holds no deployment: an empty array, or no array. */
  predicate IsEmpty(r: ListReply)
  {
    r.NoArray? || (r.Listed? && r.deployments == [])
  }

  /** `n` search rounds that each found nothing: a query, then a wait of
      `SearchInterval` seconds. */
  function EmptyRounds(sha: string, n: nat): (es: seq<Effect>)
    ensures |es| == 2 * n
  {
    if n == 0 then [] else [Query(sha), Wait(SearchInterval)] + EmptyRounds(sha, n - 1)
  }

  /** The last round of a search whose query got a non-empty answer: an
      error is thrown on; a non-empty list has its first entry fetched by
      `uid` and that record returned (index.js:45-63). */
  function Answered(p: Provider, sha: string, past: seq<Effect>): (s: Run)
    requires !IsEmpty(p.list(sha, past))
    ensures |s.effects| > 0 && s.effects[0] == Query(sha)
    ensures s.outcome.Threw? ==> s.outcome.error == ApiError
    ensures s.outcome.Record? ==> (
      && p.list(sha, past).Listed?
      && var uid := p.list(sha, past).deployments[0].uid;
         && s.effects == [Query(sha), FetchById(uid)]
         && p.fetch(uid, past + [Query(sha)]) == Fetched(s.outcome.deployment))
    ensures p.list(sha, past).ListError? ==> s == Run(Threw(ApiError), [Query(sha)])
    ensures p.list(sha, past).Listed? ==>
      var uid := p.list(sha, past).deployments[0].uid;
      var fetched := p.fetch(uid, past + [Query(sha)]);
      && s.effects == [Query(sha), FetchById(uid)]
      && (fetched.Fetched? ==> s.outcome == Record(fetched.deployment))
      && (fetched.FetchError? ==> s.outcome == Threw(ApiError))
    ensures Queries(s.effects) == 1 && !s.outcome.NoRecord?
    ensures forall e | e in s.effects :: e.Query? ==> e.sha == sha
    ensures forall e | e in s.effects :: !e.Wait?
  {
    assert past + [] == past;
    var reply := p.list(sha, past);
    if reply.ListError? then Run(Threw(ApiError), [Query(sha)])
    else
      var uid := reply.deployments[0].uid;
      var effects := [Query(sha), FetchById(uid)];
      assert effects[..1] == [Query(sha)];
      assert Queries(effects) == 1 by {
        assert effects[1..] == [FetchById(uid)] && [FetchById(uid)][1..] == [];
        assert Queries([FetchById(uid)]) == 0;
      }
      match p.fetch(uid, past + [Query(sha)])
      case Fetched(d) => Run(Record(d), effects)
      case FetchError => Run(Threw(ApiError), effects)
  }

  /** `findLatestDeployment` (index.js:39-70): search the deployments of
      commit `sha`, at most `retries` times. */
  function FindLatestDeployment(p: Provider, sha: string, retries: int, past: seq<Effect>): (s: Run)
    decreases Budget(retries)
    ensures s.outcome.NoRecord? <==> s.effects == EmptyRounds(sha, Budget(retries))
    ensures s.outcome.Threw? ==> s.outcome.error == ApiError
    ensures Queries(s.effects) <= Budget(retries)
    ensures forall e | e in s.effects :: e.Query? ==> e.sha == sha
  {
    if retries <= 0 then Run(NoRecord, [])
    else if !IsEmpty(p.list(sha, past)) then
      var last := Answered(p, sha, past);
      assert EmptyRounds(sha, Budget(retries))[1] == Wait(SearchInterval);
      last
    else
      var round := [Query(sha), Wait(SearchInterval)];
      var rest := FindLatestDeployment(p, sha, retries - 1, past + round);
      QueriesAppend(round, rest.effects);
      Run(rest.outcome, round + rest.effects)
  }

  /** A provider that answers `n` consecutive searches of `sha` with nothing,
      starting after `past`. */
  ghost predicate EmptyFor(p: Provider, sha: string, past: seq<Effect>, n: nat)
  {
    forall i {:trigger p.list(sha, past + EmptyRounds(sha, i))} :: 0 <= i < n ==> IsEmpty(p.list(sha, past + EmptyRounds(sha, i)))
  }

  /** Peeling the first empty round off `n + 1` empty answers. */
  lemma EmptyForShift(p: Provider, sha: string, past: seq<Effect>, n: nat)
    requires EmptyFor(p, sha, past, n + 1)
    ensures IsEmpty(p.list(sha, past))
    ensures EmptyFor(p, sha, past + [Query(sha), Wait(SearchInterval)], n)
  {
    var round := [Query(sha), Wait(SearchInterval)];
    assert past + EmptyRounds(sha, 0) == past;
    forall i | 0 <= i < n
      ensures IsEmpty(p.list(sha, (past + round) + EmptyRounds(sha, i)))
    {
      assert (past + round) + EmptyRounds(sha, i) == past + EmptyRounds(sha, i + 1);
    }
  }

  /** An empty answer within the budget costs one round, a query and a wait,
      in front of the search with one retry fewer. */
  lemma EmptyRoundStep(p: Provider, sha: string, retries: int, past: seq<Effect>, rest: Run)
    requires retries > 0 && IsEmpty(p.list(sha, past))
    requires FindLatestDeployment(p, sha, retries - 1, past + [Query(sha), Wait(SearchInterval)]) == rest
    ensures FindLatestDeployment(p, sha, retries, past) == Run(rest.outcome, [Query(sha), Wait(SearchInterval)] + rest.effects)
  {
  }

  /** A non-empty answer within the budget ends the search with that round. */
  lemma AnsweredRoundStep(p: Provider, sha: string, retries: int, past: seq<Effect>)
    requires retries > 0 && !IsEmpty(p.list(sha, past + EmptyRounds(sha, 0)))
    ensures var last := Answered(p, sha, past + EmptyRounds(sha, 0));
      FindLatestDeployment(p, sha, retries, past) == Run(last.outcome, EmptyRounds(sha, 0) + last.effects)
  {
    assert past + EmptyRounds(sha, 0) == past;
    assert EmptyRounds(sha, 0) + Answered(p, sha, past).effects == Answered(p, sha, past).effects;
  }

  /** With nothing listed on any attempt, the search performs exactly as many
      queries as its budget allows, each followed by a wait of `SearchInterval`
      seconds (the last one too), and gives up with nothing; a budget at or
      below zero performs nothing at all (index.js:40-42, 65-69). */
  lemma {:induction false} SearchGivesUp(p: Provider, sha: string, retries: int, past: seq<Effect>)
    requires EmptyFor(p, sha, past, Budget(retries))
    ensures FindLatestDeployment(p, sha, retries, past) == Run(NoRecord, EmptyRounds(sha, Budget(retries)))
  {
    if retries > 0 {
      var round := [Query(sha), Wait(SearchInterval)];
      EmptyForShift(p, sha, past, Budget(retries) - 1);
      SearchGivesUp(p, sha, retries - 1, past + round);
      EmptyRoundStep(p, sha, retries, past, Run(NoRecord, EmptyRounds(sha, Budget(retries - 1))));
    }
  }

  /** When the first `k` attempts list nothing and attempt `k + 1` (within the
      budget) gets an answer, the search is those `k` empty rounds followed by
      that one answered round: no further query or wait follows it
      (index.js:51-63). */
  lemma {:induction false} SearchStopsAtFirstAnswer(p: Provider, sha: string, retries: int, past: seq<Effect>, k: nat)
    requires k < Budget(retries)
    requires EmptyFor(p, sha, past, k)
    requires !IsEmpty(p.list(sha, past + EmptyRounds(sha, k)))
    ensures var last := Answered(p, sha, past + EmptyRounds(sha, k));
      FindLatestDeployment(p, sha, retries, past) == Run(last.outcome, EmptyRounds(sha, k) + last.effects)
  {
    if k == 0 {
      AnsweredRoundStep(p, sha, retries, past);
    } else {
      var round := [Query(sha), Wait(SearchInterval)];
      var last := Answered(p, sha, past + EmptyRounds(sha, k));
      EmptyForShift(p, sha, past, k - 1);
      assert (past + round) + EmptyRounds(sha, k - 1) == past + EmptyRounds(sha, k);
      SearchStopsAtFirstAnswer(p, sha, retries - 1, past + round, k - 1);
      EmptyRoundStep(p, sha, retries, past, Run(last.outcome, EmptyRounds(sha, k - 1) + last.effects));
      assert round + (EmptyRounds(sha, k - 1) + last.effects) == EmptyRounds(sha, k) + last.effects;
    }
  }

  /** The second parent of `ref` when GitHub's lookup of `ref` succeeds and
      the commit is a merge; `None` when the lookup throws (an unknown or
      unresolvable ref) or there is no second parent (index.js:82-99). */
  function SecondParent(h: History, ref: string): Option<string>
  {
    if ref !in h.parents || ref in h.unresolvable then None
    else if |h.parents[ref]| < 2 then None
    else Some(h.parents[ref][1])
  }

  /** Following second parents from `ref` reaches, within `bound` hops, a
      commit that has none. Commit history is acyclic, so some bound exists
      for every commit. */
  predicate MergeChainWithin(h: History, ref: string, bound: nat)
    decreases bound
  {
    match SecondParent(h, ref)
    case None => true
    case Some(q) => bound > 0 && MergeChainWithin(h, q, bound - 1)
  }

  /** The commits the ancestry walk visits from `ref`: `ref` and then its
      chain of second parents. */
  function MergeChain(h: History, ref: string, bound: nat): (cs: seq<string>)
    requires MergeChainWithin(h, ref, bound)
    decreases bound
    ensures 1 <= |cs| <= bound + 1 && cs[0] == ref
  {
    match SecondParent(h, ref)
    case None => [ref]
    case Some(q) => [ref] + MergeChain(h, q, bound - 1)
  }

  /** The top-level search uses the configured budget, every ancestry hop a
      budget of one attempt (index.js:73-76). */
  function HopRetries(searchRetries: int, depth: nat): int
  {
    if depth == 0 then searchRetries else 1
  }

  /** `findDeployment` (index.js:72-100): search `sha`; when nothing is found,
      retry on the second parent of a merge commit, one hop deeper. */
  function FindDeployment(searchRetries: int, p: Provider, h: History, sha: string, depth: nat, bound: nat, past: seq<Effect>): (s: Run)
    requires MergeChainWithin(h, sha, bound)
    decreases bound
    ensures s.outcome.Threw? ==> s.outcome.error == ApiError
    ensures forall e | e in s.effects :: e.Query? ==> e.sha in MergeChain(h, sha, bound)
    ensures Queries(s.effects) <= Budget(HopRetries(searchRetries, depth)) + |MergeChain(h, sha, bound)| - 1
  {
    var search := FindLatestDeployment(p, sha, HopRetries(searchRetries, depth), past);
    if !search.outcome.NoRecord? then search
    else
      var lookup := search.effects + [GetCommit(sha)];
      QueriesAppend(search.effects, [GetCommit(sha)]);
      assert Queries([GetCommit(sha)]) == 0 by { assert [GetCommit(sha)][1..] == []; }
      match SecondParent(h, sha)
      case None => Run(NoRecord, lookup)
      case Some(parent) =>
        var rest := FindDeployment(searchRetries, p, h, parent, depth + 1, bound - 1, past + lookup);
        QueriesAppend(lookup, rest.effects);
        Run(rest.outcome, lookup + rest.effects)
  }

  /** The effects of ancestry hops that each found nothing: for every commit,
      one query, one wait of `SearchInterval` seconds, one commit lookup. */
  function HopTrace(cs: seq<string>): (es: seq<Effect>)
    ensures |es| == 3 * |cs|
  {
    if cs == [] then [] else [Query(cs[0]), Wait(SearchInterval), GetCommit(cs[0])] + HopTrace(cs[1..])
  }

  /** A search result other than "nothing found" (a record, or an API error,
      which is not inside the `try`) is the walk's result unchanged; when
      nothing is found and the commit has no second parent or its lookup
      throws, the walk ends with nothing after that one lookup
      (index.js:73-80, 82-99). */
  lemma WalkStops(searchRetries: int, p: Provider, h: History, sha: string, depth: nat, bound: nat, past: seq<Effect>)
    requires MergeChainWithin(h, sha, bound)
    ensures var search := FindLatestDeployment(p, sha, HopRetries(searchRetries, depth), past);
      && (!search.outcome.NoRecord? ==> FindDeployment(searchRetries, p, h, sha, depth, bound, past) == search)
      && (search.outcome.NoRecord? && SecondParent(h, sha).None? ==>
            FindDeployment(searchRetries, p, h, sha, depth, bound, past) == Run(NoRecord, search.effects + [GetCommit(sha)]))
  {
  }

  /** When nothing is found and the commit is a merge, the walk is the
      lookup followed by the walk from the second parent, one hop deeper,
      whose outcome is the result. An API error of that deeper walk is not
      caught by the `try` around it: the recursive call is returned without
      being awaited, so its rejection escapes the `catch` (index.js:82-93). */
  lemma WalkRecurses(searchRetries: int, p: Provider, h: History, sha: string, depth: nat, bound: nat, past: seq<Effect>, q: string)
    requires MergeChainWithin(h, sha, bound) && SecondParent(h, sha) == Some(q)
    ensures bound > 0 && MergeChainWithin(h, q, bound - 1)
    ensures var search := FindLatestDeployment(p, sha, HopRetries(searchRetries, depth), past);
      var lookup := search.effects + [GetCommit(sha)];
      search.outcome.NoRecord? ==>
        var r := FindDeployment(searchRetries, p, h, q, depth + 1, bound - 1, past + lookup);
        FindDeployment(searchRetries, p, h, sha, depth, bound, past) == Run(r.outcome, lookup + r.effects)
  {
  }

  /** Below the top level, a walk along commits for which nothing is ever
      listed makes exactly one query per commit, waits once after it, and
      looks the commit up, until the chain of second parents ends. */
  lemma {:induction false} HopsExhausted(searchRetries: int, p: Provider, h: History, sha: string, depth: nat, bound: nat, past: seq<Effect>)
    requires depth > 0 && MergeChainWithin(h, sha, bound)
    requires forall c, t | c in MergeChain(h, sha, bound) :: IsEmpty(p.list(c, t))
    ensures FindDeployment(searchRetries, p, h, sha, depth, bound, past) == Run(NoRecord, HopTrace(MergeChain(h, sha, bound)))
    decreases bound
  {
    assert sha in MergeChain(h, sha, bound);
    assert past + EmptyRounds(sha, 0) == past;
    SearchGivesUp(p, sha, 1, past);
    var lookup := EmptyRounds(sha, 1) + [GetCommit(sha)];
    assert lookup == [Query(sha), Wait(SearchInterval), GetCommit(sha)];
    match SecondParent(h, sha)
    case None =>
      assert HopTrace([sha]) == lookup + HopTrace([]);
    case Some(q) =>
      var chain := MergeChain(h, q, bound - 1);
      forall c, t | c in chain ensures IsEmpty(p.list(c, t)) {
        assert c in MergeChain(h, sha, bound);
      }
      HopsExhausted(searchRetries, p, h, q, depth + 1, bound - 1, past + lookup);
      assert ([sha] + chain)[1..] == chain;
  }

  /** When nothing is ever listed for any commit of the chain, the walk makes
      the top-level search with the configured budget, then one
      single-attempt search for each second parent in turn, looking up every
      commit it visits, and ends with nothing (index.js:72-100). */
  lemma {:induction false} AncestryExhausted(searchRetries: int, p: Provider, h: History, sha: string, bound: nat, past: seq<Effect>)
    requires MergeChainWithin(h, sha, bound)
    requires forall c, t | c in MergeChain(h, sha, bound) :: IsEmpty(p.list(c, t))
    ensures FindDeployment(searchRetries, p, h, sha, 0, bound, past)
      == Run(NoRecord, EmptyRounds(sha, Budget(searchRetries)) + [GetCommit(sha)] + HopTrace(MergeChain(h, sha, bound)[1..]))
  {
    var n := Budget(searchRetries);
    assert sha in MergeChain(h, sha, bound);
    SearchGivesUp(p, sha, searchRetries, past);
    var lookup := EmptyRounds(sha, n) + [GetCommit(sha)];
    match SecondParent(h, sha)
    case None =>
      assert lookup + HopTrace([]) == lookup;
    case Some(q) =>
      var chain := MergeChain(h, q, bound - 1);
      forall c, t | c in chain ensures IsEmpty(p.list(c, t)) {
        assert c in MergeChain(h, sha, bound);
      }
      HopsExhausted(searchRetries, p, h, q, 1, bound - 1, past + lookup);
      assert ([sha] + chain)[1..] == chain;
  }

  /** When the top-level search finds nothing and the commit is a merge, the
      second parent gets exactly one attempt: if it is answered, that answer
      is the result, with no wait in between (index.js:75, 88-93). */
  lemma AncestryAnsweredOnSecondParent(searchRetries: int, p: Provider, h: History, sha: string, bound: nat, past: seq<Effect>, q: string)
    requires MergeChainWithin(h, sha, bound)
    requires EmptyFor(p, sha, past, Budget(searchRetries))
    requires SecondParent(h, sha) == Some(q)
    requires !IsEmpty(p.list(q, past + (EmptyRounds(sha, Budget(searchRetries)) + [GetCommit(sha)])))
    ensures var lookup := EmptyRounds(sha, Budget(searchRetries)) + [GetCommit(sha)];
      var last := Answered(p, q, past + lookup);
      FindDeployment(searchRetries, p, h, sha, 0, bound, past) == Run(last.outcome, lookup + last.effects)
  {
    var lookup := EmptyRounds(sha, Budget(searchRetries)) + [GetCommit(sha)];
    var hop := past + lookup;
    SearchGivesUp(p, sha, searchRetries, past);
    assert hop + EmptyRounds(q, 0) == hop;
    SearchStopsAtFirstAnswer(p, q, 1, hop, 0);
    assert EmptyRounds(q, 0) + Answered(p, q, hop).effects == Answered(p, q, hop).effects;
  }
}
