/** The access-approval workflow `run`. It:
    - checks that exactly one IGA plugin, exactly one LLM plugin and at least
      one scoring plugin are enabled;
    - asks the IGA plugin for the pending access requests;
    - for each request, calls `compute_scores` on every scoring plugin and
      folds the results into two flags and a rounded mean;
    - chooses rejection, manual review or approval, in that precedence, and
      renders the comment for that choice.

    Of the connector's actions only the rejection comment is actually sent;
    approving, denying and posting the other comments are disabled in the
    source, and the allow-list lookup in the approval branch only feeds a log
    line. The model returns, for each request, what the source decides and
    logs (the `Outcome`), and records the calls made on the IGA plugin. */
module Gadjit {
  import opened Wrappers
  import opened Text
  import opened Dicts
  import opened JsonValue
  import opened Models
  import opened Scores
  import opened Utils

  const IgaCountMessage := "Exactly one IGA plugin can be enabled at a time."
  const LlmCountMessage := "Exactly one LLM plugin can be enabled at a time."
  const ScoringCountMessage := "At least one Scoring plugin must be enabled."
  /** The method `run` calls on every scoring plugin. */
  const ScoringFunction := "compute_scores"
  const DefaultName := "Gadjit"

  // ---------------------------------------------------------------------------
  // Configuration lookups

  /** `config.get("gadjit")`, used as a dictionary: a configuration or a
      section that is not a dictionary, or a missing section, raises
      AttributeError at the first `.get` on it. */
  function GadjitSection(config: Json): (r: Result<Dict<string, Json>>)
    ensures r.Ok? <==> config.JObj? && exists fs :: Get(config.fields, "gadjit") == Some(JObj(fs))
    ensures r.Ok? ==> Get(config.fields, "gadjit") == Some(JObj(r.value))
    ensures r.Err? ==> r.error == AttributeError
  {
    var section :- GetAttr(config, "gadjit");
    match section
    case Some(JObj(fs)) => Ok(fs)
    case _ => Err(AttributeError)
  }

  /** The section lookup and the three plugin-count checks, in the order the
      source performs them, before any request is retrieved. */
  function Preflight(config: Json, igaCount: nat, llmCount: nat, scoringCount: nat): (r: Result<Dict<string, Json>>)
    ensures r.Ok? <==> GadjitSection(config).Ok? && igaCount == 1 && llmCount == 1 && scoringCount >= 1
    ensures r.Ok? ==> r == GadjitSection(config)
    ensures GadjitSection(config).Err? ==> r == GadjitSection(config)
    ensures GadjitSection(config).Ok? && igaCount != 1 ==> r == Err(RuntimeError(IgaCountMessage))
    ensures GadjitSection(config).Ok? && igaCount == 1 && llmCount != 1 ==> r == Err(RuntimeError(LlmCountMessage))
    ensures GadjitSection(config).Ok? && igaCount == 1 && llmCount == 1 && scoringCount == 0
            ==> r == Err(RuntimeError(ScoringCountMessage))
  {
    var gadjit :- GadjitSection(config);
    if igaCount != 1 then Err(RuntimeError(IgaCountMessage))
    else if llmCount != 1 then Err(RuntimeError(LlmCountMessage))
    else if scoringCount < 1 then Err(RuntimeError(ScoringCountMessage))
    else Ok(gadjit)
  }

  /** `refer_to_myself_as`, default "Gadjit", as an f-string renders it;
      `display` renders a non-string value the way `str` would. */
  function ReferAs(gadjit: Dict<string, Json>, display: Json -> string): (who: string)
    ensures "refer_to_myself_as" !in Keys(gadjit) ==> who == DefaultName
    ensures forall s :: Get(gadjit, "refer_to_myself_as") == Some(JStr(s)) ==> who == s
  {
    var held: Option<Json> := Get(gadjit, "refer_to_myself_as");
    match held
    case None => DefaultName
    case Some(JStr(s)) => s
    case Some(j) => display(j)
  }

  /** `include_score_in_comments`, default `False`, read for its truth. */
  predicate IncludeScore(gadjit: Dict<string, Json>)
  {
    Truthy(GetOr(gadjit, "include_score_in_comments", JBool(false)))
  }

  // ---------------------------------------------------------------------------
  // Classification of the scoring results

  /** Some plugin asked for immediate rejection. */
  predicate Vetoed(xs: seq<real>)
  {
    exists i :: 0 <= i < |xs| && xs[i] < 0.0
  }

  /** Some plugin asked for manual review. */
  predicate ReviewForced(xs: seq<real>)
  {
    exists i :: 0 <= i < |xs| && xs[i] == 0.0
  }

  /** Rounding to the nearest integer, ties to the even one. */
  function RoundHalfEven(y: real): (n: int)
    ensures y - 0.5 <= n as real <= y + 0.5
    ensures n as real == y - 0.5 || n as real == y + 0.5 ==> n % 2 == 0
  {
    var f := y.Floor;
    var frac := y - f as real;
    if frac < 0.5 then f
    else if frac > 0.5 then f + 1
    else if f % 2 == 0 then f
    else f + 1
  }

  /** `round(x, 2)` on exact reals. */
  function Round2(x: real): (r: real)
    ensures x - 0.005 <= r <= x + 0.005
  {
    RoundHalfEven(x * 100.0) as real / 100.0
  }

  /** What the loop over one request's results leaves behind: the two flags
      and the rounded mean. */
  datatype Verdict = Verdict(reject: bool, review: bool, score: real)

  /** The flags and `round(sum(scores) / len(scores), 2)`; an empty list of
      results divides by zero. */
  function Aggregate(xs: seq<real>): (r: Result<Verdict>)
    ensures r.Err? <==> xs == []
    ensures r.Err? ==> r.error == ZeroDivisionError
    ensures r.Ok? ==> r.value.reject == Vetoed(xs) && r.value.review == ReviewForced(xs)
    ensures r.Ok? ==> Mean(xs) - 0.005 <= r.value.score <= Mean(xs) + 0.005
  {
    if xs == [] then Err(ZeroDivisionError)
    else Ok(Verdict(Vetoed(xs), ReviewForced(xs), Round2(Mean(xs))))
  }

  /** A scoring result as `score_result == 0` and `score_result < 0` see it:
      a number, or a boolean as 1 or 0. Any other value is never equal to 0,
      and comparing it with `<` raises TypeError. */
  function Numeric(j: Json): (r: Result<real>)
    ensures r.Ok? <==> j.JNum? || j.JBool?
    ensures j.JNum? ==> r == Ok(j.n)
    ensures j.JBool? ==> r == Ok(if j.b then 1.0 else 0.0)
    ensures r.Err? ==> r.error == TypeError
  {
    match j
    case JNum(n) => Ok(n)
    case JBool(b) => Ok(if b then 1.0 else 0.0)
    case _ => Err(TypeError)
  }

  /** The results read as numbers; the loop over them raises at the first
      one that is not. */
  function Numbers(xs: seq<Json>): (r: Result<seq<real>>)
    ensures r.Ok? <==> forall i :: 0 <= i < |xs| ==> Numeric(xs[i]).Ok?
    ensures r.Ok? ==> |r.value| == |xs| && forall i :: 0 <= i < |xs| ==> Numeric(xs[i]) == Ok(r.value[i])
    ensures r.Err? ==> r.error == TypeError
    decreases |xs|
  {
    if xs == [] then Ok([])
    else
      var front :- Numbers(xs[..|xs| - 1]);
      var x :- Numeric(xs[|xs| - 1]);
      Ok(front + [x])
  }

  /** The loop over one request's results, then the mean: a result that is
      not a number stops it with TypeError. */
  function AggregateResults(results: seq<Json>): (r: Result<Verdict>)
  {
    var xs :- Numbers(results);
    Aggregate(xs)
  }

  datatype Action = Reject | Review | Approve

  /** The branch `run` takes. */
  function Decide(v: Verdict): (a: Action)
  {
    if v.reject then Reject
    else if v.review || v.score < 1.0 then Review
    else Approve
  }

  // ---------------------------------------------------------------------------
  // Comments

  const RejectText := " has reviewed this access request and does not believe this access is appropriate. This is an automated message."
  const ReviewText := " has reviewed this access request and found that most of the requestor's peers do not utilize this role as part of their job functions. Please carefully review this request and ensure it is appropriate to provide the requestor access. This is an automated message."
  const ApproveText := " has reviewed this access request and believes this access is appropriate. This is an automated message."

  function BaseComment(a: Action, who: string): string
  {
    match a
    case Reject => who + RejectText
    case Review => who + ReviewText
    case Approve => who + ApproveText
  }

  /** The comment of a branch; the review and approval comments end in
      ` [score]` when scores are to be shown. */
  function Comment(a: Action, who: string, includeScore: bool, scoreText: string): (c: string)
    ensures |c| >= |who| && c[..|who|] == who
  {
    if includeScore && a != Reject then BaseComment(a, who) + " [" + scoreText + "]"
    else BaseComment(a, who)
  }

  // ---------------------------------------------------------------------------
  // The allow-list

  /** The keys of a dictionary, in insertion order. */
  function KeyList<V>(d: Dict<string, V>): (ks: seq<string>)
    ensures |ks| == |d| && forall i :: 0 <= i < |d| ==> ks[i] == d[i].key
  {
    if d == [] then [] else KeyList(d[..|d| - 1]) + [d[|d| - 1].key]
  }

  /** The strings of a list; an item that is not a string has no `strip`
      (AttributeError). */
  function StringItems(items: seq<Json>): (r: Result<seq<string>>)
    ensures r.Ok? <==> forall i :: 0 <= i < |items| ==> items[i].JStr?
    ensures r.Ok? ==> |r.value| == |items| && forall i :: 0 <= i < |items| ==> r.value[i] == items[i].s
    ensures r.Err? ==> r.error == AttributeError
    decreases |items|
  {
    if items == [] then Ok([])
    else
      var front :- StringItems(items[..|items| - 1]);
      match items[|items| - 1]
      case JStr(s) => Ok(front + [s])
      case _ => Err(AttributeError)
  }

  /** What iterating over the configured value yields: a string is first
      split on commas, a dictionary yields its keys, and a scalar is not
      iterable (TypeError). */
  function ListEntries(v: Json): (r: Result<seq<string>>)
    ensures r.Ok? <==> v.JStr? || v.JObj? || (v.JArr? && forall i :: 0 <= i < |v.items| ==> v.items[i].JStr?)
    ensures r.Err? ==> r.error == if v.JArr? then AttributeError else TypeError
    ensures v.JStr? ==> r == Ok(SplitBy(v.s, ","))
    ensures v.JArr? && r.Ok? ==> |r.value| == |v.items| && forall i :: 0 <= i < |v.items| ==> r.value[i] == v.items[i].s
    ensures v.JObj? ==> r == Ok(KeyList(v.fields))
  {
    match v
    case JStr(s) => Ok(SplitBy(s, ","))
    case JArr(items) => StringItems(items)
    case JObj(fs) => Ok(KeyList(fs))
    case _ => Err(TypeError)
  }

  /** `[x.strip().lower() for x in entries]`. */
  function Clean(xs: seq<string>): (r: seq<string>)
    ensures |r| == |xs|
    ensures forall i :: 0 <= i < |xs| ==> r[i] == Lower(Strip(xs[i]))
  {
    seq(|xs|, i requires 0 <= i < |xs| => Lower(Strip(xs[i])))
  }

  const AllowKey := "entitlements_to_auto_approve"

  /** `entitlements_to_auto_approve`, default empty: a string is split on
      commas, and every entry is stripped and lower-cased. */
  function AllowList(gadjit: Dict<string, Json>): (r: Result<seq<string>>)
    ensures var entries := ListEntries(GetOr(gadjit, AllowKey, JArr([])));
            r.Ok? <==> entries.Ok?
    ensures var entries := ListEntries(GetOr(gadjit, AllowKey, JArr([])));
            r.Ok? ==> |r.value| == |entries.value|
                      && forall i :: 0 <= i < |r.value| ==> r.value[i] == Lower(Strip(entries.value[i]))
    ensures r.Err? ==> r.error == ListEntries(GetOr(gadjit, AllowKey, JArr([]))).error
    ensures AllowKey !in Keys(gadjit) ==> r == Ok([])
  {
    var entries :- ListEntries(GetOr(gadjit, AllowKey, JArr([])));
    Ok(Clean(entries))
  }

  /** Whether the entitlement's name, or else its id, lower-cased, is on the
      allow-list. A missing name or a missing id that has to be looked at has
      no `lower` (AttributeError). */
  function AutoApproved(gadjit: Dict<string, Json>, e: Entitlement): (r: Result<bool>)
    ensures var list := AllowList(gadjit);
            r.Ok? <==> list.Ok? && e.name.Some? && (Lower(e.name.value) in list.value || e.id.Some?)
    ensures var list := AllowList(gadjit);
            r.Ok? ==> (r.value <==> Lower(e.name.value) in list.value
                                    || (e.id.Some? && Lower(e.id.value) in list.value))
    ensures r.Err? && AllowList(gadjit).Ok? ==> r.error == AttributeError
  {
    var list :- AllowList(gadjit);
    match e.name
    case None => Err(AttributeError)
    case Some(n) =>
      if Lower(n) in list then Ok(true)
      else
        match e.id
        case None => Err(AttributeError)
        case Some(id) => Ok(Lower(id) in list)
  }

  // ---------------------------------------------------------------------------
  // One request

  /** The fixed inputs of a run: the `gadjit` section, the enabled plugins
      and the way values are rendered into text. */
  datatype Setup = Setup(
    gadjit: Dict<string, Json>,
    scoring: seq<ScoringPlugin>,
    llm: LlmPlugin,
    display: Json -> string,
    showScore: real -> string)

  /** What `run` decides for one request: the branch, the final score, the
      comment and, in the approval branch, whether the entitlement is on the
      allow-list. */
  datatype Outcome = Outcome(action: Action, score: real, comment: string, autoApproved: bool)

  function Evaluate(setup: Setup, request: AccessRequest): (r: Result<Outcome>)
  {
    var results :- RunAll(setup.scoring, ScoringFunction, request, setup.llm);
    var v :- AggregateResults(results);
    var a := Decide(v);
    var comment := Comment(a, ReferAs(setup.gadjit, setup.display), IncludeScore(setup.gadjit), setup.showScore(v.score));
    if a == Approve then
      var approved :- AutoApproved(setup.gadjit, request.entitlement);
      Ok(Outcome(a, v.score, comment, approved))
    else
      Ok(Outcome(a, v.score, comment, false))
  }

  /** `Evaluate` under one configuration, as the loop over the requests
      applies it. */
  function Evaluator(setup: Setup): (f: AccessRequest -> Result<Outcome>)
    ensures forall request :: f(request) == Evaluate(setup, request)
  {
    request => Evaluate(setup, request)
  }

  /** One request handled: the comments sent to the connector for it, and
      its outcome or the error that stops the run. A rejection comment is
      sent before the connector's answer is known. */
  datatype Step = Step(posted: seq<(AccessRequest, string)>, result: Result<Outcome>)

  function Handle(evaluate: AccessRequest -> Result<Outcome>,
      commentOutcome: (AccessRequest, string) -> Result<()>,
                  request: AccessRequest): (s: Step)
  {
    match evaluate(request)
    case Err(e) => Step([], Err(e))
    case Ok(o) =>
      if o.action == Reject then
        match commentOutcome(request, o.comment)
        case Err(e) => Step([(request, o.comment)], Err(e))
        case Ok(_) => Step([(request, o.comment)], Ok(o))
      else Step([], Ok(o))
  }

  /** The requests handled so far: the comments sent to the connector, and
      the outcomes, or the error that stopped the run. */
  datatype Trace = Trace(posted: seq<(AccessRequest, string)>, result: Result<seq<Outcome>>)

  /** The loop over the retrieved requests; `commentOutcome` is what the
      connector answers to a comment. */
  function Process(evaluate: AccessRequest -> Result<Outcome>,
      commentOutcome: (AccessRequest, string) -> Result<()>,
                   requests: seq<AccessRequest>): (t: Trace)
    decreases |requests|
  {
    if requests == [] then Trace([], Ok([]))
    else
      var before := Process(evaluate, commentOutcome, requests[..|requests| - 1]);
      if before.result.Err? then before
      else
        var s := Handle(evaluate, commentOutcome, requests[|requests| - 1]);
        match s.result
        case Err(e) => Trace(before.posted + s.posted, Err(e))
        case Ok(o) => Trace(before.posted + s.posted, Ok(before.result.value + [o]))
  }

  /** The comments of the rejected requests, in order. */
  function Rejections(requests: seq<AccessRequest>, outcomes: seq<Outcome>): seq<(AccessRequest, string)>
    requires |requests| == |outcomes|
    decreases |requests|
  {
    if requests == [] then []
    else
      var n := |requests| - 1;
      Rejections(requests[..n], outcomes[..n])
        + if outcomes[n].action == Reject then [(requests[n], outcomes[n].comment)] else []
  }

  // ---------------------------------------------------------------------------
  // The IGA connector

  /** An IGA plugin as `run` uses it: a retrieval and the three actions of
      the connector, whose calls are recorded. */
  class IgaPlugin {
    const config: Json
    const retrieve: Json -> Result<seq<AccessRequest>>
    const commentOutcome: (AccessRequest, string) -> Result<()>
    const approveOutcome: AccessRequest -> Result<()>
    const denyOutcome: AccessRequest -> Result<()>
    var comments: seq<(AccessRequest, string)>
    var approvals: seq<AccessRequest>
    var denials: seq<AccessRequest>

    constructor(config: Json, retrieve: Json -> Result<seq<AccessRequest>>,
                commentOutcome: (AccessRequest, string) -> Result<()>,
                approveOutcome: AccessRequest -> Result<()>,
                denyOutcome: AccessRequest -> Result<()>)
      ensures this.config == config && this.retrieve == retrieve
      ensures this.commentOutcome == commentOutcome
      ensures this.approveOutcome == approveOutcome && this.denyOutcome == denyOutcome
      ensures comments == [] && approvals == [] && denials == []
    {
      this.config := config;
      this.retrieve := retrieve;
      this.commentOutcome := commentOutcome;
      this.approveOutcome := approveOutcome;
      this.denyOutcome := denyOutcome;
      comments := [];
      approvals := [];
      denials := [];
    }

    method RetrieveRequests(event: Json) returns (r: Result<seq<AccessRequest>>)
      ensures r == retrieve(event)
    {
      r := retrieve(event);
    }

    method CommentRequest(request: AccessRequest, comment: string) returns (r: Result<()>)
      modifies this
      ensures comments == old(comments) + [(request, comment)]
      ensures approvals == old(approvals) && denials == old(denials)
      ensures r == commentOutcome(request, comment)
    {
      comments := comments + [(request, comment)];
      r := commentOutcome(request, comment);
    }

    method ApproveRequest(request: AccessRequest) returns (r: Result<()>)
      modifies this
      ensures approvals == old(approvals) + [request]
      ensures comments == old(comments) && denials == old(denials)
      ensures r == approveOutcome(request)
    {
      approvals := approvals + [request];
      r := approveOutcome(request);
    }

    method DenyRequest(request: AccessRequest) returns (r: Result<()>)
      modifies this
      ensures denials == old(denials) + [request]
      ensures comments == old(comments) && approvals == old(approvals)
      ensures r == denyOutcome(request)
    {
      denials := denials + [request];
      r := denyOutcome(request);
    }
  }

  // ---------------------------------------------------------------------------
  // The workflow

  /** The loop over one request's results: sets the two flags, keeps every
      result, then divides the sum by the count and rounds. */
  method AggregateScores(results: seq<Json>) returns (r: Result<Verdict>)
    ensures r == AggregateResults(results)
  {
    var reject := false;
    var review := false;
    var scores: seq<real> := [];
    var i := 0;
    while i < |results|
      invariant 0 <= i <= |results|
      invariant Numbers(results[..i]) == Ok(scores)
      invariant reject == Vetoed(scores)
      invariant review == ReviewForced(scores)
    {
      assert results[..i + 1][..i] == results[..i];
      var x := Numeric(results[i]);
      if x.Err? {
        return Err(TypeError);
      }
      if x.value == 0.0 {
        review := true;
      } else if x.value < 0.0 {
        reject := true;
      }
      scores := scores + [x.value];
      i := i + 1;
    }
    assert results[..i] == results;
    if |scores| == 0 {
      return Err(ZeroDivisionError);
    }
    r := Ok(Verdict(reject, review, Round2(Sum(scores) / |scores| as real)));
  }

  /** The body of the loop over the requests. */
  method HandleRequest(setup: Setup, iga: IgaPlugin, request: AccessRequest) returns (r: Result<Outcome>)
    modifies iga
    ensures var s := Handle(Evaluator(setup), iga.commentOutcome, request);
            r == s.result && iga.comments == old(iga.comments) + s.posted
    ensures iga.approvals == old(iga.approvals) && iga.denials == old(iga.denials)
  {
    var results := PluginsRunFunction(setup.scoring, ScoringFunction, request, setup.llm);
    if results.Err? {
      return Err(results.error);
    }
    var verdict := AggregateScores(results.value);
    if verdict.Err? {
      return Err(verdict.error);
    }
    var action := Decide(verdict.value);
    var comment := Comment(action, ReferAs(setup.gadjit, setup.display), IncludeScore(setup.gadjit),
                           setup.showScore(verdict.value.score));
    var approved := false;
    if action == Reject {
      var sent := iga.CommentRequest(request, comment);
      if sent.Err? {
        return Err(sent.error);
      }
    } else if action == Approve {
      var listed := AutoApproved(setup.gadjit, request.entitlement);
      if listed.Err? {
        return Err(listed.error);
      }
      approved := listed.value;
    }
    r := Ok(Outcome(action, verdict.value.score, comment, approved));
  }

  /** `run`, from a loaded configuration and the plugins it enables. */
  method Run(config: Json, igaPlugins: seq<IgaPlugin>, llmPlugins: seq<LlmPlugin>,
             scoring: seq<ScoringPlugin>, event: Json,
             display: Json -> string, showScore: real -> string)
    returns (r: Result<seq<Outcome>>)
    modifies igaPlugins
    ensures var pre := Preflight(config, |igaPlugins|, |llmPlugins|, |scoring|);
            pre.Err? ==> r == Err(pre.error)
                         && forall p :: p in igaPlugins ==> p.comments == old(p.comments)
    ensures var pre := Preflight(config, |igaPlugins|, |llmPlugins|, |scoring|);
            pre.Ok? ==>
              var iga := igaPlugins[0];
              var requests := iga.retrieve(event);
              (requests.Err? ==> r == Err(requests.error) && iga.comments == old(iga.comments))
              && (requests.Ok? ==>
                    var t := Process(Evaluator(Setup(pre.value, scoring, llmPlugins[0], display, showScore)),
                                     iga.commentOutcome, requests.value);
                    r == t.result && iga.comments == old(iga.comments) + t.posted)
    ensures forall p :: p in igaPlugins ==> p.approvals == old(p.approvals) && p.denials == old(p.denials)
  {
    var pre := Preflight(config, |igaPlugins|, |llmPlugins|, |scoring|);
    if pre.Err? {
      return Err(pre.error);
    }
    var iga := igaPlugins[0];
    var setup := Setup(pre.value, scoring, llmPlugins[0], display, showScore);
    var retrieved := iga.RetrieveRequests(event);
    if retrieved.Err? {
      return Err(retrieved.error);
    }
    r := ProcessRequests(setup, iga, retrieved.value);
  }

  /** The loop of `run` over the retrieved requests. */
  method ProcessRequests(setup: Setup, iga: IgaPlugin, requests: seq<AccessRequest>)
    returns (r: Result<seq<Outcome>>)
    modifies iga
    ensures var t := Process(Evaluator(setup), iga.commentOutcome, requests);
            r == t.result && iga.comments == old(iga.comments) + t.posted
    ensures iga.approvals == old(iga.approvals) && iga.denials == old(iga.denials)
  {
    var outcomes: seq<Outcome> := [];
    var i := 0;
    while i < |requests|
      invariant 0 <= i <= |requests|
      invariant Process(Evaluator(setup), iga.commentOutcome, requests[..i]).result == Ok(outcomes)
      invariant iga.comments == old(iga.comments) + Process(Evaluator(setup), iga.commentOutcome, requests[..i]).posted
      invariant iga.approvals == old(iga.approvals) && iga.denials == old(iga.denials)
    {
      ghost var evaluate := Evaluator(setup);
      ghost var before := Process(evaluate, iga.commentOutcome, requests[..i]);
      ghost var s := Handle(evaluate, iga.commentOutcome, requests[i]);
      ghost var t := Process(evaluate, iga.commentOutcome, requests[..i + 1]);
      assert t.posted == before.posted + s.posted
             && (s.result.Err? ==> t.result == Err(s.result.error))
             && (s.result.Ok? ==> t.result == Ok(outcomes + [s.result.value])) by {
        assert requests[..i + 1][..i] == requests[..i];
        ProcessStep(evaluate, iga.commentOutcome, requests[..i + 1]);
      }
      var o := HandleRequest(setup, iga, requests[i]);
      assert iga.comments == old(iga.comments) + t.posted by {
        assert old(iga.comments) + before.posted + s.posted == old(iga.comments) + (before.posted + s.posted);
      }
      if o.Err? {
        ProcessPrefixErr(evaluate, iga.commentOutcome, requests, i + 1);
        return Err(o.error);
      }
      outcomes := outcomes + [o.value];
      i := i + 1;
    }
    assert requests[..i] == requests;
    r := Ok(outcomes);
  }

  // ---------------------------------------------------------------------------
  // Properties

  /** Once a request fails, the run stops: later requests change nothing. */
  lemma {:induction false} ProcessPrefixErr(evaluate: AccessRequest -> Result<Outcome>,
      commentOutcome: (AccessRequest, string) -> Result<()>,
                                            requests: seq<AccessRequest>, i: nat)
    requires i <= |requests|
    requires Process(evaluate, commentOutcome, requests[..i]).result.Err?
    ensures Process(evaluate, commentOutcome, requests) == Process(evaluate, commentOutcome, requests[..i])
    decreases |requests| - i
  {
    if i < |requests| {
      var n := |requests|;
      assert Process(evaluate, commentOutcome, requests[..n - 1]) == Process(evaluate, commentOutcome, requests[..i]) by {
        assert requests[..n - 1][..i] == requests[..i];
        ProcessPrefixErr(evaluate, commentOutcome, requests[..n - 1], i);
      }
    } else {
      assert requests[..i] == requests;
    }
  }

  /** Rounding to two places keeps a value at or above 1 exactly when the
      unrounded value is at least 0.995 (ties go up there, to the even 100). */
  lemma Round2Threshold(x: real)
    ensures Round2(x) >= 1.0 <==> x >= 0.995
  {
    var y := x * 100.0;
    var f := y.Floor;
    assert f as real <= y < f as real + 1.0;
    if y >= 99.5 {
      assert f >= 99;
      assert RoundHalfEven(y) >= 100;
    } else {
      assert f <= 99;
      assert RoundHalfEven(y) <= 99;
    }
  }

  /** A value with at most two decimals is its own rounding; rounding twice
      is rounding once. */
  lemma Round2Exact(k: int)
    ensures Round2(k as real / 100.0) == k as real / 100.0
  {
    var y := (k as real / 100.0) * 100.0;
    assert y == k as real;
    assert y.Floor == k;
  }

  lemma Round2Idempotent(x: real)
    ensures Round2(Round2(x)) == Round2(x)
  {
    Round2Exact(RoundHalfEven(x * 100.0));
  }

  /** The three branches, in terms of the results themselves: any negative
      result rejects; otherwise a zero result or a mean below 0.995 (which
      rounds below 1) sends the request to review; only results that are all
      positive, with a mean of at least 0.995, approve it. */
  lemma DecidePrecedence(xs: seq<real>)
    requires xs != []
    ensures Aggregate(xs).Ok?
    ensures var a := Decide(Aggregate(xs).value);
            (a == Reject <==> exists i :: 0 <= i < |xs| && xs[i] < 0.0)
            && (a == Review <==> (forall i :: 0 <= i < |xs| ==> xs[i] >= 0.0)
                                 && ((exists i :: 0 <= i < |xs| && xs[i] == 0.0) || Mean(xs) < 0.995))
            && (a == Approve <==> (forall i :: 0 <= i < |xs| ==> xs[i] > 0.0) && Mean(xs) >= 0.995)
  {
    Round2Threshold(Mean(xs));
  }

  /** With at least one scoring plugin, every request whose plugins all
      succeed gets a score: the mean never divides by zero. */
  lemma ScoresNeverEmpty(setup: Setup, request: AccessRequest)
    requires setup.scoring != []
    ensures var results := RunAll(setup.scoring, ScoringFunction, request, setup.llm);
            results.Ok? ==> |results.value| == |setup.scoring|
                            && AggregateResults(results.value) != Err(ZeroDivisionError)
    ensures Evaluate(setup, request).Err? ==> Evaluate(setup, request).error != ZeroDivisionError
                                              || RunAll(setup.scoring, ScoringFunction, request, setup.llm).Err?
  {
    RunAllSpec(setup.scoring, ScoringFunction, request, setup.llm);
  }

  /** A scorer whose result is not a number, such as the `""` that `0 *
      "0.8"` gives, does not stop the other scorers; the request then fails
      with TypeError when its results are compared with 0. */
  lemma NonNumericResultFails(setup: Setup, request: AccessRequest, k: nat)
    requires var results := RunAll(setup.scoring, ScoringFunction, request, setup.llm);
             results.Ok? && k < |results.value| && !(results.value[k].JNum? || results.value[k].JBool?)
    ensures Evaluate(setup, request) == Err(TypeError)
  {
    var results := RunAll(setup.scoring, ScoringFunction, request, setup.llm).value;
    assert Numeric(results[k]).Err?;
    assert Numbers(results).Err?;
  }

  /** The rejection comment never shows the score; the other two end in
      ` [score]` exactly when scores are to be shown, and in the final full
      stop of their text otherwise. */
  lemma CommentScoreSuffix(a: Action, who: string, includeScore: bool, scoreText: string)
    ensures a == Reject ==> Comment(a, who, includeScore, scoreText) == who + RejectText
    ensures includeScore && a != Reject ==>
              Comment(a, who, includeScore, scoreText) == BaseComment(a, who) + " [" + scoreText + "]"
    ensures var c := Comment(a, who, includeScore, scoreText);
            c[|c| - 1] == ']' <==> includeScore && a != Reject
    ensures var c := Comment(a, who, includeScore, scoreText);
            !(includeScore && a != Reject) ==> c == BaseComment(a, who) && c[|c| - 1] == '.'
  {
  }

  /** An entitlement whose name matches, up to case and surrounding spaces,
      an entry of a configured list of strings is on the allow-list. */
  lemma AllowListedByName(gadjit: Dict<string, Json>, items: seq<Json>, k: nat, e: Entitlement)
    requires Get(gadjit, AllowKey) == Some(JArr(items))
    requires forall i :: 0 <= i < |items| ==> items[i].JStr?
    requires k < |items| && e.name.Some?
    requires Lower(Strip(items[k].s)) == Lower(e.name.value)
    ensures AutoApproved(gadjit, e) == Ok(true)
  {
    var list := Clean(StringItems(items).value);
    assert list[k] == Lower(e.name.value);
  }

  /** A comma-separated allow-list approves an entitlement exactly when its
      name or its id, lower-cased, is one of the pieces between the commas,
      stripped and lower-cased (`InClean` reads the membership back). */
  lemma AllowListFromString(gadjit: Dict<string, Json>, s: string, e: Entitlement)
    requires Get(gadjit, AllowKey) == Some(JStr(s))
    requires e.name.Some? && e.id.Some?
    ensures var list := Clean(SplitBy(s, ","));
            AutoApproved(gadjit, e) == Ok(Lower(e.name.value) in list || Lower(e.id.value) in list)
  {
    var parts := SplitBy(s, ",");
    assert GetOr(gadjit, AllowKey, JArr([])) == JStr(s);
    assert ListEntries(JStr(s)) == Ok(parts);
    assert AllowList(gadjit) == Ok(Clean(parts));
    OnCleanedList(gadjit, Clean(parts), e);
  }

  /** An entitlement whose name matches, up to case and surrounding spaces,
      a piece of a comma-separated allow-list is on the allow-list. */
  lemma AllowListedFromString(gadjit: Dict<string, Json>, s: string, k: nat, e: Entitlement)
    requires Get(gadjit, AllowKey) == Some(JStr(s))
    requires k < |SplitBy(s, ",")| && e.name.Some?
    requires Lower(Strip(SplitBy(s, ",")[k])) == Lower(e.name.value)
    ensures AutoApproved(gadjit, e) == Ok(true)
  {
    var parts := SplitBy(s, ",");
    assert GetOr(gadjit, AllowKey, JArr([])) == JStr(s);
    assert ListEntries(JStr(s)) == Ok(parts);
    assert AllowList(gadjit) == Ok(Clean(parts));
    assert Clean(parts)[k] == Lower(e.name.value);
  }

  /** With the allow-list read, approval is the name-or-id membership. */
  lemma OnCleanedList(gadjit: Dict<string, Json>, list: seq<string>, e: Entitlement)
    requires AllowList(gadjit) == Ok(list)
    requires e.name.Some? && e.id.Some?
    ensures AutoApproved(gadjit, e) == Ok(Lower(e.name.value) in list || Lower(e.id.value) in list)
  {
  }

  /** A cleaned entry is one of the entries, stripped and lower-cased. */
  lemma InClean(xs: seq<string>, x: string)
    ensures x in Clean(xs) <==> exists k :: 0 <= k < |xs| && Lower(Strip(xs[k])) == x
  {
    var ys := Clean(xs);
    if x in ys {
      var k :| 0 <= k < |ys| && ys[k] == x;
      assert Lower(Strip(xs[k])) == x;
    }
    if exists k :: 0 <= k < |xs| && Lower(Strip(xs[k])) == x {
      var k :| 0 <= k < |xs| && Lower(Strip(xs[k])) == x;
      assert ys[k] == x;
    }
  }

  /** Outside the approval branch the allow-list is never read: the request
      has the outcome of its branch, not on the allow-list, and the same
      outcome whatever `entitlements_to_auto_approve` holds, even a value
      that cannot be iterated. */
  lemma AllowListOnlyOnApproval(setup: Setup, request: AccessRequest, list: Json)
    requires RunAll(setup.scoring, ScoringFunction, request, setup.llm).Ok?
    requires AggregateResults(RunAll(setup.scoring, ScoringFunction, request, setup.llm).value).Ok?
    requires Decide(AggregateResults(RunAll(setup.scoring, ScoringFunction, request, setup.llm).value).value) != Approve
    ensures var v := AggregateResults(RunAll(setup.scoring, ScoringFunction, request, setup.llm).value).value;
            var a := Decide(v);
            Evaluate(setup, request)
              == Ok(Outcome(a, v.score, Comment(a, ReferAs(setup.gadjit, setup.display), IncludeScore(setup.gadjit), setup.showScore(v.score)), false))
    ensures Evaluate(setup.(gadjit := Put(setup.gadjit, AllowKey, list)), request) == Evaluate(setup, request)
  {
    var other := Put(setup.gadjit, AllowKey, list);
    assert Get(other, "refer_to_myself_as") == Get(setup.gadjit, "refer_to_myself_as");
    assert Get(other, "include_score_in_comments") == Get(setup.gadjit, "include_score_in_comments");
  }

  /** In the approval branch the allow-list is read: its error, or a missing
      name or id, ends the request; otherwise the outcome records whether the
      entitlement is on it. */
  lemma ApprovalReadsAllowList(setup: Setup, request: AccessRequest)
    requires RunAll(setup.scoring, ScoringFunction, request, setup.llm).Ok?
    requires AggregateResults(RunAll(setup.scoring, ScoringFunction, request, setup.llm).value).Ok?
    requires Decide(AggregateResults(RunAll(setup.scoring, ScoringFunction, request, setup.llm).value).value) == Approve
    ensures var approved := AutoApproved(setup.gadjit, request.entitlement);
            approved.Err? ==> Evaluate(setup, request) == Err(approved.error)
    ensures var v := AggregateResults(RunAll(setup.scoring, ScoringFunction, request, setup.llm).value).value;
            var approved := AutoApproved(setup.gadjit, request.entitlement);
            approved.Ok? ==>
              Evaluate(setup, request)
                == Ok(Outcome(Approve, v.score, Comment(Approve, ReferAs(setup.gadjit, setup.display), IncludeScore(setup.gadjit), setup.showScore(v.score)), approved.value))
  {
  }

  /** One step of the loop, stated without unfolding the request's own
      handling. */
  lemma ProcessStep(evaluate: AccessRequest -> Result<Outcome>,
      commentOutcome: (AccessRequest, string) -> Result<()>,
                    requests: seq<AccessRequest>)
    requires requests != []
    ensures var n := |requests| - 1;
            var before := Process(evaluate, commentOutcome, requests[..n]);
            var s := Handle(evaluate, commentOutcome, requests[n]);
            var t := Process(evaluate, commentOutcome, requests);
            (before.result.Err? ==> t == before)
            && (before.result.Ok? ==>
                  t.posted == before.posted + s.posted
                  && (s.result.Err? ==> t.result == Err(s.result.error))
                  && (s.result.Ok? ==> t.result == Ok(before.result.value + [s.result.value])))
  {
  }

  /** A request handled without error has the outcome `Evaluate` gives it,
      and only a rejection sends a comment. */
  lemma HandleSpec(evaluate: AccessRequest -> Result<Outcome>,
      commentOutcome: (AccessRequest, string) -> Result<()>, request: AccessRequest)
    ensures var s := Handle(evaluate, commentOutcome, request);
            s.result.Ok? ==>
              evaluate(request) == s.result
              && s.posted == if s.result.value.action == Reject then [(request, s.result.value.comment)] else []
  {
  }

  /** The comment of an outcome is the comment of its branch. */
  lemma EvaluateComment(setup: Setup, request: AccessRequest)
    ensures var r := Evaluate(setup, request);
            r.Ok? ==> r.value.comment == Comment(r.value.action, ReferAs(setup.gadjit, setup.display),
                                                 IncludeScore(setup.gadjit), setup.showScore(r.value.score))
  {
  }

  /** A handled request sends a comment only when it is rejected, and then
      its own comment. */
  lemma HandlePosted(evaluate: AccessRequest -> Result<Outcome>,
      commentOutcome: (AccessRequest, string) -> Result<()>, request: AccessRequest)
    ensures var s := Handle(evaluate, commentOutcome, request);
            s.posted != [] ==>
              evaluate(request).Ok? && evaluate(request).value.action == Reject
              && s.posted == [(request, evaluate(request).value.comment)]
  {
  }

  /** The outcome of every request in a completed run. */
  lemma {:induction false} ProcessOutcomes(evaluate: AccessRequest -> Result<Outcome>,
      commentOutcome: (AccessRequest, string) -> Result<()>,
                                           requests: seq<AccessRequest>)
    ensures var t := Process(evaluate, commentOutcome, requests);
            t.result.Ok? ==>
              |t.result.value| == |requests|
              && forall i :: 0 <= i < |requests| ==> evaluate(requests[i]) == Ok(t.result.value[i])
    decreases |requests|
  {
    if requests != [] {
      var n := |requests| - 1;
      var front := requests[..n];
      ProcessOutcomes(evaluate, commentOutcome, front);
      ProcessStep(evaluate, commentOutcome, requests);
      var t := Process(evaluate, commentOutcome, requests);
      var before := Process(evaluate, commentOutcome, front);
      if t.result.Ok? {
        var s := Handle(evaluate, commentOutcome, requests[n]);
        HandleSpec(evaluate, commentOutcome, requests[n]);
        var outs := t.result.value;
        assert outs == before.result.value + [s.result.value];
        forall i | 0 <= i < |requests| ensures evaluate(requests[i]) == Ok(outs[i]) {
          if i < n {
            assert requests[i] == front[i];
          }
        }
      }
    }
  }

  /** The comments the connector received in a completed run: exactly the
      rejection comments, in order. */
  lemma {:induction false} ProcessPosted(evaluate: AccessRequest -> Result<Outcome>,
      commentOutcome: (AccessRequest, string) -> Result<()>,
                                         requests: seq<AccessRequest>)
    ensures var t := Process(evaluate, commentOutcome, requests);
            t.result.Ok? ==>
              |t.result.value| == |requests| && t.posted == Rejections(requests, t.result.value)
    decreases |requests|
  {
    if requests != [] {
      var n := |requests| - 1;
      var front := requests[..n];
      ProcessPosted(evaluate, commentOutcome, front);
      ProcessStep(evaluate, commentOutcome, requests);
      var t := Process(evaluate, commentOutcome, requests);
      var before := Process(evaluate, commentOutcome, front);
      if t.result.Ok? {
        var s := Handle(evaluate, commentOutcome, requests[n]);
        HandleSpec(evaluate, commentOutcome, requests[n]);
        var outs := t.result.value;
        assert outs[..n] == before.result.value;
        assert outs[n] == s.result.value;
        RejectionsStep(requests, outs);
      }
    }
  }

  lemma RejectionsStep(requests: seq<AccessRequest>, outcomes: seq<Outcome>)
    requires |requests| == |outcomes| && requests != []
    ensures var n := |requests| - 1;
            Rejections(requests, outcomes)
            == Rejections(requests[..n], outcomes[..n])
               + if outcomes[n].action == Reject then [(requests[n], outcomes[n].comment)] else []
  {
  }

  /** Every comment sent to the connector, even in a run that fails, is the
      rejection comment, and so never carries a score. */
  lemma {:induction false} PostedAreRejections(setup: Setup, commentOutcome: (AccessRequest, string) -> Result<()>,
                                               requests: seq<AccessRequest>)
    ensures var t := Process(Evaluator(setup), commentOutcome, requests);
            forall k :: 0 <= k < |t.posted| ==>
              t.posted[k].1 == ReferAs(setup.gadjit, setup.display) + RejectText
    decreases |requests|
  {
    if requests != [] {
      var evaluate := Evaluator(setup);
      var n := |requests| - 1;
      PostedAreRejections(setup, commentOutcome, requests[..n]);
      ProcessStep(evaluate, commentOutcome, requests);
      var before := Process(evaluate, commentOutcome, requests[..n]);
      var s := Handle(evaluate, commentOutcome, requests[n]);
      HandlePosted(evaluate, commentOutcome, requests[n]);
      var who := ReferAs(setup.gadjit, setup.display);
      if s.posted != [] {
        var o := Evaluate(setup, requests[n]).value;
        EvaluateComment(setup, requests[n]);
        CommentScoreSuffix(o.action, who, IncludeScore(setup.gadjit), setup.showScore(o.score));
        assert s.posted[0].1 == who + RejectText;
      }
      var t := Process(evaluate, commentOutcome, requests);
      if before.result.Ok? {
        forall k | 0 <= k < |t.posted| ensures t.posted[k].1 == who + RejectText {
          if k >= |before.posted| {
            assert t.posted[k] == s.posted[k - |before.posted|];
          } else {
            assert t.posted[k] == before.posted[k];
          }
        }
      }
    }
  }

  /** Results [0.5, 1.5] average to exactly 1 and approve. */
  lemma ExampleApprove()
    ensures Aggregate([0.5, 1.5]) == Ok(Verdict(false, false, 1.0))
    ensures Decide(Aggregate([0.5, 1.5]).value) == Approve
  {
    assert Mean([0.5, 1.5]) == 1.0 by {
      assert [0.5, 1.5][..1] == [0.5];
      assert [0.5][..0] == [];
    }
    Round2Exact(100);
  }

  /** A single negative result rejects whatever the mean: [-1, 2] has a mean
      of 0.5 and [-1, 5] one of 2. */
  lemma ExampleVeto()
    ensures Decide(Aggregate([-1.0, 5.0]).value) == Reject
  {
    assert [-1.0, 5.0][0] < 0.0;
  }

  /** A zero result sends a request to review even when the mean is 1. */
  lemma ExampleZeroForcesReview()
    ensures Aggregate([0.0, 2.0]).Ok? && Aggregate([0.0, 2.0]).value.score == 1.0
    ensures Decide(Aggregate([0.0, 2.0]).value) == Review
  {
    assert Mean([0.0, 2.0]) == 1.0 by {
      assert [0.0, 2.0][..1] == [0.0];
      assert [0.0][..0] == [];
    }
    assert [0.0, 2.0][0] == 0.0;
    Round2Exact(100);
  }
}
