/**
 The nightly dispatch: resolve the latest release tag of the main project
 once, then ask CircleCI for two builds of every configured project, one
 against "master" and one against that tag, logging a warning for every
 answer whose status is not 200.

 The HTTP client and the GitHub tag listing are oracles passed in as
 functions. The run is a pure function from its inputs to the sequence of
 observable events: the POST requests sent and the warnings logged, in order.
 */
module Runner {
  import opened Base
  import opened Json
  import Config

  const Master := "master"
  const CircleApi := "https://circleci.com/api/v1.1/project/github/"
  const TreeMaster := "/tree/master?circle-token="
  const ReleaseBuild := "RELEASE_BUILD"
  const MissingNameMessage :=
    "Expected a `name` index on the response from the github tags endpoint. No `name` index exists."

  /** The settings the runner reads, as strings. */
  datatype RunnerConfig = RunnerConfig(
    projects: seq<string>,
    circleToken: string,
    githubUser: string,
    githubMainProject: string)

  /** One entry of the GitHub tag listing; `name` is None when the entry has
      no `name` index or it is null, the two cases `isset` rejects. */
  datatype TagEntry = TagEntry(name: Option<string>)

  /** The tag listing endpoint, by user/organisation and repository. */
  type TagSource = (string, string) -> seq<TagEntry>

  datatype RunError = UnexpectedValue(message: string)

  /** A request handed to the HTTP client; `json` is the object Guzzle encodes as the body. */
  datatype Request = Request(verb: string, url: string, json: map<string, string>)

  datatype Response = Response(status: int, body: string)

  /** The HTTP client: the answer to the n-th request of the run (counting from 0). */
  type Http = (nat, Request) -> Response

  datatype Event = Post(request: Request) | Warning(message: string)

  /** A constructed runner: its settings and the tag resolved in the constructor. */
  datatype Runner = Runner(config: RunnerConfig, latestReleaseCore: string)

  /** The latest tag is the name of the first entry of the listing. */
  function LatestTag(tags: seq<TagEntry>): (r: Result<string, RunError>)
    ensures r.Success? <==> |tags| > 0 && tags[0].name.Some?
    ensures r.Success? ==> r.value == tags[0].name.value
    ensures r.Failure? ==> r.error == UnexpectedValue(MissingNameMessage)
  {
    if |tags| == 0 then Failure(UnexpectedValue(MissingNameMessage))
    else match tags[0].name
      case None => Failure(UnexpectedValue(MissingNameMessage))
      case Some(n) => Success(n)
  }

  /** Entries after the first never influence the resolved tag. */
  lemma OnlyFirstTagMatters(tags: seq<TagEntry>, rest: seq<TagEntry>)
    requires |tags| > 0
    ensures LatestTag(tags[..1] + rest) == LatestTag(tags)
  {
  }

  function BuildUrl(project: string, token: string): (url: string)
    ensures ProjectOfUrl(url, token) == Some(project)
  {
    var url := CircleApi + project + TreeMaster + token;
    assert url[..|CircleApi|] == CircleApi;
    assert url[|url| - |TreeMaster + token|..] == TreeMaster + token;
    assert url[|CircleApi|..|url| - |TreeMaster + token|] == project;
    url
  }

  /** Recovers the project from a build URL made with `token`: the part
      between the fixed API prefix and the fixed query suffix. */
  function ProjectOfUrl(url: string, token: string): Option<string> {
    var tail := TreeMaster + token;
    if |url| >= |CircleApi| + |tail|
       && url[..|CircleApi|] == CircleApi
       && url[|url| - |tail|..] == tail
    then Some(url[|CircleApi|..|url| - |tail|])
    else None
  }

  /** The branch a request asks to build, read back from its body. */
  function BranchOf(r: Request): Option<string> {
    if ReleaseBuild in r.json then Some(r.json[ReleaseBuild]) else None
  }

  /** The request for one nightly build of `project` against `branch`. */
  function NightlyRequest(project: string, branch: string, token: string): (r: Request)
    ensures r.verb == "POST"
    ensures ProjectOfUrl(r.url, token) == Some(project)
    ensures BranchOf(r) == Some(branch) && r.json.Keys == {ReleaseBuild}
  {
    Request("POST", BuildUrl(project, token), map[ReleaseBuild := branch])
  }

  /** The build URL is the same whichever branch is requested. */
  lemma UrlIgnoresBranch(project: string, b1: string, b2: string, token: string)
    ensures NightlyRequest(project, b1, token).url == NightlyRequest(project, b2, token).url
    ensures NightlyRequest(project, b1, token) == NightlyRequest(project, b2, token) <==> b1 == b2
  {
  }

  /** One notification, as the n-th request of the run: the POST, then a
      warning carrying the response body exactly when the status is not 200. */
  function TriggerNightly(project: string, branch: string, token: string, http: Http, n: nat): (t: seq<Event>)
    ensures 1 <= |t| <= 2
    ensures t[0] == Post(NightlyRequest(project, branch, token))
    ensures |t| == 2 <==> http(n, NightlyRequest(project, branch, token)).status != 200
    ensures |t| == 2 ==> t[1] == Warning(http(n, NightlyRequest(project, branch, token)).body)
  {
    var request := NightlyRequest(project, branch, token);
    var response := http(n, request);
    [Post(request)] + if response.status != 200 then [Warning(response.body)] else []
  }

  /** The loop over the project list, the first request numbered n. */
  function TriggerAll(projects: seq<string>, token: string, tag: string, http: Http, n: nat): seq<Event> {
    if projects == [] then []
    else
      TriggerNightly(projects[0], Master, token, http, n)
      + TriggerNightly(projects[0], tag, token, http, n + 1)
      + TriggerAll(projects[1..], token, tag, http, n + 2)
  }

  /** The layout of a run's requests: for the k-th project, request 2k
      builds "master" and request 2k+1 builds the tag. */
  ghost predicate LaysOut(plan: seq<Request>, projects: seq<string>, token: string, tag: string) {
    && |plan| == 2 * |projects|
    && forall k :: 0 <= k < |projects| ==>
         plan[2 * k] == NightlyRequest(projects[k], Master, token)
         && plan[2 * k + 1] == NightlyRequest(projects[k], tag, token)
  }

  /** The requests a run must send, in order. */
  function Plan(projects: seq<string>, token: string, tag: string): (plan: seq<Request>)
    ensures LaysOut(plan, projects, token, tag)
  {
    if projects == [] then []
    else
      var rest := Plan(projects[1..], token, tag);
      var plan := [NightlyRequest(projects[0], Master, token), NightlyRequest(projects[0], tag, token)] + rest;
      PlanStep(projects, token, tag, rest);
      plan
  }

  /** Putting the first project's two requests in front of a plan for the
      remaining projects gives a plan for the whole list. */
  lemma PlanStep(projects: seq<string>, token: string, tag: string, rest: seq<Request>)
    requires |projects| > 0
    requires LaysOut(rest, projects[1..], token, tag)
    ensures LaysOut([NightlyRequest(projects[0], Master, token), NightlyRequest(projects[0], tag, token)] + rest,
                    projects, token, tag)
  {
  }

  /** The events of sending `plan` in order from request number n: each
      request is posted, then followed by a warning exactly when its status is
      not 200, and a status other than 200 never stops the requests after it.
      This is a client that returns every status; the default Guzzle client
      throws on 4xx and 5xx answers instead, which ends the run. */
  function Dispatched(plan: seq<Request>, http: Http, n: nat): seq<Event> {
    if plan == [] then []
    else
      var response := http(n, plan[0]);
      [Post(plan[0])]
      + (if response.status != 200 then [Warning(response.body)] else [])
      + Dispatched(plan[1..], http, n + 1)
  }

  function Posts(t: seq<Event>): seq<Request> {
    if t == [] then []
    else (if t[0].Post? then [t[0].request] else []) + Posts(t[1..])
  }

  function Warnings(t: seq<Event>): seq<string> {
    if t == [] then []
    else (if t[0].Warning? then [t[0].message] else []) + Warnings(t[1..])
  }

  lemma {:induction false} DispatchedAppend(a: seq<Request>, b: seq<Request>, http: Http, n: nat)
    ensures Dispatched(a + b, http, n) == Dispatched(a, http, n) + Dispatched(b, http, n + |a|)
    decreases |a|
  {
    if a == [] {
      assert a + b == b;
    } else {
      assert (a + b)[0] == a[0];
      assert (a + b)[1..] == a[1..] + b;
      DispatchedAppend(a[1..], b, http, n + 1);
    }
  }

  /** The nested loop sends exactly the flat plan, in order. */
  lemma {:induction false} TriggerAllFollowsPlan(projects: seq<string>, token: string, tag: string, http: Http, n: nat)
    ensures TriggerAll(projects, token, tag, http, n) == Dispatched(Plan(projects, token, tag), http, n)
    decreases |projects|
  {
    if projects == [] {
    } else {
      var first := [NightlyRequest(projects[0], Master, token), NightlyRequest(projects[0], tag, token)];
      DispatchedAppend(first, Plan(projects[1..], token, tag), http, n);
      DispatchedAppend(first[..1], first[1..], http, n);
      assert first[..1] + first[1..] == first;
      TriggerAllFollowsPlan(projects[1..], token, tag, http, n + 2);
    }
  }

  /** Every planned request is posted, in order, whatever the answers are. */
  lemma {:induction false} PostsOfDispatched(plan: seq<Request>, http: Http, n: nat)
    ensures Posts(Dispatched(plan, http, n)) == plan
    decreases |plan|
  {
    if plan != [] {
      var response := http(n, plan[0]);
      var head := [Post(plan[0])] + (if response.status != 200 then [Warning(response.body)] else []);
      PostsAppend(head, Dispatched(plan[1..], http, n + 1));
      PostsOfDispatched(plan[1..], http, n + 1);
      if response.status != 200 {
        assert head[1..][1..] == [];
      }
      assert Posts(head) == [plan[0]];
    }
  }

  lemma {:induction false} PostsAppend(a: seq<Event>, b: seq<Event>)
    ensures Posts(a + b) == Posts(a) + Posts(b)
    decreases |a|
  {
    if a == [] {
      assert a + b == b;
    } else {
      assert (a + b)[0] == a[0];
      assert (a + b)[1..] == a[1..] + b;
      PostsAppend(a[1..], b);
    }
  }

  lemma {:induction false} WarningsAppend(a: seq<Event>, b: seq<Event>)
    ensures Warnings(a + b) == Warnings(a) + Warnings(b)
    decreases |a|
  {
    if a == [] {
      assert a + b == b;
    } else {
      assert (a + b)[0] == a[0];
      assert (a + b)[1..] == a[1..] + b;
      WarningsAppend(a[1..], b);
    }
  }

  /** No warning is logged exactly when every request is answered with 200. */
  lemma {:induction false} NoWarningsIffAllOk(plan: seq<Request>, http: Http, n: nat)
    ensures Warnings(Dispatched(plan, http, n)) == []
      <==> forall i :: 0 <= i < |plan| ==> http(n + i, plan[i]).status == 200
    decreases |plan|
  {
    if plan != [] {
      var response := http(n, plan[0]);
      var head := [Post(plan[0])] + (if response.status != 200 then [Warning(response.body)] else []);
      WarningsAppend(head, Dispatched(plan[1..], http, n + 1));
      NoWarningsIffAllOk(plan[1..], http, n + 1);
      if response.status != 200 {
        assert head[1..][1..] == [];
        assert Warnings(head) == [response.body];
      } else {
        assert Warnings(head) == [];
        if forall i :: 0 <= i < |plan| - 1 ==> http(n + 1 + i, plan[1..][i]).status == 200 {
          forall i | 0 <= i < |plan| ensures http(n + i, plan[i]).status == 200 {
            if i > 0 {
              assert plan[i] == plan[1..][i - 1];
            }
          }
        }
      }
      assert forall i :: 0 <= i < |plan| - 1 ==> plan[1..][i] == plan[i + 1];
    }
  }

  /** The constructor: resolves the tag of the main project once, or throws. */
  function NewRunner(config: RunnerConfig, tags: TagSource): (r: Result<Runner, RunError>)
    ensures r.Success? <==> LatestTag(tags(config.githubUser, config.githubMainProject)).Success?
    ensures r.Success? ==> r.value == Runner(config, LatestTag(tags(config.githubUser, config.githubMainProject)).value)
  {
    match LatestTag(tags(config.githubUser, config.githubMainProject))
    case Failure(e) => Failure(e)
    case Success(tag) => Success(Runner(config, tag))
  }

  /** `triggerNightlies` on a constructed runner: two notifications per
      project in list order, "master" first, then the tag the constructor resolved. */
  function TriggerNightlies(runner: Runner, http: Http): (t: seq<Event>)
    ensures t == Dispatched(Plan(runner.config.projects, runner.config.circleToken, runner.latestReleaseCore), http, 0)
    ensures |Posts(t)| == 2 * |runner.config.projects|
  {
    var c := runner.config;
    TriggerAllFollowsPlan(c.projects, c.circleToken, runner.latestReleaseCore, http, 0);
    PostsOfDispatched(Plan(c.projects, c.circleToken, runner.latestReleaseCore), http, 0);
    TriggerAll(c.projects, c.circleToken, runner.latestReleaseCore, http, 0)
  }

  /** A whole run: construct the runner, then trigger the nightlies. If the
      tag cannot be resolved the run fails before any request is sent. */
  function Run(config: RunnerConfig, tags: TagSource, http: Http): (r: Result<seq<Event>, RunError>)
    ensures r.Failure? <==> LatestTag(tags(config.githubUser, config.githubMainProject)).Failure?
    ensures r.Failure? ==> r.error == UnexpectedValue(MissingNameMessage)
    ensures r.Success? ==>
      r.value == Dispatched(Plan(config.projects, config.circleToken,
                                 LatestTag(tags(config.githubUser, config.githubMainProject)).value), http, 0)
  {
    match NewRunner(config, tags)
    case Failure(e) => Failure(e)
    case Success(runner) => Success(TriggerNightlies(runner, http))
  }

  /** Every tag build of a run asks for the one tag resolved before the first
      request, and every request goes to its project's build URL. */
  lemma RunRequests(config: RunnerConfig, tags: TagSource, http: Http)
    requires Run(config, tags, http).Success?
    ensures var posts := Posts(Run(config, tags, http).value);
      var tag := tags(config.githubUser, config.githubMainProject)[0].name.value;
      && |posts| == 2 * |config.projects|
      && forall k :: 0 <= k < |config.projects| ==>
           && posts[2 * k].verb == "POST" && posts[2 * k + 1].verb == "POST"
           && ProjectOfUrl(posts[2 * k].url, config.circleToken) == Some(config.projects[k])
           && posts[2 * k + 1].url == posts[2 * k].url
           && BranchOf(posts[2 * k]) == Some(Master)
           && BranchOf(posts[2 * k + 1]) == Some(tag)
  {
    var tag := tags(config.githubUser, config.githubMainProject)[0].name.value;
    PostsOfDispatched(Plan(config.projects, config.circleToken, tag), http, 0);
  }

  /** A run logs a warning exactly when some request is answered with a status other than 200. */
  lemma RunWarnings(config: RunnerConfig, tags: TagSource, http: Http, plan: seq<Request>)
    requires Run(config, tags, http).Success?
    requires plan == Plan(config.projects, config.circleToken,
                          tags(config.githubUser, config.githubMainProject)[0].name.value)
    ensures Warnings(Run(config, tags, http).value) == []
      <==> forall i :: 0 <= i < |plan| ==> http(i, plan[i]).status == 200
  {
    assert Run(config, tags, http).value == Dispatched(plan, http, 0);
    NoWarningsIffAllOk(plan, http, 0);
    if Warnings(Dispatched(plan, http, 0)) == [] {
      forall i | 0 <= i < |plan| ensures http(i, plan[i]).status == 200 {
        assert http(0 + i, plan[i]).status == 200;
      }
    } else {
      var i :| 0 <= i < |plan| && http(0 + i, plan[i]).status != 200;
      assert http(i, plan[i]).status != 200;
    }
  }

  /** The string view of a configuration whose settings have the documented
      types: an array of strings for the project list, strings for the rest. */
  function RunnerConfigOf(c: Config.Config): (r: Option<RunnerConfig>)
    ensures r.Some? ==>
      && c.circleToken == Str(r.value.circleToken)
      && c.githubUser == Str(r.value.githubUser)
      && c.githubMainProject == Str(r.value.githubMainProject)
      && c.projectsToNotify.Arr?
      && |c.projectsToNotify.items| == |r.value.projects|
      && forall i :: 0 <= i < |r.value.projects| ==> c.projectsToNotify.items[i] == Str(r.value.projects[i])
    ensures r.None? ==>
      || !c.circleToken.Str? || !c.githubUser.Str? || !c.githubMainProject.Str?
      || !c.projectsToNotify.Arr?
      || exists i :: 0 <= i < |c.projectsToNotify.items| && !c.projectsToNotify.items[i].Str?
  {
    match (c.projectsToNotify, c.circleToken, c.githubUser, c.githubMainProject)
    case (Arr(items), Str(token), Str(user), Str(main)) =>
      if forall i :: 0 <= i < |items| ==> items[i].Str? then
        var projects := seq(|items|, i requires 0 <= i < |items| => items[i].s);
        Some(RunnerConfig(projects, token, user, main))
      else None
    case _ => None
  }

  /** With no settings in the file the runner notifies nobody. */
  lemma DefaultsNotifyNobody(tags: TagSource, http: Http)
    ensures RunnerConfigOf(Config.Defaults()) == Some(RunnerConfig([], "", "", ""))
    ensures Run(RunnerConfig([], "", "", ""), tags, http).Success? ==>
      Run(RunnerConfig([], "", "", ""), tags, http).value == []
  {
  }
}
