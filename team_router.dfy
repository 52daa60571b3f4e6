/** The multi-team router: a coordinator splits a project's requirements
    among four development teams by keywords, and every message between
    teams passes through the router, which records it in its history before
    delivering it.  Each team agent keeps a task list and a status.

    The agents' replies are routed synchronously (a reply is routed before
    the routing of the message that caused it returns).  The two-second
    timer after which an agent completes a task is not modelled: completing
    a task is an operation of its own.  The random resource availability is
    a parameter. */
module Teams {
  import opened Common

  datatype TeamType = Frontend | Backend | TradingAnalytics | DevOps | Coordinator

  datatype MessageType = TaskAssignment | StatusUpdate | ResourceRequest
                       | CompletionReport | ErrorReport | Coordination

  /** A value of a message's data dictionary. */
  datatype Value = Text(s: string) | Flag(b: bool)

  /** A message; its id and timestamp come from the clock and are left out. */
  datatype Message = Message(from: TeamType, to: TeamType, kind: MessageType,
                             content: string, data: map<string, Value>)

  /** `str(v)` as an f-string shows it. */
  function Show(v: Value): string {
    match v
    case Text(s) => s
    case Flag(b) => if b then "True" else "False"
  }

  // ---------------------------------------------------------------------
  // The keyword classifier

  const FrontendKeywords: seq<string> := ["ui", "frontend", "interface", "dashboard"]
  const BackendKeywords: seq<string> := ["api", "backend", "database", "server"]
  const TradingKeywords: seq<string> := ["chart", "analysis", "trading", "indicator", "market"]
  const DevOpsKeywords: seq<string> := ["deploy", "infrastructure", "docker", "kubernetes"]

  /** Some keyword is a substring of the text. */
  predicate AnyIn(text: string, keywords: seq<string>) {
    exists k :: 0 <= k < |keywords| && Contains(text, keywords[k])
  }

  /** The team a requirement goes to: the first keyword group with a
      keyword in the lower-cased requirement, frontend when none has. */
  function Classify(requirement: string): (t: TeamType)
    ensures t != Coordinator
  {
    var r := Lower(requirement);
    if AnyIn(r, FrontendKeywords) then Frontend
    else if AnyIn(r, BackendKeywords) then Backend
    else if AnyIn(r, TradingKeywords) then TradingAnalytics
    else if AnyIn(r, DevOpsKeywords) then DevOps
    else Frontend
  }

  lemma LowerCharIdempotent(c: char)
    ensures LowerChar(LowerChar(c)) == LowerChar(c)
    ensures LowerChar(UpperChar(c)) == LowerChar(c)
  {
  }

  /** Classification ignores case: a requirement, its lower-cased and its
      upper-cased forms go to the same team. */
  lemma ClassifyIgnoresCase(requirement: string)
    ensures Classify(Lower(requirement)) == Classify(requirement)
    ensures Classify(Upper(requirement)) == Classify(requirement)
  {
    var r := requirement;
    forall i | 0 <= i < |r|
      ensures LowerChar(LowerChar(r[i])) == LowerChar(r[i])
      ensures LowerChar(UpperChar(r[i])) == LowerChar(r[i])
    {
      LowerCharIdempotent(r[i]);
    }
    assert Lower(Lower(r)) == Lower(r);
    assert Lower(Upper(r)) == Lower(r);
  }

  /** A requirement that mentions a devops keyword and no keyword of an
      earlier group goes to devops; one with no keyword at all to frontend. */
  lemma ClassifyOrder(requirement: string)
    ensures var r := Lower(requirement);
      && (AnyIn(r, FrontendKeywords) ==> Classify(requirement) == Frontend)
      && (!AnyIn(r, FrontendKeywords) && AnyIn(r, BackendKeywords) ==> Classify(requirement) == Backend)
      && (!AnyIn(r, FrontendKeywords) && !AnyIn(r, BackendKeywords) && AnyIn(r, TradingKeywords)
          ==> Classify(requirement) == TradingAnalytics)
      && ((!AnyIn(r, FrontendKeywords) && !AnyIn(r, BackendKeywords) && !AnyIn(r, TradingKeywords)
           && AnyIn(r, DevOpsKeywords)) ==> Classify(requirement) == DevOps)
      && ((!AnyIn(r, FrontendKeywords) && !AnyIn(r, BackendKeywords) && !AnyIn(r, TradingKeywords)
           && !AnyIn(r, DevOpsKeywords)) ==> Classify(requirement) == Frontend)
  {
  }

  /** "Build user authentication system" goes to frontend: "build" holds
      the keyword "ui". */
  lemma AuthenticationGoesToFrontend()
    ensures Classify("Build user authentication system") == Frontend
  {
    var req := "Build user authentication system";
    var r := Lower(req);
    assert r[1] == 'u' && r[2] == 'i';
    assert r[1..3] == "ui";
    assert OccursAt(r, FrontendKeywords[0], 1);
    ContainsIff(r, FrontendKeywords[0]);
  }

  /** The words of a text joined by single spaces. */
  function JoinWords(words: seq<string>): string
    requires words != []
  {
    if |words| == 1 then words[0] else words[0] + " " + JoinWords(words[1..])
  }

  /** A keyword without spaces occurs in joined words exactly when it occurs
      in one of the words. */
  lemma {:induction false} ContainsInWords(words: seq<string>, keyword: string)
    requires words != []
    requires forall j :: 0 <= j < |keyword| ==> keyword[j] != ' '
    ensures Contains(JoinWords(words), keyword)
            <==> exists w :: 0 <= w < |words| && Contains(words[w], keyword)
  {
    if |words| > 1 {
      ContainsInWords(words[1..], keyword);
      ContainsAcrossSpace(words[0], JoinWords(words[1..]), keyword);
      if exists w :: 0 <= w < |words| && Contains(words[w], keyword) {
        var w :| 0 <= w < |words| && Contains(words[w], keyword);
        if w > 0 {
          assert words[1..][w - 1] == words[w];
        }
      }
      if exists w :: 0 <= w < |words[1..]| && Contains(words[1..][w], keyword) {
        var w :| 0 <= w < |words[1..]| && Contains(words[1..][w], keyword);
        assert words[w + 1] == words[1..][w];
      }
    }
  }

  lemma {:induction false} LowerJoinWords(words: seq<string>)
    requires words != []
    ensures Lower(JoinWords(words)) == JoinWords(seq(|words|, i requires 0 <= i < |words| => Lower(words[i])))
  {
    var lowered := seq(|words|, i requires 0 <= i < |words| => Lower(words[i]));
    if |words| > 1 {
      LowerJoinWords(words[1..]);
      var rest := seq(|words[1..]|, i requires 0 <= i < |words[1..]| => Lower(words[1..][i]));
      assert rest == lowered[1..];
      LowerAppend(words[0], " ");
      LowerAppend(words[0] + " ", JoinWords(words[1..]));
      assert Lower(" ") == " ";
    }
  }

  /** The words of the requirement "Set up deployment pipeline for trading
      platform", which is their join by single spaces. */
  const PipelineRequirement: seq<string> := ["Set", "up", "deployment", "pipeline", "for", "trading", "platform"]

  /** The same words lower-cased. */
  const PipelineWords: seq<string> := ["set", "up", "deployment", "pipeline", "for", "trading", "platform"]

  lemma PipelineLowered()
    ensures Lower(JoinWords(PipelineRequirement)) == JoinWords(PipelineWords)
  {
    var w := PipelineRequirement;
    var l := seq(|w|, i requires 0 <= i < |w| => Lower(w[i]));
    assert l[0] == "set";
    assert l[1] == "up";
    assert l[2] == "deployment";
    assert l[3] == "pipeline";
    assert l[4] == "for";
    assert l[5] == "trading";
    assert l[6] == "platform";
    assert l == PipelineWords;
    LowerJoinWords(w);
  }

  /** A keyword in none of the lower-cased words is not in the lowered
      requirement. */
  lemma NotInPipeline(keyword: string)
    requires forall j :: 0 <= j < |keyword| ==> keyword[j] != ' '
    requires !Contains("set", keyword) && !Contains("up", keyword) && !Contains("deployment", keyword)
    requires !Contains("pipeline", keyword) && !Contains("for", keyword)
    requires !Contains("trading", keyword) && !Contains("platform", keyword)
    ensures !Contains(JoinWords(PipelineWords), keyword)
  {
    ContainsInWords(PipelineWords, keyword);
  }

  // One keyword per lemma: a proof that checks several keywords against the
  // seven words at once is beyond the solver's budget.
  lemma LacksUi() ensures !Contains(JoinWords(PipelineWords), "ui") { NotInPipeline("ui"); }
  lemma LacksFrontend() ensures !Contains(JoinWords(PipelineWords), "frontend") { NotInPipeline("frontend"); }
  lemma LacksInterface() ensures !Contains(JoinWords(PipelineWords), "interface") { NotInPipeline("interface"); }
  lemma LacksDashboard() ensures !Contains(JoinWords(PipelineWords), "dashboard") { NotInPipeline("dashboard"); }
  lemma LacksApi() ensures !Contains(JoinWords(PipelineWords), "api") { NotInPipeline("api"); }
  lemma LacksBackend() ensures !Contains(JoinWords(PipelineWords), "backend") { NotInPipeline("backend"); }
  lemma LacksDatabase() ensures !Contains(JoinWords(PipelineWords), "database") { NotInPipeline("database"); }
  lemma LacksServer() ensures !Contains(JoinWords(PipelineWords), "server") { NotInPipeline("server"); }

  lemma PipelineHasNoFrontendKeyword()
    ensures !AnyIn(JoinWords(PipelineWords), FrontendKeywords)
  {
    forall k | 0 <= k < |FrontendKeywords|
      ensures !Contains(JoinWords(PipelineWords), FrontendKeywords[k])
    {
      if k == 0 { LacksUi(); }
      else if k == 1 { LacksFrontend(); }
      else if k == 2 { LacksInterface(); }
      else { LacksDashboard(); }
    }
  }

  lemma PipelineHasNoBackendKeyword()
    ensures !AnyIn(JoinWords(PipelineWords), BackendKeywords)
  {
    forall k | 0 <= k < |BackendKeywords|
      ensures !Contains(JoinWords(PipelineWords), BackendKeywords[k])
    {
      if k == 0 { LacksApi(); }
      else if k == 1 { LacksBackend(); }
      else if k == 2 { LacksDatabase(); }
      else { LacksServer(); }
    }
  }

  /** "Set up deployment pipeline for trading platform" goes to trading
      analytics, not devops: "trading" is checked before "deploy". */
  lemma DeploymentPipelineGoesToTrading()
    ensures Classify(JoinWords(PipelineRequirement)) == TradingAnalytics
  {
    PipelineLowered();
    PipelineHasNoFrontendKeyword();
    PipelineHasNoBackendKeyword();
    var r := JoinWords(PipelineWords);
    ContainsInWords(PipelineWords, "trading");
    assert Contains(PipelineWords[5], "trading");
    assert Contains(r, TradingKeywords[2]);
  }

  // ---------------------------------------------------------------------
  // Team agents as values

  /** An agent's status and task list. */
  datatype AgentState = AgentState(status: string, tasks: seq<Value>)

  /** The status is "idle" exactly when no task is pending, and is
      otherwise "working". */
  predicate AgentInv(a: AgentState) {
    (a.status == "idle" <==> a.tasks == []) && (a.status == "idle" || a.status == "working")
  }

  const Idle: AgentState := AgentState("idle", [])

  /** The task an assignment names, "Unknown task" when it names none. */
  function TaskOf(m: Message): Value {
    Get(m.data, "task", Text("Unknown task"))
  }

  /** A task assignment appends the task and sets the agent working. */
  function AssignTask(a: AgentState, m: Message): AgentState {
    AgentState("working", a.tasks + [TaskOf(m)])
  }

  /** The first position of `x` in `xs`. */
  function FirstIndex(xs: seq<Value>, x: Value): (i: nat)
    requires x in xs
    ensures i < |xs| && xs[i] == x
    ensures forall j :: 0 <= j < i ==> xs[j] != x
  {
    if xs[0] == x then 0 else 1 + FirstIndex(xs[1..], x)
  }

  /** `list.remove(x)` guarded by `x in list`: drops the first occurrence. */
  function RemoveFirst(xs: seq<Value>, x: Value): (r: seq<Value>)
    ensures x !in xs ==> r == xs
    ensures x in xs ==> |r| == |xs| - 1
    ensures x in xs ==> multiset(r) == multiset(xs) - multiset{x}
    ensures x in xs ==> r == xs[..FirstIndex(xs, x)] + xs[FirstIndex(xs, x) + 1..]
  {
    if x in xs then
      var i := FirstIndex(xs, x);
      assert xs == xs[..i] + [xs[i]] + xs[i + 1..];
      xs[..i] + xs[i + 1..]
    else xs
  }

  /** Completing drops the task (if pending) and makes the agent idle only
      when nothing remains. */
  function CompleteTaskState(a: AgentState, task: Value): AgentState {
    var remaining := RemoveFirst(a.tasks, task);
    AgentState(if remaining == [] then "idle" else a.status, remaining)
  }

  function CompletionMessage(team: TeamType, task: Value, requester: TeamType): Message {
    Message(team, requester, CompletionReport, "Task '" + Show(task) + "' completed successfully",
            map["task" := task, "status" := Text("completed")])
  }

  function ResourceReply(team: TeamType, m: Message, available: bool): Message {
    var resource := Get(m.data, "resource", Text("Unknown resource"));
    Message(team, m.from, StatusUpdate,
            "Resource '" + Show(resource) + "' is " + (if available then "available" else "unavailable"),
            map["resource" := resource, "available" := Flag(available)])
  }

  function CoordinationReply(team: TeamType, a: AgentState, m: Message): Message {
    var action := Get(m.data, "action", Text("sync"));
    Message(team, m.from, StatusUpdate, "Coordination action '" + Show(action) + "' acknowledged",
            map["action" := action, "team_status" := Text(a.status)])
  }

  datatype Received = Received(agent: AgentState, reply: Option<Message>)

  /** What an agent does with a delivered message. */
  function Receive(team: TeamType, a: AgentState, m: Message, available: bool): Received {
    match m.kind
    case TaskAssignment => Received(AssignTask(a, m), None)
    case ResourceRequest => Received(a, Some(ResourceReply(team, m, available)))
    case Coordination => Received(a, Some(CoordinationReply(team, a, m)))
    case _ => Received(a, None)
  }

  /** Messages that make an agent act outrank the replies they cause. */
  function Rank(kind: MessageType): nat {
    if kind == TaskAssignment || kind == ResourceRequest || kind == Coordination then 1 else 0
  }

  /** Only task assignments, resource requests and coordination requests
      have an effect; a reply is a status update sent back to the sender,
      and only a task assignment changes the agent. */
  lemma ReceiveRule(team: TeamType, a: AgentState, m: Message, available: bool)
    ensures var r := Receive(team, a, m, available);
      && (Rank(m.kind) == 0 ==> r == Received(a, None))
      && (m.kind != TaskAssignment ==> r.agent == a)
      && (r.reply.Some? ==> r.reply.value.kind == StatusUpdate && r.reply.value.to == m.from
                            && r.reply.value.from == team && Rank(r.reply.value.kind) < Rank(m.kind))
      && (r.reply.Some? <==> m.kind == ResourceRequest || m.kind == Coordination)
  {
  }

  /** A coordination request is acknowledged with its action ("sync" when
      it names none) and the agent's status. */
  lemma CoordinationAcknowledged(team: TeamType, a: AgentState, m: Message, available: bool)
    requires m.kind == Coordination
    ensures var reply := Receive(team, a, m, available).reply;
      && reply.Some?
      && reply.value.data["action"] == (if "action" in m.data then m.data["action"] else Text("sync"))
      && reply.value.data["team_status"] == Text(a.status)
  {
  }

  /** A task assignment leaves the agent working on the named task, after
      those already pending. */
  lemma AssignmentAppends(a: AgentState, m: Message)
    ensures var b := AssignTask(a, m);
      && b.status == "working" && |b.tasks| == |a.tasks| + 1
      && b.tasks[..|a.tasks|] == a.tasks
      && b.tasks[|a.tasks|] == (if "task" in m.data then m.data["task"] else Text("Unknown task"))
      && AgentInv(b)
  {
  }

  /** Completing a task keeps "idle exactly when no task is pending", and
      removes the first occurrence of a pending task, keeping the others in
      order. */
  lemma CompletePreservesInv(a: AgentState, task: Value)
    requires AgentInv(a)
    ensures AgentInv(CompleteTaskState(a, task))
    ensures task in a.tasks ==>
              CompleteTaskState(a, task).tasks
                == a.tasks[..FirstIndex(a.tasks, task)] + a.tasks[FirstIndex(a.tasks, task) + 1..]
    ensures task in a.tasks ==> multiset(CompleteTaskState(a, task).tasks) == multiset(a.tasks) - multiset{task}
    ensures task !in a.tasks ==> CompleteTaskState(a, task) == a
  {
    if task !in a.tasks && a.tasks == [] {
      assert a.status == "idle";
    }
  }

  /** Receiving keeps the invariant. */
  lemma ReceivePreservesInv(team: TeamType, a: AgentState, m: Message, available: bool)
    requires AgentInv(a)
    ensures AgentInv(Receive(team, a, m, available).agent)
  {
  }

  // ---------------------------------------------------------------------
  // The router as a value

  datatype RouterState = RouterState(history: seq<Message>, projects: seq<string>,
                                     agents: map<TeamType, AgentState>)

  /** The four teams the router registers. */
  predicate Registered(agents: map<TeamType, AgentState>) {
    agents.Keys == {Frontend, Backend, TradingAnalytics, DevOps}
  }

  /** Records the message, then delivers it: to a registered team, whose
      reply is routed in turn, or to the coordinator, which only logs. */
  function Route(rs: RouterState, m: Message, available: bool): RouterState
    decreases Rank(m.kind)
  {
    var recorded := rs.(history := rs.history + [m]);
    if m.to in rs.agents then
      var r := Receive(m.to, rs.agents[m.to], m, available);
      var delivered := recorded.(agents := rs.agents[m.to := r.agent]);
      if r.reply.Some? && Rank(r.reply.value.kind) < Rank(m.kind) then
        Route(delivered, r.reply.value, available)
      else delivered
    else recorded
  }

  /** Routing appends the message to the history before anything its
      delivery adds, keeps the projects and the registered teams, and
      records at most one reply. */
  lemma {:induction false} RouteRecordsFirst(rs: RouterState, m: Message, available: bool)
    ensures var after := Route(rs, m, available);
      && |rs.history| + 1 <= |after.history| <= |rs.history| + 2
      && after.history[..|rs.history| + 1] == rs.history + [m]
      && after.projects == rs.projects
      && after.agents.Keys == rs.agents.Keys
    decreases Rank(m.kind)
  {
    var recorded := rs.(history := rs.history + [m]);
    if m.to in rs.agents {
      var r := Receive(m.to, rs.agents[m.to], m, available);
      var delivered := recorded.(agents := rs.agents[m.to := r.agent]);
      if r.reply.Some? && Rank(r.reply.value.kind) < Rank(m.kind) {
        RouteRecordsFirst(delivered, r.reply.value, available);
        var after := Route(delivered, r.reply.value, available);
        assert Rank(r.reply.value.kind) == 0;
        assert after == delivered.(history := delivered.history + [r.reply.value]);
        assert after.history[..|rs.history| + 1] == delivered.history;
      }
    }
  }

  /** Routing keeps every agent's invariant. */
  lemma {:induction false} RoutePreservesInv(rs: RouterState, m: Message, available: bool)
    requires forall t :: t in rs.agents ==> AgentInv(rs.agents[t])
    ensures var after := Route(rs, m, available);
      forall t :: t in after.agents ==> AgentInv(after.agents[t])
    decreases Rank(m.kind)
  {
    if m.to in rs.agents {
      var r := Receive(m.to, rs.agents[m.to], m, available);
      ReceivePreservesInv(m.to, rs.agents[m.to], m, available);
      var delivered := rs.(history := rs.history + [m], agents := rs.agents[m.to := r.agent]);
      if r.reply.Some? && Rank(r.reply.value.kind) < Rank(m.kind) {
        RoutePreservesInv(delivered, r.reply.value, available);
      }
    }
  }

  /** Every reply an agent gives has a lower rank, so the guard in `Route`
      never drops one. */
  lemma RepliesAlwaysRouted(team: TeamType, a: AgentState, m: Message, available: bool)
    ensures var r := Receive(team, a, m, available);
      r.reply.Some? ==> Rank(r.reply.value.kind) < Rank(m.kind)
  {
  }

  /** The assignment the coordinator sends for a requirement. */
  function Assignment(requirement: string, project: string): Message {
    Message(Coordinator, Classify(requirement), TaskAssignment,
            "New task for project '" + project + "': " + requirement,
            map["task" := Text(requirement), "project" := Text(project)])
  }

  /** An assignment is recorded and appends the requirement to its team's
      tasks; the resource availability plays no part. */
  lemma AssignmentRoute(rs: RouterState, requirement: string, project: string, available: bool)
    requires Registered(rs.agents)
    ensures var m := Assignment(requirement, project); var t := Classify(requirement);
      Route(rs, m, available)
        == rs.(history := rs.history + [m],
               agents := rs.agents[t := AgentState("working", rs.agents[t].tasks + [Text(requirement)])])
  {
  }

  /** The router after assigning the requirements in order. */
  function AssignAll(rs: RouterState, requirements: seq<string>, project: string): RouterState {
    if requirements == [] then rs
    else Route(AssignAll(rs, requirements[..|requirements| - 1], project),
               Assignment(requirements[|requirements| - 1], project), false)
  }

  /** `start_project`: the project is recorded, then its requirements are
      assigned in order. */
  function StartProjectState(rs: RouterState, project: string, requirements: seq<string>): RouterState {
    AssignAll(rs.(projects := rs.projects + [project]), requirements, project)
  }

  /** The assignments of the requirements, in order. */
  function Assignments(requirements: seq<string>, project: string): (ms: seq<Message>)
    ensures |ms| == |requirements|
    ensures forall i :: 0 <= i < |requirements| ==> ms[i] == Assignment(requirements[i], project)
  {
    seq(|requirements|, i requires 0 <= i < |requirements| => Assignment(requirements[i], project))
  }

  /** The requirements that go to team `t`, as task values, in order. */
  function TasksFor(t: TeamType, requirements: seq<string>): seq<Value> {
    if requirements == [] then []
    else TasksFor(t, requirements[..|requirements| - 1])
         + (if Classify(requirements[|requirements| - 1]) == t then [Text(requirements[|requirements| - 1])] else [])
  }

  /** Assigning records exactly one assignment per requirement, in order,
      and keeps the projects and the registered teams. */
  lemma {:induction false} AssignAllHistory(rs: RouterState, requirements: seq<string>, project: string)
    requires Registered(rs.agents)
    ensures var after := AssignAll(rs, requirements, project);
      && after.history == rs.history + Assignments(requirements, project)
      && after.projects == rs.projects
      && after.agents.Keys == rs.agents.Keys
  {
    if requirements != [] {
      var init := requirements[..|requirements| - 1];
      var last := requirements[|requirements| - 1];
      AssignAllHistory(rs, init, project);
      AssignAllStep(rs, requirements, project);
      assert Assignments(requirements, project) == Assignments(init, project) + [Assignment(last, project)];
    }
  }

  /** Assigning appends to each team the requirements classified to it; a
      team that received one is working, the others keep their status. */
  lemma {:induction false} AssignAllTasks(rs: RouterState, requirements: seq<string>, project: string, u: TeamType)
    requires Registered(rs.agents) && u in rs.agents
    ensures AssignAll(rs, requirements, project).agents.Keys == rs.agents.Keys
    ensures var a := AssignAll(rs, requirements, project).agents[u];
      && a.tasks == rs.agents[u].tasks + TasksFor(u, requirements)
      && a.status == (if TasksFor(u, requirements) == [] then rs.agents[u].status else "working")
  {
    AssignAllHistory(rs, requirements, project);
    if requirements != [] {
      var init := requirements[..|requirements| - 1];
      var last := requirements[|requirements| - 1];
      AssignAllTasks(rs, init, project, u);
      AssignAllHistory(rs, init, project);
      AssignAllStep(rs, requirements, project);
      assert TasksFor(u, requirements)
             == TasksFor(u, init) + (if Classify(last) == u then [Text(last)] else []);
    }
  }

  /** One more requirement: its assignment is recorded and its team gets
      the task. */
  lemma AssignAllStep(rs: RouterState, requirements: seq<string>, project: string)
    requires requirements != []
    requires Registered(AssignAll(rs, requirements[..|requirements| - 1], project).agents)
    ensures var mid := AssignAll(rs, requirements[..|requirements| - 1], project);
            var last := requirements[|requirements| - 1];
            var t := Classify(last);
      AssignAll(rs, requirements, project)
        == mid.(history := mid.history + [Assignment(last, project)],
                agents := mid.agents[t := AgentState("working", mid.agents[t].tasks + [Text(last)])])
  {
    var mid := AssignAll(rs, requirements[..|requirements| - 1], project);
    AssignmentRoute(mid, requirements[|requirements| - 1], project, false);
  }

  lemma StartProjectEffect(rs: RouterState, project: string, requirements: seq<string>)
    requires Registered(rs.agents)
    ensures var after := StartProjectState(rs, project, requirements);
      && after.projects == rs.projects + [project]
      && after.history == rs.history + Assignments(requirements, project)
      && |after.history| == |rs.history| + |requirements|
      && after.agents.Keys == rs.agents.Keys
      && forall t :: t in rs.agents ==>
           after.agents[t].tasks == rs.agents[t].tasks + TasksFor(t, requirements)
  {
    var start := rs.(projects := rs.projects + [project]);
    AssignAllHistory(start, requirements, project);
    forall t | t in rs.agents
      ensures StartProjectState(rs, project, requirements).agents[t].tasks
              == rs.agents[t].tasks + TasksFor(t, requirements)
    {
      AssignAllTasks(start, requirements, project, t);
    }
  }

  // ---------------------------------------------------------------------
  // The objects

  class TeamAgent {
    const team: TeamType
    var status: string
    var currentTasks: seq<Value>

    function State(): AgentState
      reads this
    {
      AgentState(status, currentTasks)
    }

    constructor (team: TeamType)
      ensures this.team == team && State() == Idle && AgentInv(State())
    {
      this.team := team;
      status := "idle";
      currentTasks := [];
    }

    method ProcessTaskAssignment(message: Message)
      modifies this
      ensures State() == AssignTask(old(State()), message)
    {
      var task := if "task" in message.data then message.data["task"] else Text("Unknown task");
      currentTasks := currentTasks + [task];
      status := "working";
    }

    /** Removes the first occurrence of the task, goes idle when nothing is
        left, and returns the completion report for the requester. */
    method CompleteTask(task: Value, requester: TeamType) returns (report: Message)
      modifies this
      ensures State() == CompleteTaskState(old(State()), task)
      ensures report == CompletionMessage(team, task, requester)
    {
      if task in currentTasks {
        var i := FirstIndex(currentTasks, task);
        currentTasks := currentTasks[..i] + currentTasks[i + 1..];
      }
      if currentTasks == [] {
        status := "idle";
      }
      report := CompletionMessage(team, task, requester);
    }

    method ProcessResourceRequest(message: Message, available: bool) returns (reply: Message)
      ensures reply == ResourceReply(team, message, available)
    {
      var resource := if "resource" in message.data then message.data["resource"] else Text("Unknown resource");
      var response := "Resource '" + Show(resource) + "' is " + (if available then "available" else "unavailable");
      reply := Message(team, message.from, StatusUpdate, response,
                       map["resource" := resource, "available" := Flag(available)]);
    }

    method ProcessCoordination(message: Message) returns (reply: Message)
      ensures reply == CoordinationReply(team, State(), message)
    {
      var action := if "action" in message.data then message.data["action"] else Text("sync");
      reply := Message(team, message.from, StatusUpdate,
                       "Coordination action '" + Show(action) + "' acknowledged",
                       map["action" := action, "team_status" := Text(status)]);
    }

    /** Dispatches on the message type; returns the reply to be routed. */
    method ReceiveMessage(message: Message, available: bool) returns (reply: Option<Message>)
      modifies this
      ensures Received(State(), reply) == Receive(team, old(State()), message, available)
    {
      reply := None;
      if message.kind == TaskAssignment {
        ProcessTaskAssignment(message);
      } else if message.kind == ResourceRequest {
        var r := ProcessResourceRequest(message, available);
        reply := Some(r);
      } else if message.kind == Coordination {
        var r := ProcessCoordination(message);
        reply := Some(r);
      }
    }
  }

  /** Two team tables that agree on each of the four teams are the same table. */
  lemma SameAgents(m: map<TeamType, AgentState>, n: map<TeamType, AgentState>)
    requires m.Keys == n.Keys == {Frontend, Backend, TradingAnalytics, DevOps}
    requires m[Frontend] == n[Frontend] && m[Backend] == n[Backend]
    requires m[TradingAnalytics] == n[TradingAnalytics] && m[DevOps] == n[DevOps]
    ensures m == n
  {
    forall t | t in m ensures m[t] == n[t] {
      match t
      case Frontend =>
      case Backend =>
      case TradingAnalytics =>
      case DevOps =>
      case Coordinator =>
    }
  }

  class MultiTeamRouter {
    const teams: map<TeamType, TeamAgent>
    var messageHistory: seq<Message>
    var activeProjects: seq<string>

    /** The four teams are registered under their own type, each with an
        agent of its own. */
    ghost predicate Valid() {
      && teams.Keys == {Frontend, Backend, TradingAnalytics, DevOps}
      && (forall t :: t in teams ==> teams[t].team == t)
      && (forall t, u :: t in teams && u in teams && t != u ==> teams[t] != teams[u])
    }

    function State(): RouterState
      requires Valid()
      reads this, teams.Values
    {
      RouterState(messageHistory, activeProjects,
                  map[Frontend := teams[Frontend].State(), Backend := teams[Backend].State(),
                      TradingAnalytics := teams[TradingAnalytics].State(),
                      DevOps := teams[DevOps].State()])
    }

    constructor ()
      ensures Valid() && fresh(teams.Values)
      ensures State() == RouterState([], [], map[Frontend := Idle, Backend := Idle,
                                                 TradingAnalytics := Idle, DevOps := Idle])
    {
      var frontend := new TeamAgent(Frontend);
      var backend := new TeamAgent(Backend);
      var trading := new TeamAgent(TradingAnalytics);
      var devops := new TeamAgent(DevOps);
      teams := map[Frontend := frontend, Backend := backend,
                   TradingAnalytics := trading, DevOps := devops];
      messageHistory := [];
      activeProjects := [];
    }

    /** Records the message, then delivers it, routing the reply. */
    method RouteMessage(message: Message, available: bool)
      requires Valid()
      modifies this, teams.Values
      ensures State() == Route(old(State()), message, available)
      decreases Rank(message.kind)
    {
      ghost var before := State();
      messageHistory := messageHistory + [message];
      if message.to in teams {
        var agent := teams[message.to];
        ghost var r := Receive(message.to, before.agents[message.to], message, available);
        var reply := agent.ReceiveMessage(message, available);
        assert agent.State() == r.agent && reply == r.reply;
        ghost var delivered := before.(history := before.history + [message],
                                       agents := before.agents[message.to := r.agent]);
        assert forall t :: t in teams && t != message.to ==> teams[t] != agent;
        assert teams[Frontend].State() == delivered.agents[Frontend];
        assert teams[Backend].State() == delivered.agents[Backend];
        assert teams[TradingAnalytics].State() == delivered.agents[TradingAnalytics];
        assert teams[DevOps].State() == delivered.agents[DevOps];
        assert State().agents == delivered.agents;
        assert State() == delivered;
        RepliesAlwaysRouted(message.to, before.agents[message.to], message, available);
        if reply.Some? {
          RouteMessage(reply.value, available);
        }
      }
    }

    /** Sends the requirement's assignment to the team its keywords pick. */
    method AnalyzeAndAssignTask(requirement: string, project: string)
      requires Valid()
      modifies this, teams.Values
      ensures State() == Route(old(State()), Assignment(requirement, project), false)
    {
      var lowered := Lower(requirement);
      var target: TeamType;
      if AnyIn(lowered, FrontendKeywords) {
        target := Frontend;
      } else if AnyIn(lowered, BackendKeywords) {
        target := Backend;
      } else if AnyIn(lowered, TradingKeywords) {
        target := TradingAnalytics;
      } else if AnyIn(lowered, DevOpsKeywords) {
        target := DevOps;
      } else {
        target := Frontend;
      }
      var message := Message(Coordinator, target, TaskAssignment,
                             "New task for project '" + project + "': " + requirement,
                             map["task" := Text(requirement), "project" := Text(project)]);
      // An assignment draws no resource availability; see AssignmentRoute.
      RouteMessage(message, false);
    }

    method StartProject(projectName: string, requirements: seq<string>)
      requires Valid()
      modifies this, teams.Values
      ensures State() == StartProjectState(old(State()), projectName, requirements)
    {
      activeProjects := activeProjects + [projectName];
      ghost var start := State();
      assert start == old(State()).(projects := old(State()).projects + [projectName]);
      var i := 0;
      while i < |requirements|
        invariant 0 <= i <= |requirements|
        invariant State() == AssignAll(start, requirements[..i], projectName)
      {
        assert requirements[..i + 1][..i] == requirements[..i];
        AnalyzeAndAssignTask(requirements[i], projectName);
        i := i + 1;
      }
      assert requirements[..i] == requirements;
    }

    /** The agent's completion of a task, with its report routed. */
    method CompleteTask(team: TeamType, task: Value, requester: TeamType)
      requires Valid() && team in teams
      modifies this, teams.Values
      ensures var s := old(State());
        State() == Route(s.(agents := s.agents[team := CompleteTaskState(s.agents[team], task)]),
                         CompletionMessage(team, task, requester), false)
    {
      var report := CompleteAt(team, task, requester);
      // A completion report draws no resource availability.
      RouteMessage(report, false);
    }

    /** The agent's own part of completing a task: only that agent changes. */
    method CompleteAt(team: TeamType, task: Value, requester: TeamType) returns (report: Message)
      requires Valid() && team in teams
      modifies teams.Values
      ensures Valid()
      ensures var s := old(State());
        State() == s.(agents := s.agents[team := CompleteTaskState(s.agents[team], task)])
      ensures report == CompletionMessage(team, task, requester)
    {
      ghost var before := State();
      var agent := teams[team];
      ghost var done := CompleteTaskState(before.agents[team], task);
      report := agent.CompleteTask(task, requester);
      assert agent.State() == done;
      ghost var completed := before.(agents := before.agents[team := done]);
      assert forall t :: t in teams && t != team ==> teams[t] != agent;
      assert teams[Frontend].State() == completed.agents[Frontend];
      assert teams[Backend].State() == completed.agents[Backend];
      assert teams[TradingAnalytics].State() == completed.agents[TradingAnalytics];
      assert teams[DevOps].State() == completed.agents[DevOps];
      assert team in before.agents.Keys;
      assert completed.agents.Keys == before.agents.Keys;
      SameAgents(State().agents, completed.agents);
    }
  }
}
