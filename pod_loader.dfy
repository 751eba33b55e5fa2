/** Assembling a pod from its configuration: the task list built from the
    workflow order, and the summary record shown for a pod. */
module PodLoader {
  import opened Wrappers

  /** An agent object created for the pod (opaque). */
  datatype Agent = Agent(id: nat)

  /** A YAML mapping: its keys in file order and its entries. */
  datatype Dict<V> = Dict(keys: seq<string>, entries: map<string, V>)

  /** One entry of a pod's `tasks` mapping; a field is `None` when its key is missing. */
  datatype TaskConfig = TaskConfig(agent: Option<string>, description: Option<string>, expectedOutput: Option<string>)

  /** One entry of `inputs.required` or `inputs.optional`. */
  datatype InputSpec = InputSpec(name: Option<string>)

  /** The parts of a pod file that assembly reads. A list that is absent from
      the file is empty here; `workflowTasks` is `None` when `workflow.tasks` is absent. */
  datatype PodConfig = PodConfig(
    name: Option<string>,
    description: Option<string>,
    agents: seq<string>,
    tasks: Dict<TaskConfig>,
    workflowTasks: Option<seq<string>>,
    enabledTools: seq<string>,
    disabledTools: seq<string>,
    requiredInputs: seq<InputSpec>,
    optionalInputs: seq<InputSpec>)

  /** A task object handed to the crew. */
  datatype Task = Task(description: string, expectedOutput: string, agent: Agent)

  /** The `KeyError`s that escape assembly. */
  datatype PodError = MissingTaskKey(task: string, key: string) | MissingInputName

  // ---------------------------------------------------------------------------
  // create_tasks

  /** `workflow.tasks`, defaulting to the keys of `tasks` in file order. */
  function TaskOrder(pod: PodConfig): (order: seq<string>)
    ensures pod.workflowTasks.Some? ==> order == pod.workflowTasks.value
    ensures pod.workflowTasks.None? ==> order == pod.tasks.keys
  {
    pod.workflowTasks.GetOr(pod.tasks.keys)
  }

  /** What one name of the order contributes. */
  datatype Step = Skip | Fail(error: PodError) | Emit(task: Task)

  /** An unknown task and a task whose agent was not created are skipped; a
      missing `agent`, `description` or `expected_output` key raises. */
  function TaskStep(name: string, tasks: map<string, TaskConfig>, agents: map<string, Agent>): (st: Step)
    ensures st.Skip? <==> name !in tasks || (tasks[name].agent.Some? && tasks[name].agent.value !in agents)
    ensures st.Emit? <==> name in tasks && tasks[name].agent.Some? && tasks[name].agent.value in agents
                          && tasks[name].description.Some? && tasks[name].expectedOutput.Some?
    ensures st.Emit? ==> st.task == Task(tasks[name].description.value, tasks[name].expectedOutput.value,
                                         agents[tasks[name].agent.value])
    ensures st.Fail? ==> st.error.MissingTaskKey? && st.error.task == name
  {
    if name !in tasks then Skip
    else
      var c := tasks[name];
      if c.agent.None? then Fail(MissingTaskKey(name, "agent"))
      else if c.agent.value !in agents then Skip
      else if c.description.None? then Fail(MissingTaskKey(name, "description"))
      else if c.expectedOutput.None? then Fail(MissingTaskKey(name, "expected_output"))
      else Emit(Task(c.description.value, c.expectedOutput.value, agents[c.agent.value]))
  }

  /** The tasks built by walking `order`, or the first error raised. */
  function BuildTasks(order: seq<string>, tasks: map<string, TaskConfig>, agents: map<string, Agent>): (r: Result<seq<Task>, PodError>)
    ensures r.Ok? ==> |r.value| <= |order|
    ensures r.Err? ==> r.error.MissingTaskKey?
    decreases |order|
  {
    if order == [] then Ok([])
    else
      match BuildTasks(order[..|order| - 1], tasks, agents)
      case Err(e) => Err(e)
      case Ok(ts) =>
        match TaskStep(order[|order| - 1], tasks, agents)
        case Skip => Ok(ts)
        case Fail(e) => Err(e)
        case Emit(t) => Ok(ts + [t])
  }

  /** The positions of `order` that become tasks, ascending: an order-preserving
      selection that takes every usable name and nothing else. */
  function KeptAt(order: seq<string>, tasks: map<string, TaskConfig>, agents: map<string, Agent>): (idx: seq<nat>)
    ensures forall j :: 0 <= j < |idx| ==> idx[j] < |order| && TaskStep(order[idx[j]], tasks, agents).Emit?
    ensures forall j, k :: 0 <= j < k < |idx| ==> idx[j] < idx[k]
    ensures forall i :: 0 <= i < |order| && TaskStep(order[i], tasks, agents).Emit? ==> i in idx
    decreases |order|
  {
    if order == [] then []
    else
      var front := order[..|order| - 1];
      var last := |order| - 1;
      assert forall i :: 0 <= i < |front| ==> front[i] == order[i];
      KeptAt(front, tasks, agents) + (if TaskStep(order[last], tasks, agents).Emit? then [last] else [])
  }

  /** Building succeeds exactly when no name of the order raises. */
  lemma {:induction false} BuildTasksSucceeds(order: seq<string>, tasks: map<string, TaskConfig>, agents: map<string, Agent>)
    ensures BuildTasks(order, tasks, agents).Ok? <==>
              forall i :: 0 <= i < |order| ==> !TaskStep(order[i], tasks, agents).Fail?
    decreases |order|
  {
    if order != [] {
      var front := order[..|order| - 1];
      BuildTasksSucceeds(front, tasks, agents);
      assert forall i :: 0 <= i < |front| ==> front[i] == order[i];
    }
  }

  /** On success, the i-th task is the one built for the i-th kept name. */
  lemma {:induction false} BuildTasksContents(order: seq<string>, tasks: map<string, TaskConfig>, agents: map<string, Agent>)
    ensures BuildTasks(order, tasks, agents).Ok? ==>
      var ts := BuildTasks(order, tasks, agents).value;
      var idx := KeptAt(order, tasks, agents);
      |ts| == |idx| && |ts| <= |order| &&
      forall j :: 0 <= j < |ts| ==> TaskStep(order[idx[j]], tasks, agents) == Emit(ts[j])
    decreases |order|
  {
    if order != [] && BuildTasks(order, tasks, agents).Ok? {
      var front := order[..|order| - 1];
      BuildTasksContents(front, tasks, agents);
      assert forall i :: 0 <= i < |front| ==> front[i] == order[i];
    }
  }

  /** On failure, the error is the one raised by the first failing name. */
  lemma {:induction false} BuildTasksFirstError(order: seq<string>, tasks: map<string, TaskConfig>, agents: map<string, Agent>)
    ensures BuildTasks(order, tasks, agents).Err? ==>
      exists i :: 0 <= i < |order| && TaskStep(order[i], tasks, agents) == Fail(BuildTasks(order, tasks, agents).error)
        && forall j :: 0 <= j < i ==> !TaskStep(order[j], tasks, agents).Fail?
    decreases |order|
  {
    if order != [] && BuildTasks(order, tasks, agents).Err? {
      var front := order[..|order| - 1];
      var last := |order| - 1;
      BuildTasksFirstError(front, tasks, agents);
      assert forall i :: 0 <= i < |front| ==> front[i] == order[i];
      if BuildTasks(front, tasks, agents).Ok? {
        BuildTasksSucceeds(front, tasks, agents);
        assert TaskStep(order[last], tasks, agents) == Fail(BuildTasks(order, tasks, agents).error);
      } else {
        var i :| 0 <= i < |front| && TaskStep(front[i], tasks, agents) == Fail(BuildTasks(front, tasks, agents).error)
          && forall j :: 0 <= j < i ==> !TaskStep(front[j], tasks, agents).Fail?;
        assert TaskStep(order[i], tasks, agents) == Fail(BuildTasks(order, tasks, agents).error);
      }
    }
  }

  /** `create_tasks`: walk the task order, skipping what cannot be built. */
  method CreateTasks(pod: PodConfig, agents: map<string, Agent>) returns (r: Result<seq<Task>, PodError>)
    ensures r == BuildTasks(TaskOrder(pod), pod.tasks.entries, agents)
  {
    var taskConfigs := pod.tasks.entries;
    var order := if pod.workflowTasks.Some? then pod.workflowTasks.value else pod.tasks.keys;
    var built: seq<Task> := [];
    var i := 0;
    while i < |order|
      invariant 0 <= i <= |order|
      invariant BuildTasks(order[..i], taskConfigs, agents) == Ok(built)
    {
      assert order[..i + 1][..i] == order[..i];
      var taskName := order[i];
      if taskName !in taskConfigs {
        i := i + 1;
        continue;
      }
      var taskConfig := taskConfigs[taskName];
      if taskConfig.agent.None? {
        assert TaskStep(order[i], taskConfigs, agents) == Fail(MissingTaskKey(taskName, "agent"));
        assert BuildTasks(order[..i + 1], taskConfigs, agents) == Err(MissingTaskKey(taskName, "agent"));
        BuildTasksPrefixError(order, taskConfigs, agents, i + 1);
        return Err(MissingTaskKey(taskName, "agent"));
      }
      var agentName := taskConfig.agent.value;
      if agentName !in agents {
        i := i + 1;
        continue;
      }
      if taskConfig.description.None? {
        assert TaskStep(order[i], taskConfigs, agents) == Fail(MissingTaskKey(taskName, "description"));
        assert BuildTasks(order[..i + 1], taskConfigs, agents) == Err(MissingTaskKey(taskName, "description"));
        BuildTasksPrefixError(order, taskConfigs, agents, i + 1);
        return Err(MissingTaskKey(taskName, "description"));
      }
      if taskConfig.expectedOutput.None? {
        assert TaskStep(order[i], taskConfigs, agents) == Fail(MissingTaskKey(taskName, "expected_output"));
        assert BuildTasks(order[..i + 1], taskConfigs, agents) == Err(MissingTaskKey(taskName, "expected_output"));
        BuildTasksPrefixError(order, taskConfigs, agents, i + 1);
        return Err(MissingTaskKey(taskName, "expected_output"));
      }
      var task := Task(taskConfig.description.value, taskConfig.expectedOutput.value, agents[agentName]);
      built := built + [task];
      i := i + 1;
    }
    assert order[..i] == order;
    r := Ok(built);
  }

  /** An error raised within a prefix is the result of the whole walk. */
  lemma {:induction false} BuildTasksPrefixError(order: seq<string>, tasks: map<string, TaskConfig>, agents: map<string, Agent>, n: nat)
    requires n <= |order| && BuildTasks(order[..n], tasks, agents).Err?
    ensures BuildTasks(order, tasks, agents) == BuildTasks(order[..n], tasks, agents)
    decreases |order| - n
  {
    if n < |order| {
      var m := |order[..n + 1]| - 1;
      assert order[..n + 1][..m] == order[..n];
      BuildTasksPrefixError(order, tasks, agents, n + 1);
    } else {
      assert order[..n] == order;
    }
  }

  // ---------------------------------------------------------------------------
  // get_pod_info

  /** The summary of one pod. */
  datatype PodInfo = PodInfo(
    name: string,
    description: string,
    agents: seq<string>,
    tasks: seq<string>,
    enabledTools: seq<string>,
    disabledTools: seq<string>,
    requiredInputs: seq<string>,
    optionalInputs: seq<string>)

  /** `[inp['name'] for inp in inputs]`: the names in order, or `None` when an
      entry has no `name`. */
  function InputNames(inputs: seq<InputSpec>): (r: Option<seq<string>>)
    ensures r.Some? <==> forall i :: 0 <= i < |inputs| ==> inputs[i].name.Some?
    ensures r.Some? ==> |r.value| == |inputs| && forall i :: 0 <= i < |inputs| ==> Some(r.value[i]) == inputs[i].name
    decreases |inputs|
  {
    if inputs == [] then Some([])
    else
      match InputNames(inputs[1..])
      case None => None
      case Some(rest) => if inputs[0].name.None? then None else Some([inputs[0].name.value] + rest)
  }

  /** `get_pod_info`: `None` for an unknown pod; otherwise the name (defaulting
      to the pod's key), the description (defaulting to "No description"), the
      agent and task keys in file order, the tool lists and the input names in order. */
  function GetPodInfo(pods: map<string, PodConfig>, podName: string): (r: Result<Option<PodInfo>, PodError>)
    ensures podName !in pods ==> r == Ok(None)
    ensures podName in pods ==> r != Ok(None)
    ensures podName in pods ==>
      (r.Ok? <==> InputNames(pods[podName].requiredInputs).Some? && InputNames(pods[podName].optionalInputs).Some?)
    ensures r.Ok? && r.value.Some? ==>
      var pod, info := pods[podName], r.value.value;
      && info.name == pod.name.GetOr(podName)
      && info.description == pod.description.GetOr("No description")
      && info.agents == pod.agents
      && info.tasks == pod.tasks.keys
      && info.enabledTools == pod.enabledTools
      && info.disabledTools == pod.disabledTools
      && |info.requiredInputs| == |pod.requiredInputs|
      && (forall i :: 0 <= i < |pod.requiredInputs| ==> Some(info.requiredInputs[i]) == pod.requiredInputs[i].name)
      && |info.optionalInputs| == |pod.optionalInputs|
      && (forall i :: 0 <= i < |pod.optionalInputs| ==> Some(info.optionalInputs[i]) == pod.optionalInputs[i].name)
  {
    if podName !in pods then Ok(None)
    else
      var pod := pods[podName];
      match InputNames(pod.requiredInputs)
      case None => Err(MissingInputName)
      case Some(required) =>
        match InputNames(pod.optionalInputs)
        case None => Err(MissingInputName)
        case Some(optional) =>
          Ok(Some(PodInfo(
            pod.name.GetOr(podName),
            pod.description.GetOr("No description"),
            pod.agents,
            pod.tasks.keys,
            pod.enabledTools,
            pod.disabledTools,
            required,
            optional)))
  }
}
