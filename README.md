# OrcasAI pod runner and custom tools, modelled in Dafny

OrcasAI assembles "orca pods", which are CrewAI crews described in YAML. A
tool registry builds every tool named in `tools.yaml`, and a pod loader turns
a pod's tasks and inputs into task objects and a summary record. The pods use
a handful of custom tools:

- a web search with a per-instance quota;
- a code analyser that counts lines and keywords;
- a data-analysis adviser;
- a chart recommender.

This project models that core and proves what it promises.

- `wrappers.dfy`: `Option`, `Result`.
- `text.dfy` (`Text`): the Python string operations the code relies on, on
  `seq<char>`. These are `lower`/`upper`, `in`, `startswith`, `strip`,
  `split('\n')`, `'\n'.join`, `replace('_env', '')`, `s[:n]` and `str(int)`.
  Each has its properties, such as split-then-join giving the text back.
- `registry.dfy` (`Registry`): `ToolRegistry` as a class with a `tools` map.
  - `RegisterTool` resolves "…_env" configuration values through the
    environment before it constructs a tool.
  - Any failure records `None` for that name only.
  - `GetTool` and `GetTools` look tools up.
- `pod_loader.dfy` (`PodLoader`): `create_tasks` as a loop following the
  workflow order, and `get_pod_info` as a function.
- `limited_search.dfy` (`LimitedSearch`): `LimitedSearchTool` as a class.
  It has a counter and a lazily built search client.
- `code_analysis.dfy` (`CodeAnalysis`): the dispatch of `CodeAnalysisTool._run`
  and the statistics of `_analyze_generic_code`.
- `data_analysis.dfy` (`DataAnalysis`): the report of `DataAnalysisTool._run`.
- `chart_advice.dfy` (`ChartAdvice`): `_get_chart_recommendations`.

The model abstracts the outside world as follows.

- **Environment.** The environment is a `map<string, string>`. A variable is
  "set" when it is present with a non-empty value, which is Python's
  truthiness of `os.getenv`.
- **Dynamic import.** `importlib` and `getattr` are a `Loader`: the attribute
  names of each importable module, plus a total constructor function. That
  function returns `None` when the constructor raises.
- **Search service.** The Serper client and its search are two function
  parameters that return a `Result`.
- **Python analyser.** The AST-based analyser is a function parameter.

## Model

| member | source | states |
|---|---|---|
| Text.StripEnvTokens | orca_pod_runner.py:48 | `replace('_env', '')` never lengthens the value |
| Text.StripEnvTokensAbsent | orca_pod_runner.py:48 | a value in which "_env" does not occur is left as it is |
| Text.StripEnvTokensAround | orca_pod_runner.py:48 | a "_env" between two texts is removed on its own, and each side is stripped as if alone; every occurrence goes, not only a trailing one |
| Text.StripEnvTokensOfSuffix | orca_pod_runner.py:45-48 | the trailing "_env" that marks a reference is dropped, and the text before it is stripped as if alone |
| Text.LowerIsCasing | custom_tools.py:97 | for a lower-case word `w`, `s.lower() == w` exactly when `s` is `w` with some of its letters capitalised (ASCII casing) |
| Text.PyPrefix | custom_tools.py:65 | `s[:n]` is a prefix of `s`, of length `min(n, len(s))` for `n >= 0`, and drops `-n` characters from the end for negative `n` |
| Text.SplitLines | custom_tools.py:162 | `split('\n')` gives one piece more than there are line feeds |
| Text.SplitLinesLineFree | custom_tools.py:162 | no piece of `split('\n')` holds a line feed |
| Text.JoinSplitLines | custom_tools.py:162 | joining the pieces of `split('\n')` with line feeds gives the text back |
| Text.NatToStringRoundTrip | custom_tools.py:166 | the decimal digits printed for a count (`str` in an f-string) read back as that count |
| Registry.EnvVarNameOfSuffix | orca_pod_runner.py:45-48 | a value `stem + "_env"` whose stem holds no "_env" names the variable `stem.upper()` |
| Registry.EnvVarName | orca_pod_runner.py:48 | the variable name is never longer than the value, and a value holding no "_env" is just upper-cased |
| Registry.InnerTokenDropped | orca_pod_runner.py:48 | every "_env" is removed, including one inside a word: "db_environment_env" names DBIRONMENT |
| Registry.ResolveValue | orca_pod_runner.py:45-58 | a value fails to resolve exactly when it is an "…_env" string whose variable is unset or empty; a resolved reference becomes the variable's non-empty value, and any other value is passed through |
| Registry.ResolveKwargs | orca_pod_runner.py:43-58 | the arguments built item by item, `None` at an unresolved value; what they are is stated by `ResolveKwargsDefined`, `ResolveKwargsKeys` and `ResolveKwargsValues` |
| Registry.ResolveKwargsDefined | orca_pod_runner.py:44-56 | resolving the config succeeds exactly when every "…_env" value names a set variable |
| Registry.ResolveKwargsKeys | orca_pod_runner.py:43-58 | the resolved kwargs have exactly the config's keys |
| Registry.ResolveKwargsValues | orca_pod_runner.py:44-58 | each key gets its last value from the config, with an "…_env" string replaced by the variable's value and every other value passed through unchanged |
| Registry.ResolveConfig | orca_pod_runner.py:43-58 | the loop that builds `init_kwargs` stops with no result at the first unset variable, and otherwise returns the resolved kwargs |
| Registry.Locate | orca_pod_runner.py:32-38 | a class is found exactly when the `module` and `class` keys are present, the module is importable and it has that attribute; it is the one they name |
| Registry.Plan | orca_pod_runner.py:31-61 | a constructor call is attempted exactly when the `module` and `class` keys, the module and the attribute all exist and every reference resolves; its kwargs have the config's keys and resolved values, and an empty config gives no arguments |
| Registry.Outcome | orca_pod_runner.py:29-68 | no instance when no call is attempted; when a call is attempted, exactly what the constructor gives for that class and those arguments, `None` when it raises |
| Registry.UnsetVariableMakesUnavailable | orca_pod_runner.py:49-56 | one unset or empty variable means no constructor call and a `None` entry |
| Registry.RegisterAll | orca_pod_runner.py:101-104 | the table after registering the entries in order; no name already present is lost (what each entry holds is stated by the next rows) |
| Registry.RegisterAllDomain | orca_pod_runner.py:101-103 | registering a list of tools adds exactly their names, and an entry not named in the list keeps its old value |
| Registry.RegisterAllIsolation | orca_pod_runner.py:101-103 | after the list, each name holds the outcome of its last configuration |
| Registry.SameEntryForName | orca_pod_runner.py:29-68 | a name's final entry depends only on the configurations given under that name |
| Registry.ChangingOneEntryKeepsOthers | orca_pod_runner.py:29-68 | changing the configuration of one tool leaves every other tool's entry as it was |
| Registry.LookupSpec | orca_pod_runner.py:70-72 | `tools.get(name)` gives an instance exactly when the name is registered with one, and then that one |
| Registry.Available | orca_pod_runner.py:74-81 | `get_tools` returns no more tools than names asked for |
| Registry.AvailableAppend | orca_pod_runner.py:74-81 | the tools for a concatenation of name lists are the tools of each list, concatenated |
| Registry.AvailableAt | orca_pod_runner.py:74-81 | the result is the instances at an increasing sequence of positions of `names`, which covers every position whose tool exists; order and duplicates are kept |
| Registry.SkipsFailedTool | orca_pod_runner.py:74-81 | for [a, b, c] where b failed, the result is [a's tool, c's tool] |
| Registry.ToolRegistry.constructor | orca_pod_runner.py:26-27 | the registry starts empty |
| Registry.ToolRegistry.RegisterTool | orca_pod_runner.py:29-68 | only the entry for `name` changes, to the outcome; the constructor-call log grows by the call attempted, if any |
| Registry.ToolRegistry.RegisterTools | orca_pod_runner.py:101-103 | the loop in `load_tools` leaves the registry as `RegisterAll` describes |
| Registry.ToolRegistry.GetTool | orca_pod_runner.py:70-72 | `None` exactly for an unknown name or one registered as failed; otherwise the stored instance |
| Registry.ToolRegistry.GetTools | orca_pod_runner.py:74-81 | the loop returns `Available(tools, names)`, the non-`None` tools in input order |
| PodLoader.KeptAt | orca_pod_runner.py:226-254 | the positions of the order that yield a task are increasing, and they include every position that yields one |
| PodLoader.TaskOrder | orca_pod_runner.py:229-231 | the order is `workflow.tasks` when given, and otherwise the keys of `tasks` in file order |
| PodLoader.TaskStep | orca_pod_runner.py:234-249 | a name is skipped exactly when it is not a task or its agent was not created; it yields a task exactly when the entry has an agent that exists, a description and an expected output, and the task carries those three; otherwise it raises a `KeyError` for that task |
| PodLoader.BuildTasks | orca_pod_runner.py:233-254 | walking the order gives no more tasks than names, and the only error it can raise is a missing task key |
| PodLoader.BuildTasksSucceeds | orca_pod_runner.py:232-249 | task creation raises no `KeyError` exactly when no task in the order lacks a required key |
| PodLoader.BuildTasksContents | orca_pod_runner.py:226-254 | on success there are no more tasks than names in the order; the j-th task is the one built from the j-th kept name, so the output is a subsequence of the order |
| PodLoader.BuildTasksFirstError | orca_pod_runner.py:237-249 | a failure reports the first name in the order whose entry lacks a key |
| PodLoader.BuildTasksPrefixError | orca_pod_runner.py:232-254 | once a prefix of the order fails, the whole run fails with that error |
| PodLoader.CreateTasks | orca_pod_runner.py:226-254 | the loop, with its two `continue`s, returns exactly `BuildTasks` over the workflow order, which defaults to the task keys |
| PodLoader.InputNames | orca_pod_runner.py:186-187 | the input names are those of the entries, in order, and exist exactly when every entry has a `name` |
| PodLoader.GetPodInfo | orca_pod_runner.py:173-188 | `None` exactly for an unknown pod; otherwise name and description with their defaults, agent and task keys, tool lists and input names |
| LimitedSearch.StepSpec | custom_tools.py:34-85 | at the quota nothing changes and no search runs; below it the counter goes up by one; the client is built once and kept; an initialisation failure leaves it missing; the service is called exactly when below the quota with a client; the warning is appended exactly on the last allowed search |
| LimitedSearch.Step | custom_tools.py:34-85 | one call as a value: the counter stays at the quota or goes up by one, and a search is only made with a client |
| LimitedSearch.StepConnectFails | custom_tools.py:42-52 | below the quota with no client, a failure to build one counts the call, leaves the client missing, searches nothing and returns the initialisation failure text |
| LimitedSearch.StepSearchFails | custom_tools.py:42-85 | with a client (kept or just built), a failing search counts the call, keeps the client and returns the search failure text |
| LimitedSearch.StepSearchSucceeds | custom_tools.py:42-81 | with a client (kept or just built), a successful search counts the call, keeps the client and returns the results header with the truncated text and, at the quota, the warning |
| LimitedSearch.RunAllCounts | custom_tools.py:30-43 | over any run the counter ends at `min(start + calls, max(max_searches, 0))`, and every call from the quota on returns the limit message |
| LimitedSearch.RunAll | custom_tools.py:34-85 | successive calls on one instance give one output per query |
| LimitedSearch.ThirdCallRefused | custom_tools.py:25-43 | with the defaults, the third call returns "Search limit reached. Used 2/2 …" |
| LimitedSearch.LimitedSearchTool.constructor | custom_tools.py:25-32 | the settings as given, a zero counter and no client |
| LimitedSearch.LimitedSearchTool.Run | custom_tools.py:34-85 | one call has the effect and output `Step` gives; the counter stays within the quota; at most one client is built; the query reaches the service exactly when `Step` searches |
| CodeAnalysis.CommentsWithinNonEmpty | custom_tools.py:166-168 | there are no more comment lines than non-empty lines, and no more non-empty lines than lines |
| CodeAnalysis.NonEmptyIffNotBlank | custom_tools.py:167 | `line.strip()` is truthy exactly when the line holds a character that is not white space |
| CodeAnalysis.KeywordsIn | custom_tools.py:178-179 | a line counts at most once per keyword |
| CodeAnalysis.KeywordHitsBound | custom_tools.py:178-179 | a keyword count is at most the number of lines times the number of keywords |
| CodeAnalysis.KeywordHitsAppend | custom_tools.py:178-179 | keyword counting is additive over the lines |
| CodeAnalysis.FunctionCountsTwice | custom_tools.py:171-179 | a line holding "function" also holds "func", so it counts at least twice as a function keyword |
| CodeAnalysis.GenericStats | custom_tools.py:160-181 | total lines is the number of line feeds plus one; the non-empty and comment figures are the counts over the split lines; each of the three keyword figures is the number of (line, keyword) pairs with the keyword in the lower-cased line; comment lines ≤ non-empty lines ≤ total lines; each keyword figure is at most lines times keywords |
| CodeAnalysis.GenericReport | custom_tools.py:160-182 | the generic report opens with the header line naming the language |
| CodeAnalysis.AnalyzeCode | custom_tools.py:94-102 | the Python analyser is used exactly when `language.lower() == "python"`; otherwise the generic report |
| CodeAnalysis.PythonInAnyCase | custom_tools.py:94-100 | the default language and every ASCII capitalisation of "python" select the Python analyser, and every other language the generic report |
| DataAnalysis.Classify | custom_tools.py:201-209 | each of the three known kinds is chosen exactly when the lower-cased type equals its name |
| DataAnalysis.ReportLines | custom_tools.py:191-211 | the report is the four header lines, echoing the arguments, followed by the body for the classified type |
| DataAnalysis.AnalyzeData | custom_tools.py:191-211 | the returned text is the joined header, a line feed, and the joined advice for the classified type |
| DataAnalysis.WarningIffUnknown | custom_tools.py:201-209 | the warning line is in the report exactly when the type is unknown, and is then followed by the basic list |
| DataAnalysis.TypeInAnyCase | custom_tools.py:191-206 | every ASCII capitalisation of "trend", "statistical" or "descriptive" selects that list, and the default type selects the descriptive list |
| ChartAdvice.MentionsAnyIff | custom_tools.py:325-360 | a group matches exactly when one of its keywords is a substring of the text it reads |
| ChartAdvice.DataTypeSteps | custom_tools.py:325-344 | the uncut list grows by the time, categorical and numerical charts, in that order, each exactly when one of its data-type keywords occurs |
| ChartAdvice.GoalSteps | custom_tools.py:346-365 | then by the comparison, correlation and distribution charts, each exactly when one of its goal keywords occurs |
| ChartAdvice.Recommended | custom_tools.py:318-367 | the result is the first `min(n, 6)` entries of the uncut list of matching groups' charts, where n is its length |
| ChartAdvice.ChartRecommendations | custom_tools.py:318-367 | the method extends a local list group by group and cuts it; it returns `Recommended`, so by `RecommendedLength` at most six entries |
| ChartAdvice.MatchedMembers | custom_tools.py:325-365 | a chart is in the uncut list exactly when some matching group offers it |
| ChartAdvice.MatchedPrefix | custom_tools.py:325-365 | the charts of earlier groups come first |
| ChartAdvice.MatchedLength | custom_tools.py:325-365 | with three charts per group, the uncut list has three per matching group |
| ChartAdvice.RecommendedLength | custom_tools.py:318-367 | the result has `min(3 × matching groups, 6)` entries |
| ChartAdvice.NoKeywordNoCharts | custom_tools.py:318-367 | without any matching keyword there is no recommendation |
| ChartAdvice.CaseInsensitive | custom_tools.py:322-323 | upper-casing the inputs does not change the result, for the ASCII casing the model uses |
| ChartAdvice.CapDropsLaterGroups | custom_tools.py:325-367 | when the data type mentions both "time" and "categorical", the result is exactly the time and categorical charts, whatever the goal; every later group is cut |

## Left out

- `importlib.import_module` and `getattr`: modelled as the `Loader` table. Python's import machinery and side effects of importing are not modelled.
- `os.getenv`: modelled as a map parameter.
- Registry.Loader: a constructor is a pure function and the environment is fixed for the whole of `load_tools`. A tool constructor that writes `os.environ` or module state could change how later tools are built; that is not modelled, and `SameEntryForName` and `ChangingOneEntryKeepsOthers` rely on it.
- Registry.ToolRegistry.RegisterTool: the exception handler catches everything, but the model raises only for a missing `module`/`class` key, import, attribute lookup and the constructor. Exceptions from `print` or from iterating a non-mapping `config` are not modelled.
- Registry.ConfigValue: a config value that is not a string is an opaque token, so other YAML types (lists, numbers, mappings) are not distinguished.
- `load_tools`/`load_pods`: file reading and YAML parsing are I/O. Only the registration loop of `load_tools` is modelled, as `RegisterTools`, over an already parsed list of entries.
- `list_pods`, `create_llm`, `create_agents`, `create_crew`, `run_pod` and `kickoff`: object construction and execution in CrewAI, which are foreign calls. `create_tasks` therefore receives the agents map as a parameter.
- `OrcaPodRunner`: a thin facade over the loader. orcasai.py (command line, prompts, menu loop) and progress_callbacks.py (clock, float durations, printing) are not part of this model.
- All `print` output, including the warnings `create_tasks` prints for skipped names.
- `SerperDevTool`: the network search is abstracted as the two service parameters, and the service's side effects are not modelled.
- `_analyze_python_code`: it relies on Python's `ast` parser, so it is a function parameter of `AnalyzeCode`. The parameter also stands for what `_run` returns when the analyser raises something other than `SyntaxError` (for example a `RecursionError` from `ast.parse`): the "Error analyzing code: …" text is then taken to be the parameter's value.
- LimitedSearch.LimitedSearchTool.Run: the outer `except` also covers failures inside `str(raw_results)`. The model gives `str()` as the `ObjectResult` text, so that failure is not modelled.
- `ChartGenerationTool._run`, `_get_visualization_tips` and `_get_tool_suggestions`: fixed advice text around the recommendations. The data-analysis advice lists are kept verbatim, because the report does depend on them.
- `CodeAnalysisTool._run` and `DataAnalysisTool._run` catch exceptions and return an error message. Apart from the Python analyser above, the modelled paths do not raise on strings, so that branch is not modelled.
- Text.Lower, Text.Upper: only ASCII letters change case. Python's full Unicode case mapping is not modelled.
- ChartAdvice.CaseInsensitive: holds for the model's ASCII casing only. In Python, `"tıme".upper()` is `"TIME"`, which lowers to `"time"` and matches the time group, while `"tıme"` itself lowers to `"tıme"` and matches nothing; so for the program the result can change when the inputs are upper-cased.
- PodLoader.TaskConfig, PodLoader.PodConfig: a YAML key written with no value (null) cannot be represented, because a field is either absent or a string. The source behaves differently for nulls: a task with `agent:` empty is skipped as an agent not found (orca_pod_runner.py:239-243), where the model can only raise the missing-key error; a pod with `name:` empty reports `None` as its name (line 180), where the model reports the pod key; and `workflow:` empty raises `AttributeError` at line 231, which the model does not produce.
- Exact duplicate chart entries cannot occur, because all eighteen chart strings differ. A chart type can still appear twice under different descriptions: "Bar Chart", "Histogram" and "Scatter Plot" each appear in two groups.
