# codetester — a verified Dafny model

codetester is a command-line harness for solutions to programming-contest problems (LeetCode,
Codeforces). A solution lives in a folder with a `solution.py`, an optional `tests.txt` and an
optional `settings.py`. The harness picks a *tester* for the solution module (function, method,
class or stream), reads test sets from the text file and from the settings' `TESTS` list, turns
JSON lists into linked lists and trees where the signature asks for them, runs the code, judges
each result against the expected value or a user validator, prints a block per test and a final
status. The repository also keeps an older harness (`testing/`, `utils/`) with the same purpose.

This project models that core:

- the node codecs (`ListNode`, `BinaryTreeNode`, `NTreeNode`: `from_list` / `to_list` on heap
  objects, proved against a level-order specification, with their round trips);
- the parsing of test data (`parse_test_data`, the line and stream variants), argument marshalling
  by signature, result conversion and the header line;
- signature inspection and JSON text helpers of `src/utils/general.py`;
- the `Result` counters (a `Tally` object), the judging of answers and the classic / stream report
  texts;
- the four testers: module acceptance, target resolution, splitting of a test set, argument checks
  and runs, including the command loop of the class tester and the stdin/stdout swap of the stream
  tester;
- `testing_module` and `testing_solution`: which data is run in what order, how counters evolve
  and when a run stops with an error;
- the legacy harness (block parsing, marshalling, classic and command tests, the counters and
  final line) and its node helpers;
- the example solution (`twoSum`) and its settings (validator, generators, `TESTS`);
- the URL and slug helpers of the Codeforces and LeetCode sources.

Python values are the datatype `Values.Value` (JSON literals plus marshalled nodes). A marshalled
node is `VNode(kind, items)` where `items` is its `to_list()`; the heap classes and their round-trip
methods justify that canonical form. Python's `==` is `Values.PyEq`; its node case compares the
`to_list()` encodings, which is what `Node.__eq__` (`src/nodes/node.py:11-12`) does. Exceptions are
the `Error` cases of a `Result`. The solution's code, the `json.loads` decoder, the clock, the random
generator and the network are parameters.

An "args" entry of `TESTS` is run as given, without being split or marshalled
(`src/testing/testing.py:138-148`). The stream tester restores the process's original standard
streams after a run, not the ones that were in place before it
(`src/testing/testers/stream_tester.py:97-111`).

## Model

| member | source | states |
|---|---|---|
| ListNodes.ListNode.constructor | src/nodes/list_node.py:14-16 | a new node holds the given value and successor |
| ListNodes.ListNode.ToList | src/nodes/list_node.py:18-26 | walking a chain yields exactly the values of its nodes, in order, one per node |
| ListNodes.ListNode.FromList | src/nodes/list_node.py:28-37 | builds a fresh chain of distinct nodes carrying the values in order; null exactly for an empty list |
| ListNodes.RoundTrip | src/nodes/list_node.py:18-37 | to_list(from_list(values)) gives back every list of values |
| BinaryTreeNodes.BinaryTreeNode.constructor | src/nodes/binary_tree_node.py:15-23 | a new node holds the given value and children |
| BinaryTreeNodes.BinaryTreeNode.ToList | src/nodes/binary_tree_node.py:25-42 | the output is the breadth-first listing of the tree with None for missing children, trailing None entries removed |
| BinaryTreeNodes.BinaryTreeNode.FromList | src/nodes/binary_tree_node.py:44-64 | empty input gives None; it succeeds exactly when every value finds a free slot in level order, else raises IndexError; on success the built tree is decoded from the values |
| BinaryTreeNodes.RoundTrip | src/nodes/binary_tree_node.py:25-64 | to_list(from_list(values)) is the values without trailing None whenever from_list succeeds, and IndexError otherwise |
| BinaryTreeNodes.Listed | src/nodes/binary_tree_node.py:25-42 | a tree decoded from values lists, in level order, those values up to trailing None |
| BinaryTreeNodes.TreeLevelOrder | src/nodes/binary_tree_node.py:25-42 | every well-formed tree layout has a breadth-first entry sequence to list |
| NTreeNodes.NTreeNode.constructor | src/nodes/n_tree_node.py:15-17 | a new node holds the given value and children |
| NTreeNodes.NTreeNode.ToList | src/nodes/n_tree_node.py:19-34 | the output is the level-order listing with a None after each node's children, trailing None entries removed |
| NTreeNodes.NTreeNode.FromList | src/nodes/n_tree_node.py:36-56 | empty gives None; succeeds exactly on well-formed level-order input; otherwise IndexError when the second value is None (pop of an empty queue) and AttributeError when it is not (children of None) |
| NTreeNodes.RoundTrip | src/nodes/n_tree_node.py:19-56 | to_list(from_list(values)) is the values without trailing None on success, with the same two error cases |
| NTreeNodes.Listed | src/nodes/n_tree_node.py:19-34 | a tree decoded from values lists those values, up to trailing None |
| NTreeNodes.Enqueue | src/nodes/n_tree_node.py:28-31 | visiting a node appends its children's values to the output and the children to the queue |
| Nodes.Decode | src/testing/utils.py:77-80 | a falsy argument is not converted (the `or []` branch); a converted argument was truthy |
| Nodes.Rebuild | src/testing/utils.py:77-80 | from_list on the heap followed by to_list agrees with the value-level decoder for each node kind |
| Nodes.MarshalShape | src/testing/utils.py:77-80 | a falsy argument becomes `[]`; otherwise a node value carrying exactly the decoded level-order list |
| Nodes.DecodeEnds | src/nodes/binary_tree_node.py:39-40 | a decoded tree listing never ends with None; a decoded linked list is the argument's items, non-empty |
| Nodes.NodeRepr | src/nodes/node.py:8-9 | repr and str of a node are those of its to_list() |
| Nodes.ClassName | src/nodes/binary_tree_node.py:8 | each node kind has its class name (at least eight characters) |
| Nodes.AltName | src/nodes/binary_tree_node.py:13 | each node kind has its ALT_NAME (`TreeNode` for the binary tree) |
| General.FunctionsIn | src/utils/general.py:9-14 | exactly the functions of the module's variables that are defined in the module itself |
| General.ClassesIn | src/utils/general.py:17-22 | exactly the classes of the module's variables that are defined in the module itself |
| General.FirstFunctionIn | src/utils/general.py:9-14 | the first listed function is the first such variable in definition order |
| General.FirstClassIn | src/utils/general.py:17-22 | the first listed class is the first such variable in definition order |
| General.MethodNames | src/utils/general.py:25-30 | the names are exactly those of the class's function attributes that do not start with `_` |
| General.FirstMethodIn | src/utils/general.py:25-30 | the first listed method name is that of the first public function in the class's `__dict__`, which keeps definition order |
| General.MethodNamed | src/testing/testers/method_tester.py:92-93 | getattr over the attributes in lookup order finds a function of that name, which is in those attributes; none exactly when no function of that name is among them |
| General.MethodAlongMro | src/testing/testers/method_tester.py:92-93 | a method in the class's own `__dict__` is found there whatever the class inherits; otherwise the lookup finds the inherited one |
| General.FunctionNamed | src/testing/testers/function_tester.py:63 | lookup by name finds a listed function of that name exactly when one exists |
| General.ClassNamed | src/testing/testers/method_tester.py:65 | lookup by name finds a listed class of that name exactly when one exists |
| General.RequiredCount | src/utils/general.py:37-42 | counts the parameters without a default: all of them exactly when none has a default, none exactly when all do |
| General.BindsRange | src/utils/general.py:45-66 | with defaults trailing, n positional arguments bind exactly when required-count <= n <= number of parameters |
| General.CheckBound | src/utils/general.py:57-66 | every bound argument must satisfy its parameter's annotation; otherwise TypeError |
| General.ValidateSignature | src/utils/general.py:45-66 | succeeds exactly when the arguments bind and each one fits its annotation; otherwise TypeError |
| General.AnnotationText | src/testing/utils.py:75 | a missing annotation prints as `<class 'inspect._empty'>` |
| General.LastIndexOf | src/testing/testers/function_tester.py:63 | a `{name: x}` dictionary keeps the last entry of a name: the index of the last occurrence, absent exactly when the name does not occur |
| General.ToJsonString | src/utils/general.py:83-84 | the text is never empty; a string is its characters between double quotes |
| General.StringToJson | src/utils/general.py:87-97 | the replace loop yields the JSON text of the string |
| General.JsonTextHasNoSingleQuote | src/utils/general.py:87-97 | the converted text contains no single quote |
| General.JsonTextKeeps | src/utils/general.py:87-97 | text without quotes and without N, T, F is left unchanged |
| General.JsonNull | src/utils/general.py:87-97 | the repr of None becomes `null` |
| General.JsonInt | src/utils/general.py:87-97 | the repr of any integer is kept as its decimal digits |
| General.JsonStr | src/utils/general.py:87-97 | a plain string's repr becomes the same string in double quotes |
| General.ArgsToString | src/utils/general.py:100-106 | the text is empty exactly when there are no positional and no keyword arguments |
| General.ArgParts | src/utils/general.py:100-106 | one JSON text per positional argument, in order |
| General.KwargParts | src/utils/general.py:100-106 | one `name=json` text per keyword argument, in order |
| General.ArgsToStringSnoc | src/utils/general.py:100-106 | one more argument appends `, ` and its JSON text |
| TestingUtils.StrippedLines | src/testing/utils.py:13-23 | one stripped line per line of the stripped text |
| TestingUtils.ParseTestDataBlocks | src/testing/utils.py:13-23 | the blocks are the maximal runs of non-blank stripped lines, each joined by newlines, however many blank lines separate them |
| TestingUtils.BlocksNotEmpty | src/testing/utils.py:13-23 | there is one block per run, no block is empty, and splitting a block into lines gives back its run |
| TestingUtils.ParseBlankText | src/testing/utils.py:13-23 | blank text has no blocks |
| TestingUtils.BlankRunsSeparate | src/testing/utils.py:13-23 | any number of blank lines between two lines separates them into two blocks |
| TestingUtils.ParseAsLinesGroups | src/testing/utils.py:26-39 | succeeds exactly when every line of every block decodes as JSON (else a decode error); the result has one decoded list per block |
| TestingUtils.DecodeLines | src/testing/utils.py:26-39 | one decoded value per line, failing exactly when some line does not decode |
| TestingUtils.DecodeBlocks | src/testing/utils.py:26-39 | one decoded list per block, failing exactly when some block fails |
| TestingUtils.PairBlocks | src/testing/utils.py:42-61 | blocks pair up as (input, output) in order; an odd last block has empty output |
| TestingUtils.ClaimIndex | src/testing/utils.py:74-76 | the first node class in registry order whose name or alternative name occurs in the annotation; none exactly when no class is mentioned |
| TestingUtils.MarshalArgument | src/testing/utils.py:77-80 | an argument without a length raises TypeError; a converted node has the claiming kind |
| TestingUtils.MarshalEach | src/testing/utils.py:77-78 | a list of lists converts element by element and fails exactly when one element fails |
| TestingUtils.ProcArg | src/testing/utils.py:73-81 | an argument whose annotation mentions no node class is passed through unchanged; a new node value has a registered kind |
| TestingUtils.ProcArgs | src/testing/utils.py:64-83 | the loop succeeds exactly when every argument paired with a parameter converts; it converts those and keeps the rest |
| TestingUtils.ConvertArgs | src/testing/utils.py:73-83 | zip semantics: converts the paired arguments in order, stopping at the first failure |
| TestingUtils.MarshalArgsOk | src/testing/utils.py:64-83 | marshalling succeeds exactly when every paired argument converts |
| TestingUtils.MarshalArgsValues | src/testing/utils.py:64-83 | on success the argument count is kept, paired arguments are converted and extra arguments are copied |
| TestingUtils.MarshalArgsErr | src/testing/utils.py:64-83 | on failure the error is that of the first argument that fails |
| TestingUtils.ProcArgNull | src/testing/utils.py:77 | None passed for a node parameter raises TypeError (`len(None)`) |
| TestingUtils.ProcArgNested | src/testing/utils.py:77-78 | a list whose first element is a sequence becomes a list of nodes, one per element |
| TestingUtils.NTreeClaimedByBinary | src/testing/utils.py:74-76 | with the registry order ListNode, BinaryTreeNode, NTreeNode, an `NTreeNode` annotation is claimed by BinaryTreeNode, whose alternative name `TreeNode` it contains |
| TestingUtils.ConvertResult | src/testing/utils.py:86-99 | a registered node becomes its list; None becomes `[]` exactly when the return annotation names a node class; anything else is unchanged |
| TestingUtils.ProcTestResultShape | src/testing/utils.py:86-99 | result conversion changes only nodes (to lists) and None (to `[]` or kept); the as-written and corrected versions differ only on None |
| TestingUtils.ProcTestResultOnlyAdds | src/testing/utils.py:96 | where the corrected conversion differs from the as-written one, the value is None, kept as None by the code and `[]` by the correction |
| TestingUtils.EmptyTreeResult | src/testing/utils.py:96 | for the scaffolded `Optional[TreeNode]` return annotation, None is kept as written although `[]` is intended |
| TestingUtils.HeaderWidth | src/testing/utils.py:102-109 | the header is exactly `width` long when the slack is 0 or at least 2, one short when it is 1, and for negative slack the bare title plus one extra fill when the slack is odd |
| TestingUtils.HeaderLayout | src/testing/utils.py:102-109 | the header is a fill run, ` [ name ] `, and a fill run of the same length or one longer |
| TestingUtils.Repeat | src/testing/utils.py:106 | repeating a one-character fill k times gives k copies of it |
| Values.Len | src/testing/utils.py:77 | `len` is defined on sequences and dicts and is zero exactly on falsy ones |
| Values.Iterate | src/testing/utils.py:77-78 | iteration is defined on sequences and dicts and is empty exactly on falsy ones |
| Values.Repr | src/nodes/node.py:8-9 | repr text is never empty |
| Values.PyEqReflexive | src/testing/results/result.py:53-54 | every well-formed value equals itself under Python equality |
| Results.DefaultJudge | src/testing/results/result.py:53-54 | with no expected value the test passes; classic results always compare; stream results compare when both sides are strings |
| Results.ClassicJudgeSelf | src/testing/results/result.py:53-54 | a classic result passes against itself |
| Results.StreamJudgeTrailingSpace | src/testing/results/stream_result.py:26-27 | trailing whitespace on stream output does not change the verdict |
| Results.Answer | src/testing/results/result.py:77-80 | without a validator the raw answer is the default judgement |
| Results.Decide | src/testing/results/result.py:77-83 | with a validator the test passes exactly when its answer is truthy; without one it is the default judgement |
| Results.ClassicLines | src/testing/results/classic_result.py:9-29 | one line per argument, an "arguments after" block only when the arguments changed, the result line, and an expected line only on failure |
| Results.ClassicTextLines | src/testing/results/classic_result.py:9-29 | the message text is those lines joined by newlines |
| Results.ClassicMessage | src/testing/results/classic_result.py:9-29 | the message contains no single quote |
| Results.ClassicMessagePlain | src/testing/results/classic_result.py:9-29 | when no line has a quote or N, T, F, the message is the lines joined |
| Results.StreamMessage | src/testing/results/stream_result.py:8-24 | succeeds exactly when the input and output are strings and, on failure, the expected value is too; no input raises IndexError; the message is never empty |
| Results.StreamAssembleSections | src/testing/results/stream_result.py:8-24 | empty input, output and expected sections are dropped; with none left a fixed placeholder is shown |
| Results.StreamMessageSections | src/testing/results/stream_result.py:8-24 | the message shows stripped input, stripped output and, on failure only, the expected text |
| Results.Message | src/testing/results/result.py:85-92 | classic results use the classic text, stream results the stream text |
| Results.Judged | src/testing/results/result.py:56-93 | a verdict exists exactly when the decision and the message do; info level exactly on success; the report is the TEST n header, newline, message, newline |
| Results.CountTrueAll | src/testing/results/result.py:36 | passed equals runs exactly when every outcome passed |
| Results.StatusLevels | src/testing/results/result.py:28-47 | a second warning appears exactly when tests lacked expected values; the status is info exactly when all tests passed, else a warning |
| Results.Tally.constructor | src/testing/results/result.py:15-18 | all counters start at zero and empty |
| Results.Tally.Validate | src/testing/results/result.py:56-93 | runs and total time grow; the run number is recorded when expected is None and the value is not; passed grows exactly on success; the verdict is the judged one |
| Results.Tally.PrintStatus | src/testing/results/result.py:28-47 | the status reports passed/runs at info level exactly when every outcome passed, plus the list of tests without expected values when there are any |
| Testers.TesterNamed | src/testing/testers/tester.py:59-60 | lookup by NAME finds a registered tester of that name exactly when one exists |
| Testers.TesterNamedFinds | src/testing/testers/tester.py:59-60 | every registered tester is found by its own name |
| Testers.TesterFor | src/testing/testers/tester.py:63-67 | the first registered tester that accepts the module; none exactly when no tester accepts it |
| Testers.AcceptanceOverlap | src/testing/testers/class_tester.py:37-53 | two different testers accept the same module only if they are the function and class testers |
| Testers.RegistryOrder | src/testing/testers/tester.py:63-67 | when the function and class testers do not both accept, the chosen tester does not depend on registry order |
| Testers.FunctionAndClassOverlap | src/testing/testers/function_tester.py:35-50 | a module with one public function and one class is accepted by both, so the choice depends on registry order |
| Testers.AttrFunction | src/testing/testers/class_tester.py:145-154 | getattr of a method name finds the class's own function, else an inherited one; a data attribute of that name gives TypeError and no attribute AttributeError |
| Testers.ResolveFunction | src/testing/testers/function_tester.py:56-71 | a module without functions is rejected; without target the first function; with one, success exactly when a function has that name, else "does not have function" |
| Testers.ResolveDefaultMethod | src/testing/testers/method_tester.py:63-100 | without target, the Solution class's first public method, when the class and a method exist |
| Testers.ResolveQualified | src/testing/testers/method_tester.py:63-100 | `Class.method` resolves to that class's public method of that name |
| Testers.ResolveMethod | src/testing/testers/method_tester.py:63-100 | any success names a method of a module class that has public methods |
| Testers.BareTargetAsWritten | src/testing/testers/method_tester.py:68-69 | as written, every bare target resolves like `Solution.target`, so the method looked up is literally `target` |
| Testers.ResolveMethodIntended | src/testing/testers/method_tester.py:63-100 | the corrected resolution agrees with the code for empty and dotted targets |
| Testers.BareTargetIntended | src/testing/testers/method_tester.py:68-69 | corrected, a bare target t resolves exactly to the Solution class's method t |
| Testers.ResolveClass | src/testing/testers/class_tester.py:59-74 | a module without classes is rejected; the chosen class is one of the module's |
| Testers.ResolveStream | src/testing/testers/stream_tester.py:45-58 | the entry function is the target, or `main` by default |
| Testers.Resolve | src/testing/testers/tester.py:32 | each tester kind produces a strategy of its own kind |
| Testers.AcceptedResolves | src/testing/testers/tester.py:63-67 | a tester that accepts a module can resolve it without a target |
| Testers.StreamSets | src/testing/testers/stream_tester.py:39-43 | each (input, output) pair becomes ([input], output), with an empty output as None |
| Testers.ParseData | src/testing/testers/stream_tester.py:39-43 | the stream tester parses input/output pairs, the others parse lines of JSON |
| Testers.SplitSet | src/testing/testers/function_tester.py:73-90 | more than required+1 elements is an error; otherwise the arguments are marshalled and an extra element is the expected value |
| Testers.SplitClassSet | src/testing/testers/class_tester.py:76-98 | exactly two or three elements: (commands, arguments) and an optional expected list; fewer or more is an error |
| Testers.SplitStreamSet | src/testing/testers/stream_tester.py:60-75 | exactly two elements: arguments and expected; one raises IndexError |
| Testers.CheckCall | src/testing/testers/function_tester.py:92-96 | arguments must be a sequence that binds to the signature |
| Testers.CheckClassCase | src/testing/testers/class_tester.py:100-132 | a passing case has sequence arguments and expected values of matching length |
| Testers.ClassNeedsExpected | src/testing/testers/class_tester.py:104-109 | a class test without expected values is rejected |
| Testers.CheckStreamCase | src/testing/testers/stream_tester.py:77-85 | the input must be a list of strings and the expected value a string or None |
| Testers.StreamSetPasses | src/testing/testers/stream_tester.py:60-85 | every parsed stream pair splits and passes the checks |
| Testers.StreamSetsPass | src/testing/testers/stream_tester.py:39-85 | each pair of parsed stream text splits and passes the checks |
| Testers.RunFunction | src/testing/testers/function_tester.py:98-114 | a classic result whose arguments before are the iterated arguments |
| Testers.RunMethod | src/testing/testers/method_tester.py:129-150 | a classic result from a fresh Solution instance's method |
| Testers.ListAfter | src/testing/utils.py:70-81 | a command's argument list after the call: the shallow copy passes each unconverted argument as the same object, so it shows what the call did to it; an argument replaced with a node keeps its value |
| Testers.ListAfterUnmutated | src/testing/utils.py:70-81 | a call that leaves the arguments it got unchanged leaves the command's argument list as it was |
| Testers.ArgsAfter | src/testing/testers/class_tester.py:135-146 | `args_after` keeps its length; only the argument lists (position 1) can change, the commands stay |
| Testers.CommandsKeepLists | src/testing/testers/class_tester.py:145-154 | when no method changes its arguments, every command's argument list is as it was |
| Testers.ArgsAfterUnchanged | src/testing/testers/class_tester.py:135-146 | when every command left its argument list as it was, `args_after` equals the arguments |
| Testers.RunClassUnmutated | src/testing/testers/class_tester.py:134-163 | when no method changes its arguments, `args_after` equals `args_before` |
| Testers.Commands | src/testing/testers/class_tester.py:145-154 | one result per command paired with an argument list |
| Testers.RunCommand | src/testing/testers/class_tester.py:146-154 | one command step: look up, marshal, invoke and convert the result |
| Testers.CommandsStep | src/testing/testers/class_tester.py:145-154 | the loop invariant of the command loop is kept by one step, and a failing step is the loop's failure |
| Testers.RunClass | src/testing/testers/class_tester.py:134-163 | a classic result over the constructor and command list; without a runner, `args_after` has the arguments' length and differs from them at most in the argument lists the commands ran on |
| Testers.ClassResultsAlign | src/testing/testers/class_tester.py:134-163 | after a checked case, results start with None for the constructor and align with the commands and expected values |
| Testers.RunMainSpec | src/testing/testers/stream_tester.py:87-118 | a stream result whose value is the captured output text |
| Testers.RunStream | src/testing/testers/stream_tester.py:87-118 | stream runs give stream results |
| Testers.RunSpec | src/testing/testers/tester.py:53 | a result is a stream result exactly for the stream tester |
| Testers.StreamVerdictDecided | src/testing/testers/stream_tester.py:77-118 | a checked stream case always gets a verdict |
| Testers.Console.constructor | src/testing/testers/stream_tester.py:97-111 | the console starts on the process streams |
| Testers.Console.RunMain | src/testing/testers/stream_tester.py:97-111 | the stream run computes its specification and leaves stdin and stdout on the process streams |
| Testers.Tester.constructor | src/testing/testers/tester.py:12-13 | a new tester has no runner |
| Testers.AdvanceCommand | src/testing/testers/class_tester.py:145-154 | one turn of the command loop keeps its invariant: the loop so far followed by the rest from the new instance is the whole loop, and an exception is the whole loop's failure |
| Testers.Tester.RunCommands | src/testing/testers/class_tester.py:145-154 | the command loop computes the command specification |
| Testers.Tester.Run | src/testing/testers/tester.py:53 | a run computes its strategy's specification; only a stream run without runner touches the console, which it leaves on the process streams |
| Testers.Tester.RunClassLoop | src/testing/testers/class_tester.py:134-163 | the class run computes its specification |
| Testing.Unpack | src/testing/testing.py:54 | each test pair unpacks into arguments and expected exactly when it iterates to two elements |
| Testing.CaseOf | src/testing/testing.py:49-55 | text sets are split by the tester; listed pairs are taken as given |
| Testing.Plan | src/testing/testing.py:46-52 | a resolution error stops before any test; text data is parsed by the tester |
| Testing.Recorded | src/testing/testing.py:55-58 | one verdict, passing exactly when the decision is true |
| Testing.StepSession | src/testing/testing.py:54-58 | a step runs at most one test; a completed one leaves one verdict and one report, a stopped one none |
| Testing.RunItemsCount | src/testing/testing.py:54-58 | at most one verdict per item; without an error exactly one verdict and report per item |
| Testing.RunItemsNumbers | src/testing/testing.py:54-58 | run numbers recorded for tests without expected values stay within the runs of the session |
| Testing.ClassTestNeedsExpected | src/testing/testers/class_tester.py:104-109 | a listed class test without expected values stops the session |
| Testing.RunCase | src/testing/testing.py:54-58 | one turn of the test loop advances the counters as its step specification says |
| Testing.TryCase | src/testing/testing.py:54-56 | the attempt to split, check and run one item |
| Testing.RunCases | src/testing/testing.py:54-58 | the test loop updates the counters as the sequence of steps, returning the reports and stopping at the first error |
| Testing.TestingModule | src/testing/testing.py:25-58 | a planning error leaves the counters unchanged; otherwise the counters and reports are those of running all items |
| Testing.GeneratorRuns | src/testing/testing.py:154 | `count or 1`: falsy counts run once, positive ints run that many times, negative none, other types raise TypeError |
| Testing.Draws | src/testing/testing.py:159 | one generated item per draw index |
| Testing.BatchData | src/testing/testing.py:136-165 | the file batch is its text; an args entry is one given pair; a generator entry is its draws; any other entry is skipped |
| Testing.CountCheckedFirst | src/testing/testing.py:154-159 | a non-integer truthy count raises TypeError before any draw |
| Testing.ZeroCountDrawsOnce | src/testing/testing.py:154 | a count of None or 0 draws exactly once |
| Testing.TesterMessageAsWritten | src/testing/testing.py:99 | as written, the "tester not found" message is the same for every tester name |
| Testing.TesterMessageNamesTester | src/testing/testing.py:99 | corrected, the message contains the tester name, so different names give different messages |
| Testing.ChooseTester | src/testing/testing.py:94-105 | a TESTER setting must be a string naming a registered tester; without one, the first accepting tester, else "no suitable tester" |
| Testing.Prepare | src/testing/testing.py:64-133 | no solution name is an error; the batches are the test file (or empty text) followed by the settings' TESTS in order |
| Testing.Batches | src/testing/testing.py:117-165 | the file batch first, then one batch per TESTS entry |
| Testing.RunBatchesNumbers | src/testing/testing.py:136-165 | run numbers recorded for tests without expected values stay within the runs |
| Testing.RunBatch | src/testing/testing.py:136-165 | one batch advances the counters as its step specification says |
| Testing.RunBatchList | src/testing/testing.py:117-165 | all batches run in order, updating the counters as the sequence of batch steps and stopping at the first error |
| Testing.RunPrepared | src/testing/testing.py:117-167 | the counters follow the batch sequence; without error the status is printed after the test reports |
| Testing.PrintSummary | src/testing/testing.py:167 | after a session that raised nothing, the status reports follow the test reports, and when no run came before the session the first is at the info level exactly when every run of the session passed |
| Testing.TestingSolution | src/testing/testing.py:61-167 | a preparation error changes nothing; otherwise the batches run and, without error, the final status follows |
| LegacyTesting.Discover | testing/general.py:14-27 | the first class of the solution module and the first public method in its `__dict__`; NotImplementedError when the module has no class or that first class has no public method |
| LegacyTesting.LegacyBlocks | testing/general.py:98-102 | there is always at least one block |
| LegacyTesting.LegacyBlocksAgree | testing/general.py:98-102 | on non-blank text the legacy blocks are the same as the new parser's |
| LegacyTesting.LegacyBlankText | testing/general.py:98-104 | blank text gives one empty block with no lines, where the new parser gives none |
| LegacyTesting.ProcArg | testing/general.py:47-62 | an argument whose parameter text mentions neither ListNode nor TreeNode, or that is not a list, passes unchanged; one mentioning only ListNode becomes chains and one mentioning only TreeNode becomes trees |
| LegacyTesting.ParamTextParts | testing/general.py:39-55 | the text searched is `str(Parameter)`: it holds the name, the annotation when there is one and the default's repr when there is one, and is the bare name otherwise |
| LegacyTesting.ZipConvertSpec | testing/general.py:47-64 | zipped conversion succeeds exactly when each paired argument converts |
| LegacyTesting.MarshalArgsSpec | testing/general.py:43-64 | argument marshalling succeeds exactly when each paired argument converts, and converts those |
| LegacyTesting.ZipConvertLoop | testing/general.py:47-64 | the loop computes the zipped conversion |
| LegacyTesting.ProcArgsByFunc | testing/general.py:43-64 | the legacy marshalling method computes its specification |
| LegacyTesting.ProcResult | testing/general.py:67-74 | non-nodes pass through; linked lists and trees become lists |
| LegacyTesting.ConvertThenProcResult | testing/general.py:51-72 | converting a list to a linked list and back is the identity; a tree round trip drops trailing falsy values |
| LegacyTesting.SucceedsAsClassic | testing/result.py:40-43 | an expected value is judged as the new harness's classic judge does |
| LegacyTesting.ProcValue | testing/result.py:35-36 | strings are shown in double quotes; any other value is shown by `str`, legacy nodes through their `__repr__` |
| LegacyTesting.PrintedNodeFree | testing/result.py:35-36 | a value without nodes, as JSON gives them, is shown exactly as `str` shows it |
| LegacyTesting.ProcValueOfTree | utils/tree_node.py:12-13 | a tree argument converted from a JSON list is shown as that list without its trailing falsy values, the same text as `proc_result` of the tree |
| LegacyTesting.TreeArgumentTrimmed | utils/tree_node.py:51-52 | the tree argument `[1, 0]` is shown as `[1]` |
| LegacyTesting.Message | testing/result.py:45-58 | the message starts with the TEST n banner and ends with the result as its nodes' `__repr__` prints it, plus the expected value on failure |
| LegacyTesting.ResultCounts.constructor | testing/result.py:11-12 | both counters start at zero |
| LegacyTesting.ResultCounts.Validate | testing/result.py:28-61 | runs grows by one, passed grows exactly on success, and the message is the legacy message |
| LegacyTesting.ResultCounts.PrintTestResults | testing/general.py:77-84 | green exactly when all tests passed; the text is `Tests passed: p/r` |
| LegacyTesting.ClassicParse | testing/classic_test.py:22-42 | the first N lines, converted by `MarshalArgs`, are the arguments and the next one is the expected value; it succeeds exactly when the solution builds, there are at least N lines, a required expected value is present and truthy, and the conversion succeeds; too few lines is an error |
| LegacyTesting.ClassicParseIgnoresExtra | testing/classic_test.py:34-35 | lines after the expected value are ignored |
| LegacyTesting.ClassicRun | testing/classic_test.py:44-58 | the result keeps the original arguments and converts nodes |
| LegacyTesting.CommandParse | testing/command_test.py:24-42 | two or three lines, with required expected values enforced |
| LegacyTesting.Commands | testing/command_test.py:64-72 | one result per command paired with an argument list |
| LegacyTesting.CommandRunSpec | testing/command_test.py:44-79 | commands must be a list of strings and arguments a list; results start with None for the constructor |
| LegacyTesting.CommandRun | testing/command_test.py:44-79 | the command run computes its specification |
| LegacyTesting.RunCommands | testing/command_test.py:64-72 | the command loop computes the command specification |
| LegacyTesting.Construct | testing/command_test.py:19-22 | a classic test keeps all its arguments; a command test is built from the first two of two or more arguments, the rest ignored, and fewer raise TypeError |
| LegacyTesting.ConstructOfParsed | testing/general.py:130 | `cls(*args)` on the arguments `parse` built a test from gives that test again, with any extra arguments to a command test ignored |
| LegacyTesting.RunTest | testing/abstract_test.py:24-31 | running a test computes its specification |
| LegacyTesting.Cases | testing/general.py:103-106 | one case per block or draw |
| LegacyTesting.RunSession | testing/general.py:103-106 | the counters record the outcome of each case in order, stopping at the first error |
| LegacyTesting.Testing | testing/general.py:87-108 | the counters record every block's outcome; green exactly when all recorded outcomes passed |
| LegacyTesting.GenerateAndTesting | testing/general.py:111-132 | the counters record every draw's outcome; green exactly when all recorded outcomes passed |
| LegacyNodes.ListToLinkedList | utils/list_node.py:13-21 | a chain carrying the values (none for None) |
| LegacyNodes.LinkedListToList | utils/list_node.py:24-30 | the chain's values in order |
| LegacyNodes.ListRoundTrip | utils/list_node.py:13-30 | the linked-list round trip is the identity |
| LegacyNodes.ListToBinaryTree | utils/tree_node.py:16-34 | succeeds exactly when every value finds a slot; otherwise the queue blocks |
| LegacyNodes.BinaryTreeToList | utils/tree_node.py:37-54 | the level-order listing with trailing falsy values removed |
| LegacyNodes.TreeRoundTrip | utils/tree_node.py:16-54 | the legacy round trip yields the values without trailing falsy entries |
| LegacyNodes.FalsyLeafLost | utils/tree_node.py:51-52 | a trailing falsy non-None value is lost by the legacy codec and kept by the new one |
| LegacyNodes.TrailingZeroDropped | utils/tree_node.py:51-52 | `[1, 0]` fits a tree, comes back as `[1]` from the legacy codec and `[1, 0]` from the new one |
| TwoSum.FirstPairSpec | solution.py:5-13 | none exactly when no two positions sum to the target; otherwise the pair (j, i) with the smallest i and, for it, the largest j |
| TwoSum.TwoSum | solution.py:5-13 | the dictionary loop returns the first pair of the specification |
| TwoSum.LastPartner | solution.py:9-11 | the partner found is the last earlier position summing to the target |
| TwoSum.AsValue | solution.py:12-13 | the pair is returned as a two-element list, none as None |
| TwoSum.PairFound | solution.py:5-13 | any input with a pair gets an answer |
| ExampleSettings.Validator | solutions/example/settings.py:5-14 | the validator's answer is a boolean; too few arguments raise IndexError |
| ExampleSettings.ValidatorDecides | solutions/example/settings.py:5-14 | the validator accepts exactly the index pairs whose numbers sum to the target |
| ExampleSettings.SolutionPasses | solutions/example/settings.py:5-14 | whenever twoSum answers, the validator accepts its answer |
| ExampleSettings.RandInt | solutions/example/settings.py:24-27 | randint(a, b) lies in [a, b] and raises ValueError when a > b |
| ExampleSettings.Redraw | solutions/example/settings.py:28-29 | the redraw loop ends with j different from i |
| ExampleSettings.Numbers | solutions/example/settings.py:23-26 | n numbers, each within the bounds |
| ExampleSettings.Drawn | solutions/example/settings.py:17-31 | drawing fails with ValueError exactly when the length bound is below 2 or the value bounds are reversed |
| ExampleSettings.Generated | solutions/example/settings.py:17-31 | generation succeeds exactly when drawing does |
| ExampleSettings.Generator | solutions/example/settings.py:17-31 | the generator method computes its specification |
| ExampleSettings.GeneratedPasses | solutions/example/settings.py:17-31 | every generated case has target nums[i] + nums[j], is accepted with its own expected value, and twoSum's answer to it is accepted |
| ExampleSettings.DrawUnpacks | solutions/example/settings.py:31 | a generated case unpacks into arguments and expected |
| ExampleSettings.Tests | solutions/example/settings.py:57-72 | TESTS has three entries |
| ExampleSettings.TestsRun | solutions/example/settings.py:57-72 | the fixed entry is one given pair, the normal generator runs 100 times and the stress generator once |
| ExampleSettings.FixedCasePasses | solutions/example/settings.py:57-62 | the fixed case's answer `[1, 2]` is twoSum's answer and is accepted |
| Sources.FirstMatchText | src/sources/codeforces.py:25-27 | no match exactly when the pattern matches nowhere in the URL |
| Sources.CodeforcesProblemUrl | src/sources/codeforces.py:21-22 | the URL is the format with the contest number and the index letter; an empty slug raises IndexError |
| Sources.CodeforcesSlugByUrl | src/sources/codeforces.py:25-27 | no slug exactly when the pattern does not match |
| Sources.CodeforcesProblemArgs | src/sources/codeforces.py:17-18 | int(slug[:-1]) succeeds exactly when the prefix is digits; otherwise ValueError |
| Sources.CodeforcesArgsOfSlug | src/sources/codeforces.py:17-18 | a number followed by a letter splits back into them |
| Sources.CodeforcesRoundTrip | src/sources/codeforces.py:21-27 | the slug read back from a problem URL is the slug it was built from |
| Sources.LeetcodeLookup | src/sources/leetcode.py:21-28 | `!daily` fetches the daily problem, digits fetch by id, anything else by slug |
| Sources.LeetcodeLookupOfNumber | src/sources/leetcode.py:25-26 | a printed number is looked up by that id |
| Sources.LeetcodeProblemUrl | src/sources/leetcode.py:31-36 | a plain slug formats directly; ids and `!daily` go through the fetched problem |
| Sources.LeetcodeSlugByUrl | src/sources/leetcode.py:39-41 | no slug exactly when the pattern does not match |
| Sources.LeetcodeRoundTrip | src/sources/leetcode.py:31-41 | the slug read back from a problem URL is the slug it was built from |

## Left out

- Printing, colours and styles: ANSI styling (`src/testing/results/classic_result.py:14`, `:18`, `:26`, `src/testing/results/stream_result.py:14-24`) and the `Style.BOLD` prefix of the status (`src/testing/results/result.py:30`) are not part of the report texts; reports carry a level instead of a print function.
- `show_time` (`src/testing/results/result.py:33-34`, `:89-90`) and `time_to_string`: they need floating-point formatting; times are kept as `real` sums only.
- The legacy `SHOW_EXECUTION_TIME` "Time:" line (`testing/result.py:52-53`): it prints a float; `LegacyTesting.Message` is the report without it.
- The "Solution:" and "Type:" lines `testing_solution` prints before running (`src/testing/testing.py:113-114`): output only.
- `debug` output, `DEBUG_COMMANDS` printing, `parameters_to_string` and `print_exc_from_level`: output only.
- Values.QuoteRepr: repr of a string picks the quote character but does not escape characters inside the string.
- `Values.Value` has no float: floating-point test data and results are not modelled.
- LegacyTesting.ProcArg: the annotation part of the parameter text is `str(annotation)` where `inspect` prints it with `formatannotation`; the two differ only in the `<class '...'>` wrapper and a `typing.` prefix, neither of which holds `ListNode` or `TreeNode`.
- General.MethodNamed: the lookup finds functions only, so a data attribute that hides an inherited method of the same name, callable attributes that are not functions, and attributes an instance sets in its `__init__` (seen by the class tester's `getattr(obj, name)`) are not modelled.
- `General.Param` has no kind: `*args`, `**kwargs` and keyword-only parameters are not distinguished from positional ones in binding.
- Keyword arguments and `copy.deepcopy` of arguments: values are immutable here, so a change a call makes to an argument is the `argsAfter` of its `Outcome`, which the testers report as `args_after` (the class tester puts each command's arguments back into its argument list, `Testers.ArgsAfter`).
- Testers.RunClass: the constructor's `Code.construct` returns no arguments after the call, so a constructor that changes the objects of `args_list[0]` is not reflected in `args_after`; nor are two argument lists that share one object in the test data (deep copy keeps that sharing).
- `json.loads` is the parameter `decode`; the solution's code, validators, generators and runners are function parameters (`Testers.Code`, `Testing.Solutions`).
- Registry order: `Node.__subclasses__()` and `Tester.__subclasses__()` depend on import order, which the repository does not fix in the files modelled here; the order is a parameter (`registry`, `testers`), and `Testers.RegistryOrder` states when it does not matter.
- The class-level counters of `Result` are a `Tally` object passed explicitly; the legacy counters are a `ResultCounts` object.
- Randomness: `random.randint` draws are supplied by a `Rolls` parameter; the generator's redraw loop is modelled over the supplied redraw sequence.
- `slug.isdigit()` and `\d` are ASCII digits only; `int()` accepting signs, spaces and underscores is not modelled.
- Network fetches of problems (`get_codeforces_problem`, `get_leetcode_problem_by_*`) are the `fetch` parameter; `Source.load`, `validate_problem_url` and saving problems are not part of this model.
- Solution discovery by file modification time, reading files and importing modules are replaced by the `Solutions` record of functions.
- Comparing a node with a non-node raises `AttributeError` in Python; `PyEq` answers false there.
- The legacy `Queue.get()` on an empty queue blocks forever; the model reports it as the error `Blocked`.

## Findings

| source | as written | input that shows it | evidently intended | confidence | as-written member | corrected member |
|---|---|---|---|---|---|---|
| src/testing/utils.py:96 | a None result becomes `[]` only when the return annotation contains the node class's `__name__` | a function annotated `-> Optional[TreeNode]` (the scaffolded LeetCode signature) returning None | also accept `ALT_NAME`, as argument marshalling does at line 76, so the empty tree is reported as `[]` | not executed | TestingUtils.EmptyTreeResult | TestingUtils.ProcTestResultOnlyAdds |
| src/testing/testers/method_tester.py:68-69 | a target without a dot is rewritten to the literal string `Solution.target` | TARGET = "twoSum" looks up a method named `target` | rewrite to `Solution.` followed by the target's value | not executed | Testers.BareTargetAsWritten | Testers.BareTargetIntended |
| src/testing/testing.py:99 | the message `'Tester "{tester}" not found'` lacks the f prefix | TESTER = "stream " (an unknown name) prints `{tester}` literally | the message names the tester that was not found | not executed | Testing.TesterMessageAsWritten | Testing.TesterMessageNamesTester |
| utils/tree_node.py:51-52 | trailing values are removed while they are falsy, not only while they are None | the tree `[1, 0]` lists back as `[1]` | remove trailing None only, as `src/nodes/binary_tree_node.py:39-40` does | not executed | LegacyNodes.FalsyLeafLost | BinaryTreeNodes.RoundTrip |
