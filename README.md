# Seven tools behind three front ends

The repository serves seven small tools: `get_random_number`,
`get_random_number_list`, `get_random_choice`, `math_add`, `math_subtract`,
`math_multiply` and `math_divide`. Each front end has its own copy of the
rules:

- a local MCP server over stdio (`seans_tools_mcp_server.py`);
- a cloud MCP server, a single Lambda function that speaks JSON-RPC 2.0
  over HTTP (`mcp_server.py`), and one REST Lambda handler per tool;
  four of those handlers are modelled here;
- a local proxy that lists the tools and forwards each call to the REST
  endpoints (`cloud_mcp_proxy.py`).

This project models each front end as pure Dafny functions over a model of
the Python values the code handles. `Json` distinguishes `int` from `float`.
A dict is an ordered list of bindings, and `Python` gives the operators the
handlers apply: truthiness, `in`, `[]`, `.get`, `>`, `+ - * /` and `len`.
An exception becomes a `Result` error. The draws of `random.random()` are
an input stream. `json.loads` is an input function, and the outcome of an
HTTP exchange is an input value. Contracts state:

- guard order and error texts;
- defaults;
- response shapes;
- bounds, counts, membership and distinct positions of what is drawn;
- the JSON-RPC error codes of section 5.1 of the JSON-RPC 2.0 Specification
  (-32700, -32600, -32601, -32603).

The lemmas say where the copies agree and where they do not; they also
follow a call from the proxy through a Lambda handler and back.

Modules:

- `Python`, `Format` (`str`, `repr`, `json.dumps`), `Random` and `Lambda`:
  the shared layer.
- `Mcp`: the tools, their names and the drawing step both MCP servers share.
- `McpServer`, `LocalServer`, `CloudProxy`: the three front ends.
- `RandomNumber`, `RandomNumberList`, `RandomChoice`, `MathAdd`: the Lambda
  handlers.
- `Listings`, `Copies`, `EndToEnd`: the properties that relate them.

Where the copies diverge:

- `handle_call_tool` in the local server returns its validation failures as
  text, but an operator applied to a value of the wrong type still raises,
  for example `"x" > 1`, or `None + 1` when `a` is bound to `null`. So does
  a count of -1 in `get_random_choice` without duplicates, where
  `random.sample` fails. `LocalServer.HandleCallTool` returns these as errors, and
  `LocalServer.WellTypedArgumentsNeverRaise` states when none can occur.
- The cloud server's multiplication and division signs are written in
  `mcp_server.py` as U+0E23 U+0097 and U+0E23 U+0E17, a mis-decoded `×` and
  `÷`. They are kept as written, so its equations differ from the local
  server's (`Copies.MultiplyDivideCopiesDiffer`).
- The two MCP servers treat a `null` operand differently. The cloud server
  reports it as missing; the local server passes it to the operator, which
  raises.
- A missing `choices` is reported in different words by the two servers.

## Model

| member | source | states |
|---|---|---|
| Python.Lookup | terminal1/cdk-cloud-deployed-version/lambda_functions/mcp_server/mcp_server.py:37-38 | `d.get(key)` finds a value exactly when the dict binds the key |
| Python.LookupFirst | terminal1/cdk-cloud-deployed-version/lambda_functions/math_operations/math_add.py:65-71 | a key bound once in a freshly built dict reads back its own value |
| Python.Contains | terminal1/cdk-cloud-deployed-version/lambda_functions/mcp_server/mcp_server.py:35 | `key in v` raises `TypeError` exactly on a value that is no container, and tests a dict's keys |
| Python.Gt | terminal1/cdk-cloud-deployed-version/lambda_functions/mcp_server/mcp_server.py:232 | `>` compares numbers by value and raises `TypeError` on any pairing other than two numbers or two strings |
| Python.Div | terminal1/cdk-cloud-deployed-version/lambda_functions/mcp_server/mcp_server.py:324-327 | `a / b` succeeds exactly on two numbers with a non-zero divisor, and gives a float `q` with `q * b == a` |
| Lambda.RequestBody | terminal1/cdk-cloud-deployed-version/lambda_functions/random_operations/get_random_choice.py:22-25 | the request is the decoded `event['body']` when it is a string, the body as it is otherwise, the event itself without a body; only a malformed string fails, with `JSONDecodeError` |
| Random.Uniform | terminal1/cdk-cloud-deployed-version/lambda_functions/random_operations/get_random_number.py:57 | `random.uniform(min, max)` lies in [min, max] when min <= max |
| Random.PyUniformList | terminal1/cdk-cloud-deployed-version/lambda_functions/random_operations/get_random_number_list.py:72 | the comprehension yields exactly `count` draws, each in [min, max], and raises unless `count` is an int |
| Random.PyChoice | terminal1/cdk-cloud-deployed-version/lambda_functions/random_operations/get_random_choice.py:85 | `random.choice` picks a member of a non-empty list and raises on an empty one |
| Random.PyChoices | terminal1/cdk-cloud-deployed-version/lambda_functions/random_operations/get_random_choice.py:89 | `count` draws with replacement, each a member of the list |
| Random.PoolPick | terminal1/cdk-cloud-deployed-version/lambda_functions/random_operations/get_random_choice.py:91 | the pool method picks `k` pairwise distinct positions of the pool |
| Random.SamplePositions | terminal1/cdk-cloud-deployed-version/lambda_functions/random_operations/get_random_choice.py:91 | `random.sample` picks `k` pairwise distinct positions below `len(choices)` |
| Random.PySample | terminal1/cdk-cloud-deployed-version/lambda_functions/random_operations/get_random_choice.py:91 | `random.sample(choices, count)` succeeds exactly when 0 <= count <= len, giving `count` elements from distinct positions; otherwise ValueError "Sample larger than population or is negative" |
| Mcp.KindOf | terminal1/seans_tools_mcp_server.py:191-280 | a name selects a tool exactly when it is one of the seven tool names |
| Mcp.AllToolsComplete | terminal1/cdk-cloud-deployed-version/lambda_functions/mcp_server/mcp_server.py:127-223 | the seven tools are listed once each, with pairwise distinct names |
| Mcp.ToolNames | terminal1/cdk-cloud-deployed-version/lambda_functions/mcp_server/mcp_server.py:127-223 | the listing order: random_number, random_number_list, random_choice, add, subtract, multiply, divide |
| Mcp.TextReply | terminal1/seans_tools_mcp_server.py:199 | a reply is exactly one text item |
| Mcp.ChoiceText | terminal1/cdk-cloud-deployed-version/lambda_functions/mcp_server/mcp_server.py:267-279 | count 1 shows one member; otherwise `count` draws from the list with duplicates, a sample from distinct positions without; a negative count without duplicates raises the sample error |
| McpServer.CreateMcpResponse | terminal1/cdk-cloud-deployed-version/lambda_functions/mcp_server/mcp_server.py:86-103 | HTTP 200, JSON-RPC headers, `jsonrpc` "2.0", the given `id` and `result`, and no `error` |
| McpServer.CreateMcpError | terminal1/cdk-cloud-deployed-version/lambda_functions/mcp_server/mcp_server.py:105-125 | HTTP 200, JSON-RPC headers, `jsonrpc` "2.0", the given `id`, an `error` with the given `code` and `message`, and no `result` |
| McpServer.InitializeAnswer | terminal1/cdk-cloud-deployed-version/lambda_functions/mcp_server/mcp_server.py:45-54 | `initialize` answers protocolVersion "2024-11-05" and serverInfo `seans-tools-cloud` / `1.0.0` |
| McpServer.RandomNumberText | terminal1/cdk-cloud-deployed-version/lambda_functions/mcp_server/mcp_server.py:228-238 | min > max raises the range error; otherwise a number in [min, max] is shown; only `TypeError` or that error escapes |
| McpServer.RandomNumberListText | terminal1/cdk-cloud-deployed-version/lambda_functions/mcp_server/mcp_server.py:240-254 | the range is checked before the count; a count outside [1, 1000] raises; otherwise `count` numbers in [min, max] are shown |
| McpServer.RandomChoiceText | terminal1/cdk-cloud-deployed-version/lambda_functions/mcp_server/mcp_server.py:256-279 | empty or absent choices raise; a count above len without duplicates raises the unique-items error; otherwise the shared drawing step |
| McpServer.MathAddText | terminal1/cdk-cloud-deployed-version/lambda_functions/mcp_server/mcp_server.py:281-291 | an absent or `None` operand raises "Both 'a' and 'b' parameters are required"; two numbers show `a + b = sum` |
| McpServer.MathSubtractText | terminal1/cdk-cloud-deployed-version/lambda_functions/mcp_server/mcp_server.py:293-303 | the same guard; two numbers show `a - b = difference`, anything else raises `TypeError` |
| McpServer.MathMultiplyText | terminal1/cdk-cloud-deployed-version/lambda_functions/mcp_server/mcp_server.py:305-315 | the same guard; two numbers show the product with the sign as written in the file |
| McpServer.MathDivideText | terminal1/cdk-cloud-deployed-version/lambda_functions/mcp_server/mcp_server.py:317-330 | the same guard, then b == 0 raises "Division by zero is not allowed" before any division; otherwise the quotient is shown |
| McpServer.CallTool | terminal1/cdk-cloud-deployed-version/lambda_functions/mcp_server/mcp_server.py:225-333 | a name outside the seven raises "Unknown tool: {name}"; a listed name runs its tool and wraps its text in one content item |
| McpServer.ListedTools | terminal1/cdk-cloud-deployed-version/lambda_functions/mcp_server/mcp_server.py:127-223 | `list_tools` holds exactly seven tools, named in the fixed order |
| McpServer.ListedToolsHandled | terminal1/cdk-cloud-deployed-version/lambda_functions/mcp_server/mcp_server.py:127-223 | every listed name is routed by `call_tool` to the tool it lists |
| McpServer.Dispatch | terminal1/cdk-cloud-deployed-version/lambda_functions/mcp_server/mcp_server.py:35-76 | every routed reply is HTTP 200 with the JSON-RPC headers; its body is empty exactly for `initialized`, and otherwise carries a result or an error |
| McpServer.DispatchInitialize | terminal1/cdk-cloud-deployed-version/lambda_functions/mcp_server/mcp_server.py:40-55 | `initialize` answers the fixed result with the request's id, whatever the client sent |
| McpServer.DispatchInitialized | terminal1/cdk-cloud-deployed-version/lambda_functions/mcp_server/mcp_server.py:56-67 | `initialized` gets status 200 and an empty body, with no JSON-RPC envelope |
| McpServer.DispatchToolsList | terminal1/cdk-cloud-deployed-version/lambda_functions/mcp_server/mcp_server.py:68-69 | `tools/list` answers the registry with the request's id |
| McpServer.DispatchToolsCall | terminal1/cdk-cloud-deployed-version/lambda_functions/mcp_server/mcp_server.py:70-74 | `tools/call` answers the tool's result with the request's id, or lets its exception escape |
| McpServer.DispatchUnknownMethod | terminal1/cdk-cloud-deployed-version/lambda_functions/mcp_server/mcp_server.py:75-76 | any other method gets -32601 "Method not found: {method}" with the request's id |
| McpServer.UnknownToolIsInternalError | terminal1/cdk-cloud-deployed-version/lambda_functions/mcp_server/mcp_server.py:70-84 | a `tools/call` naming no listed tool ends as -32603 "Internal error: Unknown tool: {name}" with a null id, not the request's id |
| McpServer.LambdaHandler | terminal1/cdk-cloud-deployed-version/lambda_functions/mcp_server/mcp_server.py:10-84 | OPTIONS gets the CORS headers and an empty body; every reply is HTTP 200; a malformed body is -32700 and a container without `method` -32600, both with id null; a body `in` cannot test, or any other escaped exception, is -32603 "Internal error: ..." with id null |
| LocalServer.HandleListTools | terminal1/seans_tools_mcp_server.py:27-184 | the seven names, in the listing order |
| LocalServer.ErrorText | terminal1/seans_tools_mcp_server.py:196 | every validation failure's text starts with "Error: " |
| LocalServer.ArgOr | terminal1/seans_tools_mcp_server.py:192-193 | `arguments.get(key, default) if arguments else default`: the default for absent or empty arguments or a missing key, the bound value otherwise |
| LocalServer.RandomNumberText | terminal1/seans_tools_mcp_server.py:191-199 | min > max is reported as an "Error: " text; otherwise a number in [min, max] is shown; only `TypeError` escapes |
| LocalServer.RandomNumberListText | terminal1/seans_tools_mcp_server.py:201-213 | the range before the count; a count outside [1, 1000] is reported; otherwise `count` numbers in [min, max] |
| LocalServer.RandomChoiceText | terminal1/seans_tools_mcp_server.py:215-237 | checks in the order: missing key, empty choices, count above len without duplicates; then the shared drawing step |
| LocalServer.Operands | terminal1/seans_tools_mcp_server.py:240-244 | both operands exactly when arguments are non-empty and hold `a` and `b` |
| LocalServer.MathAddText | terminal1/seans_tools_mcp_server.py:239-246 | missing operands are reported; two numbers show `a + b = sum` |
| LocalServer.MathSubtractText | terminal1/seans_tools_mcp_server.py:248-255 | missing operands are reported; the text is shown exactly when both operands are numbers |
| LocalServer.MathMultiplyText | terminal1/seans_tools_mcp_server.py:257-264 | missing operands are reported; two numbers show the product with the sign × |
| LocalServer.MathDivideText | terminal1/seans_tools_mcp_server.py:266-277 | missing operands, then b == 0 as "Error: Division by zero is not allowed"; otherwise `a ÷ b = quotient` |
| LocalServer.HandleCallTool | terminal1/seans_tools_mcp_server.py:187-280 | every outcome is one text item; an unknown tool is "Unknown tool: {name}" without the "Error: " prefix; only an operator on a mistyped value escapes |
| LocalServer.WellTypedArgumentsNeverRaise | terminal1/seans_tools_mcp_server.py:188-277 | with arguments of the types the schemas ask for, no tool raises |
| LocalServer.NoArgumentsRandom | terminal1/seans_tools_mcp_server.py:192-193 | absent or empty arguments give a number in [0, 100], five numbers in [0, 100], and the missing-choices error |
| LocalServer.NoArgumentsMath | terminal1/seans_tools_mcp_server.py:240-241 | absent or empty arguments make every math tool report "Both 'a' and 'b' parameters are required" |
| CloudProxy.StripTrailingSlashes | terminal1/cdk-cloud-deployed-version/cloud_mcp_proxy.py:29 | `rstrip('/')`: a prefix of the argument that does not end in '/', with only '/' removed |
| CloudProxy.Url | terminal1/cdk-cloud-deployed-version/cloud_mcp_proxy.py:213-214 | the URL is the stripped base followed by the tool's path, and has exactly one '/' at the join |
| CloudProxy.RequestJson | terminal1/cdk-cloud-deployed-version/cloud_mcp_proxy.py:220 | absent arguments are sent as `{}`, present ones as they are |
| CloudProxy.ResponseJson | terminal1/cdk-cloud-deployed-version/cloud_mcp_proxy.py:225 | `response.json()` decodes or raises `JSONDecodeError` |
| CloudProxy.SuccessText | terminal1/cdk-cloud-deployed-version/cloud_mcp_proxy.py:224-231 | on 200: the `expression` verbatim if present, else "Result: {result}", else "Success: " + the dumped body |
| CloudProxy.FailureText | terminal1/cdk-cloud-deployed-version/cloud_mcp_proxy.py:232-234 | any other status: a JSON body's `error` ("Unknown error" when absent), else the raw text, after "Error: " |
| CloudProxy.OutcomeText | terminal1/cdk-cloud-deployed-version/cloud_mcp_proxy.py:216-241 | a timeout is "Error: Request timed out", a request error "Error: Network request failed - ...", any other exception "Error: ..."; nothing escapes |
| CloudProxy.HandleListTools | terminal1/cdk-cloud-deployed-version/cloud_mcp_proxy.py:35-192 | the seven names, in the listing order |
| CloudProxy.HandleCallTool | terminal1/cdk-cloud-deployed-version/cloud_mcp_proxy.py:196-241 | one text item always; a name outside the map is "Unknown tool: {name}" with no request; otherwise the outcome of posting to base + path |
| RandomChoice.Select | terminal1/cdk-cloud-deployed-version/lambda_functions/random_operations/get_random_choice.py:84-91 | count 1 gives one member; with duplicates `count` members; without, `count` elements from distinct positions |
| RandomChoice.Success | terminal1/cdk-cloud-deployed-version/lambda_functions/random_operations/get_random_choice.py:94-107 | status 200 with operation "get_random_choice", choices_count = len(choices), and count, allow_duplicates and result echoed |
| RandomChoice.Checked | terminal1/cdk-cloud-deployed-version/lambda_functions/random_operations/get_random_choice.py:40-107 | the guards shape, count, uniqueness in this order, each with its 400 message; 200 exactly when all pass, with the drawn result |
| RandomChoice.LambdaHandler | terminal1/cdk-cloud-deployed-version/lambda_functions/random_operations/get_random_choice.py:20-131 | malformed JSON is 400; a missing or empty body, or a dict, list or string without `choices`, is 400 "'choices' parameter is required" before anything else; a 200 only for a dict holding `choices` |
| RandomNumberList.Params | terminal1/cdk-cloud-deployed-version/lambda_functions/random_operations/get_random_number_list.py:28-30 | count, min and max default to 5, 0 and 100 for an empty body or missing keys |
| RandomNumberList.Success | terminal1/cdk-cloud-deployed-version/lambda_functions/random_operations/get_random_number_list.py:76-89 | status 200 with operation, count, min, max and the numbers |
| RandomNumberList.LambdaHandler | terminal1/cdk-cloud-deployed-version/lambda_functions/random_operations/get_random_number_list.py:20-113 | checks in the order count, type, range, each with its 400 message; 200 exactly when all pass, with `count` numbers in [min, max]; malformed JSON 400, other exceptions 500 |
| RandomNumber.Bounds | terminal1/cdk-cloud-deployed-version/lambda_functions/random_operations/get_random_number.py:27-28 | min and max default to 0 and 100 for an empty body or missing keys |
| RandomNumber.Success | terminal1/cdk-cloud-deployed-version/lambda_functions/random_operations/get_random_number.py:61-73 | status 200 with operation "get_random_number", min, max and the draw, and no `expression` |
| RandomNumber.LambdaHandler | terminal1/cdk-cloud-deployed-version/lambda_functions/random_operations/get_random_number.py:19-97 | the type check before the range check; 200 exactly for two numbers with min <= max, with min <= result <= max; malformed JSON 400, other exceptions 500 |
| MathAdd.Success | terminal1/cdk-cloud-deployed-version/lambda_functions/math_operations/math_add.py:59-71 | status 200 with operation "add", a, b, the result and the expression `a + b = result` |
| MathAdd.LambdaHandler | terminal1/cdk-cloud-deployed-version/lambda_functions/math_operations/math_add.py:18-96 | a container lacking `a` or `b` is 400 "Both 'a' and 'b' parameters are required" before the type check, and a body `in` cannot test is 500; 200 exactly for two numeric operands, with result = a + b and its expression |
| Listings.ServerDescriptionsAgree | terminal1/cdk-cloud-deployed-version/lambda_functions/mcp_server/mcp_server.py:127-223 | each cloud server description equals the local server's |
| Listings.ProxyDescriptionsAgree | terminal1/cdk-cloud-deployed-version/cloud_mcp_proxy.py:38-191 | each proxy description is the local one followed by " (Cloud)" |
| Listings.SchemasAgree | terminal1/cdk-cloud-deployed-version/cloud_mcp_proxy.py:38-191 | the cloud server's and the proxy's inputSchemas equal the local server's |
| Listings.ListingsAgree | terminal1/seans_tools_mcp_server.py:27-184 | `list_tools` is exactly the local listing (names, order, descriptions, schemas); the proxy lists the same names and schemas with " (Cloud)" descriptions |
| Listings.EndpointKeys | terminal1/cdk-cloud-deployed-version/cloud_mcp_proxy.py:200-208 | `endpoint_map`'s keys are exactly the seven tool names |
| Listings.ListedNames | terminal1/seans_tools_mcp_server.py:27-184 | the listed names are exactly the names that select a tool |
| Listings.EndpointsMatchListing | terminal1/cdk-cloud-deployed-version/cloud_mcp_proxy.py:200-208 | the key set of `endpoint_map` equals the set of names `handle_list_tools` returns |
| Listings.EndpointsDistinct | terminal1/cdk-cloud-deployed-version/cloud_mcp_proxy.py:200-208 | distinct tools are mapped to distinct paths |
| Copies.RandomNumberCopiesAgree | terminal1/seans_tools_mcp_server.py:191-199 | on the same arguments and draws, the local text is the cloud text, a cloud `ValueError` is the local "Error: " text, and other exceptions agree |
| Copies.RandomNumberListCopiesAgree | terminal1/seans_tools_mcp_server.py:201-213 | the same agreement for `get_random_number_list`, order of checks included |
| Copies.RandomChoiceCopiesAgree | terminal1/seans_tools_mcp_server.py:215-237 | the same agreement for a non-empty list and a count of at least 0; missing choices are reported in different words |
| Copies.UniqueCopiesAgree | terminal1/seans_tools_mcp_server.py:226-227 | both servers reject a count above len without duplicates with the same message |
| Copies.DrawCopiesAgree | terminal1/seans_tools_mcp_server.py:229-237 | both servers draw the same way, and the draw succeeds |
| Copies.AddSubtractCopiesAgree | terminal1/seans_tools_mcp_server.py:239-255 | `math_add` and `math_subtract` show the same text in both servers for numeric operands |
| Copies.MultiplyDivideCopiesDiffer | terminal1/cdk-cloud-deployed-version/lambda_functions/mcp_server/mcp_server.py:314 | `math_multiply` and `math_divide` show different texts in the two servers, because of the signs written in the cloud server |
| EndToEnd.Gateway | terminal1/cdk-cloud-deployed-version/cloud_mcp_proxy.py:224-233 | the proxy sees the handler's status and the decoded body it sent |
| EndToEnd.ProxyShowsHandlerErrors | terminal1/cdk-cloud-deployed-version/cloud_mcp_proxy.py:232-234 | a handler's error reply reaches the proxy as "Error: {message}" |
| EndToEnd.AddHandlerReply | terminal1/cdk-cloud-deployed-version/lambda_functions/math_operations/math_add.py:55-71 | a well-formed `math_add` request gets the 200 reply with the sum |
| EndToEnd.ProxyShowsAddExpression | terminal1/cdk-cloud-deployed-version/lambda_functions/math_operations/math_add.py:65-71 | the `math_add` reply always holds `expression`, so the proxy shows it, not "Result: ..." |
| EndToEnd.LocalAddShows | terminal1/seans_tools_mcp_server.py:239-246 | the local server shows `a + b = sum` |
| EndToEnd.ProxyAddShows | terminal1/cdk-cloud-deployed-version/cloud_mcp_proxy.py:224-227 | the proxy shows the `math_add` handler's expression |
| EndToEnd.ProxyAddMatchesLocal | terminal1/cdk-cloud-deployed-version/cloud_mcp_proxy.py:196-241 | for numeric operands, the proxy's `math_add` text is the local server's |
| EndToEnd.ProxyShowsRandomResult | terminal1/cdk-cloud-deployed-version/cloud_mcp_proxy.py:228-229 | a 200 reply with `result` and no `expression` is shown as "Result: {result}" |
| EndToEnd.RandomNumberHandlerReply | terminal1/cdk-cloud-deployed-version/lambda_functions/random_operations/get_random_number.py:57-73 | a well-formed `get_random_number` request gets the 200 reply with its draw |
| EndToEnd.ProxyRandomNumberShowsResult | terminal1/cdk-cloud-deployed-version/cloud_mcp_proxy.py:228-229 | through the proxy, `get_random_number` shows "Result: " and a number in [min, max] |

## Left out

- The HTTP exchange (`httpx`, its 30 s timeout) is an input `post`, and its outcome an `HttpOutcome`. Header names are matched exactly, not case-insensitively.
- The stdio/asyncio server loops, the MCP library's own handshake, the command-line argument check with `sys.exit`, and all logging are not modelled.
- `json.loads` is an input function; for a round trip the lemmas require it to decode `json.dumps(v)` to `v`. `json.dumps` is written out structurally; its string escaping covers only `"` and `\`, not control or non-ASCII characters.
- Floating point: floats are exact reals, so `a / b` is exact division and the printed float text is a positional rendering, not CPython's shortest repr. Uniformity of the draws is not modelled, only where they land.
- The messages of CPython's built-in exceptions (`TypeError`, `KeyError`, `AttributeError`, ...) are fixed placeholder texts. The pydantic validation message for a non-string `expression` is shortened to its first line.
- Format.Repr: quotes every string with `'` and escapes nothing, whereas CPython's `repr` uses `"` for a string holding `'` and no `"`, and escapes backslashes, newlines and non-printable characters; this affects the shown text of lists and dicts of such strings.
- Ordering comparisons between lists, and between mixed types other than numbers and strings, always raise `TypeError`, and `==` against an integer literal is only true for numbers. Python's list comparisons are not modelled.
- Duplicate keys in a dict cannot arise from `json.loads`; the model reads the first binding of a key.
- The AWS CDK stack and its placeholder test are deployment plumbing and are not part of this model. The `math_subtract`, `math_multiply` and `math_divide` Lambda handlers are not part of this model either.
- Copies.RandomChoiceCopiesAgree: only covers a non-empty list and an integer count of at least 0; other argument types can make the two servers' errors differ.
- Copies.AddSubtractCopiesAgree: only covers numeric operands; for a `null` operand the two servers differ.
- LocalServer.MathAddText and LocalServer.MathMultiplyText: do not say which result non-numeric operands give (string concatenation, repetition or `TypeError`), as the code leaves that to Python's operators.
