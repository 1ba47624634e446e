# Chatbot AI agent server: the reply-selection and menu logic

The server exposes one API route, `POST /api/chat`. It takes the user's text
(`"Hello!"` when the body has none), runs a tool-calling agent on it, and
decides what to send back:

- the agent's final answer, when the agent used a tool and gave a non-empty
  answer other than the iteration-cap message
  `"Agent stopped due to max iterations."`;
- the first tool observation, verbatim, when the agent used a tool and gave
  exactly that message;
- otherwise the text of one direct model call on the user's input.

If the agent run or that model call throws, the reply is status 500 with
`"Server error occurred."`. The one tool the agent is given, `getMenu`,
lowers the category and looks it up in a three-entry table (breakfast, lunch,
dinner). Any other category gets `"No menu available for this category"`.

The model has three modules:

- `JsValues` (`js_values.dfy`) holds the JavaScript semantics the code relies
  on. It covers possibly-undefined values, string truthiness, the `||`
  operator, object-literal lookup and `toLowerCase`.
- `MenuTool` (`menu_tool.dfy`) models the `getMenu` tool's function.
- `ChatRoute` (`chat_route.dfy`) models the route handler.

The agent executor and the model are external services. `HandleChat` takes
each one as a function from the user input to an `Outcome`, which is either
the awaited value or `Threw`. The result is an `Exchange`: the reply and the
ordered list of external calls made. That list is how the model states that
the fallback is made at most once, and only when needed.

The code decides with JavaScript truthiness, not with presence. An `output`
that is the empty string counts as absent and leads to the fallback, like a
missing one.

## Model

| member | source | states |
|---|---|---|
| `JsValues.Get` | server.js:41 | indexing the menu object gives the entry for a key in the table and `undefined` for any other key |
| `JsValues.Or` | server.js:41 | `v \|\| d` is `v` when `v` is a non-empty string and `d` otherwise (undefined or empty); a non-empty default makes the result non-empty |
| `JsValues.LowerChar` | server.js:41 | one character as `toLowerCase` lowers it: ASCII capitals move up by 32, the Kelvin sign becomes `k`, no result is an ASCII capital |
| `JsValues.ToLowerCase` | server.js:41 | the modelled lowering keeps the length of the category (a property of this model's character-by-character lowering, see Left out) |
| `JsValues.ToLowerCaseAt` | server.js:41 | each character of the lowered string is the lowered character at the same position (proved by induction) |
| `JsValues.ToLowerCaseIs` | server.js:41 | lowering `s` gives `k` if and only if `s` matches `k` character by character once each character is lowered |
| `JsValues.ToLowerCaseIgnoresCase` | server.js:41 | strings that agree ignoring case lower to the same string |
| `JsValues.ToLowerCaseIdempotent` | server.js:41 | lowering an already lowered string changes nothing |
| `MenuTool.GetMenu` | server.js:35-42 | the reply is never empty; it is the table entry for the lowered category when there is one, and the fixed default otherwise |
| `MenuTool.RepliesDistinct` | server.js:36-41 | the three menus and the default reply are pairwise different, so each reply identifies its entry |
| `MenuTool.GetMenuFinds` | server.js:36-41 | the reply is the menu of a table key if and only if the category spells that key ignoring case |
| `MenuTool.GetMenuDefault` | server.js:41 | the default reply is given if and only if the category spells no table key in any case |
| `MenuTool.GetMenuIgnoresCase` | server.js:41 | two categories that agree ignoring case get the same reply |
| `MenuTool.GetMenuOfLowered` | server.js:41 | asking with the lowered category gives the same reply as the original |
| `MenuTool.LunchInAnyCase` | server.js:38-41 | "LUNCH", "Lunch" and "lunch" all give "Dal Tadka, Rice, Roti, Salad" |
| `MenuTool.KelvinSignFindsBreakfast` | server.js:37-41 | "brea" + KELVIN SIGN + "fast" gives the breakfast menu, because `toLowerCase` maps that sign to `k` |
| `ChatRoute.UserInput` | server.js:84 | a missing or empty input becomes "Hello!", any other input passes unchanged, and the result is never empty |
| `ChatRoute.Select` | server.js:93-111 | with no tool step, or no usable (undefined or empty) output, the route falls back; with a tool step it sends the final answer unchanged, or the first observation when the answer is exactly the iteration-cap message |
| `ChatRoute.HandleChat` | server.js:84-119 | the agent runs once on the defaulted input; the model is called at most once, on the same input, if and only if a completed run gave nothing to send; status 500 with the fixed message if and only if an external call threw; otherwise the sent text is the chosen text or the model's text |
| `ChatRoute.SelectCasesPartition` | server.js:96-114 | final answer, iteration cap and fallback are mutually exclusive and together cover every agent result; `Select` sends the answer in the first case, the first observation in the second, and falls back exactly in the third |
| `ChatRoute.NoToolStepFallsBack` | server.js:93-114 | no tool step: the agent then the model are called, whatever the output, and the model's text is sent |
| `ChatRoute.FinalAnswerSentAsIs` | server.js:96-98 | a tool step and a usable answer other than the cap message: status 200 with that answer, and no model call |
| `ChatRoute.IterationCapSendsFirstObservation` | server.js:102-106 | a tool step and exactly the cap message: status 200 with the first observation verbatim (even empty), and no model call |
| `ChatRoute.MissingOutputFallsBack` | server.js:96-114 | an undefined or empty output leads to the model call even when tools were used |
| `ChatRoute.AgentFailureGivesServerError` | server.js:86-119 | the agent run throws: status 500 with "Server error occurred." and no model call |
| `ChatRoute.FallbackFailureGivesServerError` | server.js:111-119 | the fallback model call throws: status 500 with "Server error occurred." and nothing from the agent result |
| `ChatRoute.IterationCapMatchedExactly` | server.js:96-102 | two examples of the exact, case-sensitive, untrimmed comparison: the lower-case spelling and a trailing-space spelling of the cap message are sent as normal answers (the general case is the third ensures of `ChatRoute.Select`) |

## Left out

- Express setup, JSON body parsing, the static `/` route and `app.listen` (server.js:12-15, 126-134) are HTTP plumbing.
- `dotenv` and the port and API key from the environment (server.js:11, 13, 22) are external configuration.
- The Gemini client and its settings (server.js:18-23) belong to a foreign SDK. The model treats what a call returns as an opaque value.
- The agent, prompt template, executor and `maxIterations` (server.js:59-79) are third-party orchestration. Only the shape of the executor's result is modelled.
- `generalQueryTool` (server.js:46-56) only passes the question to the model, and the agent is never given it.
- Logging with `console.log` and `console.error` (server.js:90, 112-113, 118) is a side effect only.
- Async scheduling is not modelled. Each awaited call is one value, either returned or thrown.
- `ChatRoute.UserInput`: a non-string JSON `input` (a number, a boolean, an object) is not modelled; the input is a possibly-undefined string.
- `MenuTool.GetMenu`: keys inherited from `Object.prototype` (`constructor`, `toString`, ...) are not in the table. In JavaScript they would give a non-string value.
- `JsValues.LowerChar`: only ASCII capitals and the Kelvin sign are lowered; other characters are kept. Because the table keys are ASCII and no other character's lower case is an ASCII string, the lookup result is the same as with full Unicode lowering.
- `JsValues.ToLowerCase`: JavaScript's lowering is not character by character. U+0130 lowers to two characters ("i" followed by U+0307), and capital sigma lowers depending on its context. The modelled lowering keeps the length; the real one need not. The menu lookup result is unaffected, since neither case can produce an ASCII key.
- `ChatRoute.AgentResult`: an `output` that is not a string, and an absent `observation`, are not modelled. A missing `intermediateSteps` is the empty sequence, as `?.length > 0` treats it.
- `ChatRoute.HandleChat`: `req.body.input` is read (server.js:84) before the `try` (server.js:86). When `req.body` is undefined (Express 5's JSON parser leaves it so for a request without a body) that read throws outside the `catch`, and the client gets the framework's default error instead of the 500 reply with "Server error occurred.". The model assumes a body object is always present, so this path is not modelled.
