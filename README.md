# NutriFit core, modelled in Dafny

This project models the logic of the NutriFit fitness-coaching app:

- **Plan normaliser** (`normalizer.dfy`, module `PlanNormalizer`): `validateWorkoutPlan` and
  `validateDietPlan`. They turn the untrusted JSON of a language-model reply into a workout
  plan and a diet plan of fixed shape, filling in defaults.
- **HTTP routes** (`http_routes.dfy`, module `HttpRoutes`): the signed identity-provider
  webhook `/clerk-webhook` and the voice agent's tool call `/vapi/generate-program`. Each
  handler is a function. It takes the request, the configured secret and the results of the
  external services it reaches. It returns its reply and the ordered trace of the external
  calls it made (signature check, `syncUser`, the two completions, `createPlan`).
- **Transcript reconciler** (`transcript.dfy`, module `Transcript`): the `setMessages` updater
  of the voice page's message handler. It is a pure reducer over the conversation log.
- **Call-session controller** (`call_session.dfy`, module `GenerateProgramPage`): the page's
  six state fields as the class `CallSession`, with one method per voice-platform event and
  one for `toggleCall`. It also holds the start button's label and enablement.
- **JavaScript semantics** (`js.dfy`, module `Js`): decoded JSON values, truthiness, field
  reads that throw on `null`/`undefined`, `Number()`, `String()` and `.trim()`.

A thrown exception is a `Result.Err` carrying a `Fault` (`TypeError`, `SyntaxError`, or an
`Error` with a message). Inside the plan route's `try` it becomes a 500. In the webhook it
escapes as `Crash`.

## Model

| member | source | states |
|---|---|---|
| `Js.Get` | convex/http.ts:78-88 | reading a field throws exactly when the value is null or undefined; any value other than an object yields undefined |
| `Js.Index0` | convex/http.ts:123 | `x[0]` throws exactly on null/undefined; on an array it is the first element, or undefined when the array is empty |
| `Js.Trim` | convex/http.ts:55 | `.trim()` returns a slice of its input with only white space cut off both ends, and the result neither starts nor ends with white space |
| `Js.JoinedName` | convex/http.ts:55 | the joined first and last name has no surrounding white space, and is "" when both are absent |
| `Js.JoinedNameTrimsParts` | convex/http.ts:55 | the joined name is a slice of `first + " " + last` (an absent part read as "") with only white space cut off both ends |
| `Js.JoinedNameExample` | convex/http.ts:55 | first name "Ann" and last name "Lee" join to "Ann Lee" |
| `Js.ToText` | convex/http.ts:82-99 | `String(v)` throws a TypeError exactly when v is an object with its own `toString` field, or an array holding one; otherwise it is the value's text |
| `Js.ToNumber` | convex/http.ts:85-96 | `Number(v)` throws exactly when v is an object with its own `toString` field, or an array holding one |
| `Js.StringToNumber` | convex/http.ts:85-86 | text that reads as an integer ends, once trimmed, in a decimal digit |
| `Js.NumberOr` | convex/http.ts:85-86 | `Number(v) \|\| d` throws exactly when `Number(v)` does; otherwise it is never 0 for a non-zero default; it is the coerced number, except that a coerced 0 or NaN gives the default |
| `Js.ToStr` | convex/http.ts:82-88 | `String(v)` is "" for a value other than an array only when the value is the empty string |
| `Js.StringOr` | convex/http.ts:82-84 | `String(v \|\| d)` throws exactly when `String(v)` does; it is the default for a falsy value and a non-empty string unchanged; with a non-empty default it is "" only for a truthy array |
| `Js.OptString` | convex/http.ts:87-88 | `v ? String(v) : undefined` throws exactly when `String(v)` does; otherwise it is present iff v is truthy, keeps a non-empty string, and is present but empty only for an array |
| `Js.NumberOfBlank` | convex/http.ts:85-86 | `Number` of an empty or all-white-space string is 0 |
| `Js.NumberOfDigits` | convex/http.ts:85-86 | `Number` of a run of decimal digits is its decimal value |
| `Js.NumberOfNegatedDigits` | convex/http.ts:85-86 | `Number` of a minus sign followed by decimal digits is the negated value |
| `Js.NumberOfNonNumeric` | convex/http.ts:85-86 | `Number` of text with no surrounding white space that starts with neither a sign nor a digit is NaN |
| `Js.NumberOfObject` | convex/http.ts:96 | `Number` of an object is NaN, and throws a TypeError when the object has its own `toString` field |
| `Js.NumberOfEmptyArray` | convex/http.ts:96 | `Number([])` is 0 |
| `Js.NumberOfSingleton` | convex/http.ts:96 | `Number` of a one-number array is that number |
| `Js.NumberOfString` | convex/http.ts:85-86 | coercing the decimal rendering of an integer with `Number()` gives the integer back |
| `PlanNormalizer.MapAll` | convex/http.ts:81-83 | a `.map` whose callback may throw: it succeeds iff every element succeeds, and then keeps length and order, mapping element k to the callback's result for element k; otherwise it throws what the first failing element threw, every earlier element having succeeded |
| `PlanNormalizer.ListOrEmpty` | convex/http.ts:81 | `(v \|\| [])` can be mapped iff v is falsy or an array; its elements are then the array's, or none |
| `PlanNormalizer.ValidateRoutine` | convex/http.ts:83-89 | fails, always with a TypeError, exactly on a null/undefined routine or one whose name, sets, reps, duration or description cannot be converted; the name is `String(name)` when the name is truthy and "Strength Exercise" otherwise, and is "" only for an array name; sets and reps are `Number(v) \|\| 3` and `Number(v) \|\| 10`, never 0; duration and description are `String(v)` when truthy and absent otherwise |
| `PlanNormalizer.ValidateExercise` | convex/http.ts:81-90 | succeeds iff the exercise is not nullish, its day can be converted, its routines are falsy or an array, and every routine is accepted; a failure is always a TypeError; the day is `String(day)` when truthy and "Workout Day" otherwise, and is "" only for an array day; the routines keep the input's length and order, each normalised |
| `PlanNormalizer.ValidateWorkout` | convex/http.ts:76-92 | succeeds exactly on the accepted inputs and otherwise throws a TypeError; the schedule is never empty: it is the input schedule verbatim when that is a non-empty array, else Monday/Wednesday/Friday; the exercises keep the input's length and order (none when absent) |
| `PlanNormalizer.ValidateMeal` | convex/http.ts:97-102 | fails, always with a TypeError, exactly on a nullish meal, a name that cannot be converted, or a non-empty foods array holding an item that cannot be converted; the name is `String(name)` when truthy and "Meal" otherwise, and is "" only for an array name; the foods are never empty: they are the input foods each passed through `String` when those form a non-empty array, else the three fallback foods |
| `PlanNormalizer.ValidateDiet` | convex/http.ts:94-104 | succeeds exactly on the accepted inputs and otherwise throws a TypeError; dailyCalories is `Number(v) \|\| 2200`, so never 0; the meals keep the input's length and order |
| `PlanNormalizer.ValidatedWorkoutShaped` | convex/http.ts:76-92 | every normalised workout has a non-empty schedule and non-zero sets and reps in every routine |
| `PlanNormalizer.ValidatedDietShaped` | convex/http.ts:94-104 | every normalised diet has non-zero calories and a non-empty food list in every meal |
| `PlanNormalizer.RevalidateWorkout` | convex/http.ts:76-92 | normalising a well-shaped workout object again replaces its empty day, name, duration and description texts with the fallbacks and changes nothing else |
| `PlanNormalizer.RevalidateDiet` | convex/http.ts:94-104 | normalising a well-shaped diet object again replaces empty meal names with "Meal" and changes nothing else |
| `PlanNormalizer.WorkoutIdempotence` | convex/http.ts:76-92 | a second pass returns the normalised workout unchanged iff none of its texts is empty; a third pass always matches the second |
| `PlanNormalizer.DietIdempotence` | convex/http.ts:94-104 | a second pass returns the normalised diet unchanged iff no meal name is empty; a third pass always matches the second |
| `PlanNormalizer.WorkoutNotIdempotent` | convex/http.ts:82 | `{exercises: [{day: []}]}` normalises to day "" and a second pass changes it, so the normaliser is not idempotent on all inputs |
| `PlanNormalizer.ToStringFieldThrows` | convex/http.ts:84 | a routine whose name is `{toString: 1}` makes `validateWorkoutPlan` throw a TypeError |
| `PlanNormalizer.EmptyWorkout` | convex/http.ts:76-92 | `validateWorkoutPlan({})` is the fallback schedule with no exercises |
| `PlanNormalizer.LunchWithoutFoods` | convex/http.ts:94-104 | a meal "Lunch" with no foods gets the three fallback foods, and the calories default to 2200 |
| `HttpRoutes.ClerkWebhook` | convex/http.ts:15-71 | the reply is 200, 400 or 500 or a crash; the signature is checked only with the secret and all three svix headers present; at most the check and then one syncUser are called |
| `HttpRoutes.WebhookSecretFirst` | convex/http.ts:16-19 | an unset secret throws before any header is read or any call is made |
| `HttpRoutes.WebhookMissingHeaders` | convex/http.ts:21-29 | a missing or empty svix header is a 400 with no signature check |
| `HttpRoutes.WebhookVerified` | convex/http.ts:34-70 | a failed check is a 400; a `user.created` event syncs its first email, trimmed full name, image and id exactly once, and the reply is 500 iff that call fails and 200 iff it succeeds; any other event is a 200 |
| `HttpRoutes.WebhookEmptyEmails` | convex/http.ts:50-53 | a verified `user.created` event with no email address throws a TypeError after the signature check and before any store call |
| `HttpRoutes.WebhookSuccessMeansSynced` | convex/http.ts:57-70 | a 200 means the signature was valid and, for a signup, the user reached the store |
| `HttpRoutes.ExtractArgs` | convex/http.ts:119-129 | a null or undefined payload throws; without a truthy `message.toolCalls` the whole payload is the argument bundle; otherwise the bundle is the first tool call's `function.arguments`, as they are, or parsed when they are a string, where a failed parse throws a SyntaxError; an empty array, a nullish first tool call or a nullish `function` throws a TypeError |
| `HttpRoutes.ResolveSettings` | convex/http.ts:139-143 | every resolved setting is truthy; each is the caller's value when that is truthy and otherwise its own default: goal "general fitness", 3 days, age 25, level "beginner", restrictions "none" |
| `HttpRoutes.SettingsDefaults` | convex/http.ts:139-143 | a bundle with none of the options gets goal "general fitness", 3 days, age 25, level "beginner", restrictions "none" |
| `HttpRoutes.GenerateProgram` | convex/http.ts:110-211 | the route never lets an exception escape; its status is 200, 400, 401 or 500; a 400 or 401 makes no external call |
| `HttpRoutes.GenerateInTry` | convex/http.ts:118-210 | inside the `try` every exception becomes a 500 carrying its message; the only 400 is "Missing user_id", with no call; the calls are a prefix of the route's three calls in order |
| `HttpRoutes.GenerateForUser` | convex/http.ts:145-205 | once the user id is known, the reply is 200 or 500, a 500 carries the exception, and the calls are a prefix of the route's three calls in order |
| `HttpRoutes.ParseContent` | convex/http.ts:185-186 | missing or empty content is read as "{}"; other content is its parse, and a failed parse throws a SyntaxError |
| `HttpRoutes.NormalisePlans` | convex/http.ts:185-186 | both plans are produced iff both contents parse and both normalisers accept them, and then they are the normalisers' results; an unparsable workout content throws first |
| `HttpRoutes.ToolCallId` | convex/http.ts:200 | the echoed id is undefined without a truthy toolCalls, and the first tool call's `id` when that call is an object |
| `HttpRoutes.EnvelopeId` | convex/http.ts:200 | for a body carrying one tool call, the reply echoes that call's id |
| `HttpRoutes.GenerateCallOrder` | convex/http.ts:148-195 | the calls are a prefix of: workout completion, diet completion, one createPlan with isActive set; the reply is 200 iff all three happened and the store returned an id |
| `HttpRoutes.GenerateUnauthorized` | convex/http.ts:111-116 | with a secret configured, a missing or different header is a 401 with no call |
| `HttpRoutes.GenerateWithoutSecret` | convex/http.ts:114 | with no secret configured, the outcome does not depend on the header |
| `HttpRoutes.GenerateMissingUserId` | convex/http.ts:133-138 | a bundle without a truthy user_id is a 400 with no completion and no createPlan call |
| `HttpRoutes.GenerateEmptyToolCalls` | convex/http.ts:122-126 | an empty toolCalls array is a 500 with no call |
| `HttpRoutes.GenerateSuccess` | convex/http.ts:139-205 | a 200 sends both completions with the resolved settings and then calls createPlan once, with the user id, the normalised plans, isActive and the name "<goal> Plan"; every value the log line and the prompts interpolate could be converted to text; the reply echoes `toolCalls[0].id` and names the new plan |
| `HttpRoutes.GenerateUnprintableGoal` | convex/http.ts:145-209 | a fitness goal that is an object with its own `toString` field is a 500 TypeError before any completion |
| `HttpRoutes.GenerateEmptyContent` | convex/http.ts:185-186 | empty or missing completion content reads as `{}` and yields the default plans |
| `HttpRoutes.GenerateMalformedContent` | convex/http.ts:185-186 | once both completions were made, non-empty workout content that does not parse is a 500 SyntaxError before any store call |
| `HttpRoutes.StringArgumentsLikeObject` | convex/http.ts:122-129 | a tool call with its arguments as a JSON string gets the same reply and calls as the same tool call with the decoded arguments inline |
| `HttpRoutes.EnvelopeArguments` | convex/http.ts:122-126 | for a body carrying one tool call, the bundle is that call's arguments as they are, or their parse when they are a string |
| `HttpRoutes.SameArgumentsSameOutcome` | convex/http.ts:118-205 | two bodies with the same argument bundle and the same tool call id get the same reply and the same calls |
| `Transcript.Reduce` | src/app/generate-program/page.tsx:25-44 | one step keeps all but the last entry, grows the log by at most one entry and never shrinks it, and any change puts the message's entry last |
| `Transcript.OtherMessageIgnored` | src/app/generate-program/page.tsx:24 | a message that is not a transcript leaves the log unchanged |
| `Transcript.ReplaceCase` | src/app/generate-program/page.tsx:30-35 | when the last entry has the same role and is partial, it is replaced by the new entry; the length and all earlier entries are unchanged |
| `Transcript.DropCase` | src/app/generate-program/page.tsx:38-40 | otherwise a final message with the last entry's text is dropped, whatever the roles |
| `Transcript.AppendCase` | src/app/generate-program/page.tsx:43 | otherwise exactly one entry is appended after the unchanged log |
| `Transcript.ReducePreservesCoalesced` | src/app/generate-program/page.tsx:25-44 | no step leaves a partial entry followed by another entry of the same role |
| `Transcript.ReduceAllCoalesced` | src/app/generate-program/page.tsx:25-44 | over any run of messages the log stays coalesced, never shrinks, and grows by at most one entry per message |
| `Transcript.GreetingTrace` | src/app/generate-program/page.tsx:25-44 | user "Hi" partial, "Hi there" partial, "Hi there" final from an empty log leave exactly one final entry "Hi there" |
| `Transcript.RepeatedFinalDropped` | src/app/generate-program/page.tsx:38-40 | a final message repeating a final last entry leaves the log unchanged |
| `GenerateProgramPage.FullName` | src/app/generate-program/page.tsx:122 | the name sent to the platform is never empty and has no surrounding white space: the trimmed full name, or "Guest" whenever that is empty |
| `GenerateProgramPage.StartVariablesFor` | src/app/generate-program/page.tsx:122-133 | a new call carries a non-empty display name, the user's id, today's weekday, and the fixed persona and day-naming instruction |
| `GenerateProgramPage.ButtonLabel` | src/app/generate-program/page.tsx:224 | the label is CONNECTING... iff connecting, END CALL iff active and not connecting, REDIRECTING... iff ended and neither, and START CALL iff no flag is set |
| `GenerateProgramPage.ButtonEnabled` | src/app/generate-program/page.tsx:219 | the button is clickable iff the user is loaded and the call is neither connecting nor ended |
| `GenerateProgramPage.SpeakerStatus` | src/app/generate-program/page.tsx:177 | the coach card reads "Speaking" iff speaking, "Listening" iff silent during a call, and "Standby" iff silent with no call |
| `GenerateProgramPage.EnabledButtonLabel` | src/app/generate-program/page.tsx:219-224 | a clickable button reads START CALL or END CALL, END CALL exactly during a call |
| `GenerateProgramPage.CallSession.Status` | src/app/generate-program/page.tsx:11-16 | with at most one flag set, the status is connecting, active, ended or idle exactly as the flags say |
| `GenerateProgramPage.CallSession.LabelOfStatus` | src/app/generate-program/page.tsx:224 | the button label for each status: START CALL, CONNECTING..., END CALL, REDIRECTING... |
| `GenerateProgramPage.CallSession.constructor` | src/app/generate-program/page.tsx:11-16 | a new session is idle, silent, with an empty transcript and volume 0 |
| `GenerateProgramPage.CallSession.OnCallStart` | src/app/generate-program/page.tsx:80-84 | `call-start` makes the call active, clears connecting and ended, and changes nothing else |
| `GenerateProgramPage.CallSession.OnCallEnd` | src/app/generate-program/page.tsx:86-91 | `call-end`, from any state, clears active, connecting and speaking, sets ended, and keeps the transcript |
| `GenerateProgramPage.CallSession.OnSpeechStart` | src/app/generate-program/page.tsx:97 | `speech-start` sets speaking and nothing else |
| `GenerateProgramPage.CallSession.OnSpeechEnd` | src/app/generate-program/page.tsx:98 | `speech-end` clears speaking and nothing else |
| `GenerateProgramPage.CallSession.OnVolumeLevel` | src/app/generate-program/page.tsx:93 | `volume-level` overwrites the volume and nothing else |
| `GenerateProgramPage.CallSession.OnMessage` | src/app/generate-program/page.tsx:100 | a platform message folds into the transcript through the reducer and changes nothing else |
| `GenerateProgramPage.CallSession.OnError` | src/app/generate-program/page.tsx:101-105 | `error` clears connecting and active, keeps ended, speaking and the transcript |
| `GenerateProgramPage.CallSession.ToggleCall` | src/app/generate-program/page.tsx:112-140 | during a call it only asks the platform to stop; without a loaded user it does nothing; otherwise it starts a call with the user's full name and id, empties the transcript, clears ended, and is left connecting iff the start succeeded |

## Left out

- Signature verification (the svix HMAC check) is the opaque parameter `verify`. The re-serialisation of the webhook body is folded into the `payload` string it is given.
- The language-model completions are opaque results (`Completion`). Model name, prompt text, temperature and response format are not modelled; the trace records the values interpolated into the prompts.
- The user and plan stores are opaque outcomes (`syncSucceeds`, `Stored`); the trace records each call's arguments.
- `JSON.parse` is the parameter `parse`. The lemmas about empty content assume it reads `"{}"` as the empty object.
- Environment variables (the two secrets, the workflow id) and the current weekday are parameters.
- Numbers are NaN or integers. Fractions and Infinity are not modelled. `Number()` of a string reads only an optionally signed run of decimal digits with surrounding white space. Decimal points, exponents, hexadecimal and "Infinity" read as NaN in the model.
- Numbers are exact unbounded integers, not doubles. JavaScript rounds integers beyond 2^53 (`Number("9007199254740993")` is 9007199254740992) and prints integers of 10^21 and above in exponent form ("1e+21"). The model keeps every digit in both directions.
- Strings are sequences of Unicode scalar values, not UTF-16 code units. This matters only for `toolCalls[0]` when `toolCalls` is a string.
- Field reads cover the plain field names the core reads. Inherited properties such as `length` are not modelled; no field the core reads is one.
- The `user.created` payload is typed the way the identity provider declares it: optional first and last name, an image URL, and the list of email addresses. Payloads of other event types are not read by the code and not modelled.
- A webhook exception is the outcome `Crash`. The status the hosting platform then returns is not modelled.
- `GenerateProgramPage.CallSession.ToggleCall`: the outcome of `vapi.start` is the parameter `startSucceeds`. Events that arrive while the start is awaited are not interleaved.
- Console logging, the `console.error` filter, auto-scroll, the one-second redirect timer, listener registration and `removeAllListeners` are not modelled. They are effects outside the page's state.
- The volume is an opaque real that `volume-level` overwrites. The random bar heights are not modelled.
- `src/app/page.tsx` and `src/app/components/Navbar.tsx` are markup and are not part of this model.

## Behaviour worth knowing

The plan normalisers sit under the source's heading `// --- ROBUST VALIDATION HELPERS ---` (convex/http.ts:75). The model records where they are less robust than that heading suggests, and two further points about the handlers and the page.

- The normalisers are not total. They throw a TypeError when a list field is a truthy non-array, a list element is null or undefined (convex/http.ts:81, 83, 97), or a converted field is an object with its own `toString` field (convex/http.ts:82-88, 96, 99). Inside the plan route that becomes a 500.
- Normalisation is not idempotent. A truthy value that prints as "" (for example `day: []`) comes out as "" (convex/http.ts:82), and a second pass replaces it with the fallback text. `WorkoutIdempotence` and `DietIdempotence` state exactly when a second pass changes nothing. `WorkoutNotIdempotent` exhibits the input.
- A `call-start` event clears `callEnded` (src/app/generate-program/page.tsx:83), so the ended state is left by that event as well as by a new start.
- An empty email list in a signup event crashes the webhook. Reading `email_addresses[0].email_address` (convex/http.ts:53) throws outside the `try`, so the model's outcome is `Crash(TypeError)`.
