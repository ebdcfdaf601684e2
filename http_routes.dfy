/** The two HTTP routes: the identity provider's signed webhook and the voice
    agent's plan-generation tool call. Each handler is a function from the
    request, the configured secret and the results of the external services
    it reaches (signature verification, the user store, the two language-model
    completions, the plan store) to its reply and the trace of the external
    calls it made, in order. */
module HttpRoutes {
  import opened Js
  import opened PlanNormalizer

  datatype Body =
    | Text(text: string)
    /** `{results: [{toolCallId, result}]}`; an undefined id is left out when serialised. */
    | ToolResults(toolCallId: Json, result: string)
    /** `{error: error.message}` */
    | ErrorBody(fault: Fault)

  /** A response, or an exception that escaped the handler. */
  datatype Reply = Respond(status: int, body: Body) | Crash(fault: Fault)

  datatype SvixHeaders = SvixHeaders(id: string, timestamp: string, signature: string)

  /** The calls the handlers make to code outside this core. */
  datatype Call =
    | Verify(payload: string, headers: SvixHeaders)
    | SyncUser(email: string, name: string, image: string, clerkId: string)
    | WorkoutCompletion(days: Json, age: Json, level: Json, goal: Json)
    | DietCompletion(goal: Json, restrictions: Json)
    | CreatePlan(userId: Json, dietPlan: DietPlan, workoutPlan: WorkoutPlan, isActive: bool, name: string)

  datatype Handled = Handled(reply: Reply, calls: seq<Call>)

  /** A header or environment variable that is set to a non-empty string. */
  predicate Present(v: Option<string>) {
    v.Some? && v.value != ""
  }

  // ============================================================ /clerk-webhook

  /** The user record a `user.created` event carries. */
  datatype UserData = UserData(
    id: string,
    firstName: Option<string>,
    lastName: Option<string>,
    imageUrl: string,
    emailAddresses: seq<string>)

  /** A verified event; `user` is read only when `eventType` is "user.created". */
  datatype WebhookEvent = WebhookEvent(eventType: string, user: UserData)

  /** `payload` is the request body re-serialised after `request.json()`,
      or None when the body is not JSON (and `request.json()` throws). */
  datatype WebhookRequest = WebhookRequest(
    svixId: Option<string>,
    svixTimestamp: Option<string>,
    svixSignature: Option<string>,
    payload: Option<string>)

  const MissingWebhookSecret := Error("Missing CLERK_WEBHOOK_SECRET environment variable")

  predicate HasSvixHeaders(req: WebhookRequest) {
    Present(req.svixId) && Present(req.svixSignature) && Present(req.svixTimestamp)
  }

  /** `verify` is the signature check: the event it decodes, or None when it
      throws. `syncSucceeds` says whether the store's syncUser returns. */
  function ClerkWebhook(
    secret: Option<string>,
    req: WebhookRequest,
    verify: (string, SvixHeaders, string) -> Option<WebhookEvent>,
    syncSucceeds: bool): (h: Handled)
    ensures h.reply.Respond? ==> h.reply.status in {200, 400, 500}
    ensures (exists k :: 0 <= k < |h.calls| && h.calls[k].Verify?) ==> Present(secret) && HasSvixHeaders(req)
    ensures |h.calls| <= 2
    ensures |h.calls| == 2 ==> h.calls[0].Verify? && h.calls[1].SyncUser?
    ensures |h.calls| == 1 ==> h.calls[0].Verify?
  {
    if !Present(secret) then
      Handled(Crash(MissingWebhookSecret), [])
    else if !HasSvixHeaders(req) then
      Handled(Respond(400, Text("No svix headers found")), [])
    else if req.payload.None? then
      Handled(Crash(SyntaxError), [])
    else
      var headers := SvixHeaders(req.svixId.value, req.svixTimestamp.value, req.svixSignature.value);
      var verified := verify(req.payload.value, headers, secret.value);
      var calls := [Verify(req.payload.value, headers)];
      if verified.None? then
        Handled(Respond(400, Text("Error occurred")), calls)
      else if verified.value.eventType != "user.created" then
        Handled(Respond(200, Text("Webhooks processed successfully")), calls)
      else
        var u := verified.value.user;
        if u.emailAddresses == [] then
          // `email_addresses[0].email_address` reads a field of undefined
          Handled(Crash(TypeError), calls)
        else
          var sync := SyncUser(u.emailAddresses[0], JoinedName(u.firstName, u.lastName), u.imageUrl, u.id);
          if syncSucceeds then
            Handled(Respond(200, Text("Webhooks processed successfully")), calls + [sync])
          else
            Handled(Respond(500, Text("Error creating user")), calls + [sync])
  }

  /** An unset secret throws before anything else happens. */
  lemma WebhookSecretFirst(
    secret: Option<string>, req: WebhookRequest,
    verify: (string, SvixHeaders, string) -> Option<WebhookEvent>, syncSucceeds: bool)
    requires !Present(secret)
    ensures ClerkWebhook(secret, req, verify, syncSucceeds) == Handled(Crash(MissingWebhookSecret), [])
  {
  }

  /** A missing svix header is a 400 and the signature is never checked. */
  lemma WebhookMissingHeaders(
    secret: Option<string>, req: WebhookRequest,
    verify: (string, SvixHeaders, string) -> Option<WebhookEvent>, syncSucceeds: bool)
    requires Present(secret) && !HasSvixHeaders(req)
    ensures ClerkWebhook(secret, req, verify, syncSucceeds).reply == Respond(400, Text("No svix headers found"))
    ensures ClerkWebhook(secret, req, verify, syncSucceeds).calls == []
  {
  }

  /** The outcome of a request that reaches verification: a failed check is
      a 400; a `user.created` event with an email syncs the user exactly once
      under its trimmed full name, and the reply is 500 exactly when that
      call fails; every other event is a 200. */
  lemma WebhookVerified(
    secret: Option<string>, req: WebhookRequest,
    verify: (string, SvixHeaders, string) -> Option<WebhookEvent>, syncSucceeds: bool)
    requires Present(secret) && HasSvixHeaders(req) && req.payload.Some?
    ensures var h := ClerkWebhook(secret, req, verify, syncSucceeds);
      var headers := SvixHeaders(req.svixId.value, req.svixTimestamp.value, req.svixSignature.value);
      var verified := verify(req.payload.value, headers, secret.value);
      && h.calls[0] == Verify(req.payload.value, headers)
      && (verified.None? ==> h.reply == Respond(400, Text("Error occurred")) && |h.calls| == 1)
      && (verified.Some? && verified.value.eventType != "user.created" ==> h.reply.Respond? && h.reply.status == 200 && |h.calls| == 1)
      && (verified.Some? && verified.value.eventType == "user.created" && verified.value.user.emailAddresses != [] ==>
            var u := verified.value.user;
            && h.calls == [Verify(req.payload.value, headers), SyncUser(u.emailAddresses[0], JoinedName(u.firstName, u.lastName), u.imageUrl, u.id)]
            && h.reply.Respond?
            && (h.reply.status == 500 <==> !syncSucceeds)
            && (h.reply.status == 200 <==> syncSucceeds))
  {
  }

  /** A signup event without an email address throws when its first address
      is read, after the signature check and before any store call. */
  lemma WebhookEmptyEmails(
    secret: Option<string>, req: WebhookRequest,
    verify: (string, SvixHeaders, string) -> Option<WebhookEvent>, syncSucceeds: bool)
    requires Present(secret) && HasSvixHeaders(req) && req.payload.Some?
    requires var headers := SvixHeaders(req.svixId.value, req.svixTimestamp.value, req.svixSignature.value);
      var verified := verify(req.payload.value, headers, secret.value);
      verified.Some? && verified.value.eventType == "user.created" && verified.value.user.emailAddresses == []
    ensures var headers := SvixHeaders(req.svixId.value, req.svixTimestamp.value, req.svixSignature.value);
      ClerkWebhook(secret, req, verify, syncSucceeds) == Handled(Crash(TypeError), [Verify(req.payload.value, headers)])
  {
  }

  /** A 200 means either the event was not a signup or the signup reached the store. */
  lemma WebhookSuccessMeansSynced(
    secret: Option<string>, req: WebhookRequest,
    verify: (string, SvixHeaders, string) -> Option<WebhookEvent>, syncSucceeds: bool)
    ensures var h := ClerkWebhook(secret, req, verify, syncSucceeds);
      h.reply.Respond? && h.reply.status == 200 ==>
        |h.calls| >= 1 && h.calls[0].Verify?
        && var e := verify(h.calls[0].payload, h.calls[0].headers, secret.value);
           e.Some? && (e.value.eventType == "user.created" ==> |h.calls| == 2 && syncSucceeds)
  {
  }

  // ==================================================== /vapi/generate-program

  /** `secretHeader` is `x-vapi-secret`; `payload` is the decoded body, or
      None when `request.json()` throws. */
  datatype ProgramRequest = ProgramRequest(secretHeader: Option<string>, payload: Option<Json>)

  /** A chat completion: it threw, or it returned this message content. */
  datatype Completion = Threw(message: string) | Replied(content: Option<string>)

  /** The plan store's createPlan: the new plan's id, or the message it threw. */
  datatype Stored = Saved(planId: string) | StoreThrew(reason: string)

  /** The argument bundle with `||` defaults applied. */
  datatype Settings = Settings(goal: Json, days: Json, age: Json, level: Json, restrictions: Json)

  /** A `JSON.parse` that reads `"{}"` as the empty object. */
  ghost predicate ParsesEmptyObject(parse: string -> Option<Json>) {
    parse("{}") == Some(Obj(map[]))
  }

  /** `payload.message?.toolCalls` */
  function ToolCalls(payload: Json): Json {
    OptGet(OptGet(payload, "message"), "toolCalls")
  }

  /** The arguments of the tool call: `toolCalls[0].function.arguments`,
      JSON-decoded when they arrive as a string, or else the whole payload. */
  function ExtractArgs(payload: Json, parse: string -> Option<Json>): (r: Result<Json>)
    ensures Nullish(payload) ==> r == Err(TypeError)
    ensures !Truthy(ToolCalls(payload)) && !Nullish(payload) ==> r == Ok(payload)
    ensures Truthy(ToolCalls(payload)) && ToolCalls(payload).Arr? && ToolCalls(payload).items == [] ==> r == Err(TypeError)
    ensures var tcs := ToolCalls(payload);
      tcs.Arr? && tcs.items != [] && (Nullish(tcs.items[0]) || Nullish(Field(tcs.items[0], "function"))) ==> r == Err(TypeError)
    ensures var tcs := ToolCalls(payload);
      tcs.Arr? && tcs.items != [] && !Nullish(tcs.items[0]) && !Nullish(Field(tcs.items[0], "function")) ==>
        var a := Field(Field(tcs.items[0], "function"), "arguments");
        && (!a.Str? ==> r == Ok(a))
        && (a.Str? && parse(a.s).Some? ==> r == Ok(parse(a.s).value))
        && (a.Str? && parse(a.s).None? ==> r == Err(SyntaxError))
  {
    var message :- Get(payload, "message");
    var toolCalls := OptGet(message, "toolCalls");
    if !Truthy(toolCalls) then Ok(payload)
    else
      var toolCall := Index0(toolCalls).value;
      var fn :- Get(toolCall, "function");
      var arguments :- Get(fn, "arguments");
      if arguments.Str? then
        match parse(arguments.s)
        case None => Err(SyntaxError)
        case Some(args) => Ok(args)
      else Ok(arguments)
  }

  /** The `||` defaults: goal "general fitness", 3 days, age 25, level
      "beginner", restrictions "none". */
  function ResolveSettings(args: Json): (s: Settings)
    requires !Nullish(args)
    ensures Truthy(s.goal) && Truthy(s.days) && Truthy(s.age) && Truthy(s.level) && Truthy(s.restrictions)
    ensures Truthy(Field(args, "fitness_goal")) ==> s.goal == Field(args, "fitness_goal")
    ensures Truthy(Field(args, "workout_days")) ==> s.days == Field(args, "workout_days")
    ensures Truthy(Field(args, "age")) ==> s.age == Field(args, "age")
    ensures Truthy(Field(args, "fitness_level")) ==> s.level == Field(args, "fitness_level")
    ensures Truthy(Field(args, "dietary_restrictions")) ==> s.restrictions == Field(args, "dietary_restrictions")
    ensures !Truthy(Field(args, "fitness_goal")) ==> s.goal == Str("general fitness")
    ensures !Truthy(Field(args, "workout_days")) ==> s.days == Number(Int(3))
    ensures !Truthy(Field(args, "age")) ==> s.age == Number(Int(25))
    ensures !Truthy(Field(args, "fitness_level")) ==> s.level == Str("beginner")
    ensures !Truthy(Field(args, "dietary_restrictions")) ==> s.restrictions == Str("none")
  {
    Settings(
      Or(Field(args, "fitness_goal"), Str("general fitness")),
      Or(Field(args, "workout_days"), Number(Int(3))),
      Or(Field(args, "age"), Number(Int(25))),
      Or(Field(args, "fitness_level"), Str("beginner")),
      Or(Field(args, "dietary_restrictions"), Str("none")))
  }

  /** An argument bundle that sets none of the optional fields gets every default. */
  lemma SettingsDefaults(args: Json)
    requires !Nullish(args)
    requires forall key :: key in {"fitness_goal", "workout_days", "age", "fitness_level", "dietary_restrictions"} ==> !Truthy(Field(args, key))
    ensures ResolveSettings(args) == Settings(Str("general fitness"), Number(Int(3)), Number(Int(25)), Str("beginner"), Str("none"))
  {
    assert !Truthy(Field(args, "fitness_goal"));
    assert !Truthy(Field(args, "workout_days"));
    assert !Truthy(Field(args, "age"));
    assert !Truthy(Field(args, "fitness_level"));
    assert !Truthy(Field(args, "dietary_restrictions"));
  }

  /** `JSON.parse(content || "{}")`: missing or empty content is read as
      "{}"; any other content is parsed, and a parse failure throws. */
  function ParseContent(content: Option<string>, parse: string -> Option<Json>): (r: Result<Json>)
    ensures r.Err? ==> r == Err(SyntaxError)
    ensures ParsesEmptyObject(parse) && (content.None? || content == Some("")) ==> r == Ok(Obj(map[]))
    ensures content.Some? && content.value != "" ==>
      (r.Ok? <==> parse(content.value).Some?) && (r.Ok? ==> Some(r.value) == parse(content.value))
  {
    var text := if content.None? || content.value == "" then "{}" else content.value;
    match parse(text)
    case None => Err(SyntaxError)
    case Some(j) => Ok(j)
  }

  /** Both completions normalised: the workout plan first, then the diet plan. */
  function NormalisePlans(workout: Completion, diet: Completion, parse: string -> Option<Json>): (r: Result<(WorkoutPlan, DietPlan)>)
    requires workout.Replied? && diet.Replied?
    ensures var w := ParseContent(workout.content, parse);
      var d := ParseContent(diet.content, parse);
      r.Ok? <==> w.Ok? && AcceptsWorkout(w.value) && d.Ok? && AcceptsDiet(d.value)
    ensures r.Ok? ==>
      && Ok(r.value.0) == ValidateWorkout(ParseContent(workout.content, parse).value)
      && Ok(r.value.1) == ValidateDiet(ParseContent(diet.content, parse).value)
    ensures ParseContent(workout.content, parse).Err? ==> r == Err(SyntaxError)
  {
    var w :- ParseContent(workout.content, parse);
    var workoutPlan :- ValidateWorkout(w);
    var d :- ParseContent(diet.content, parse);
    var dietPlan :- ValidateDiet(d);
    Ok((workoutPlan, dietPlan))
  }

  /** `payload.message?.toolCalls?.[0]?.id`: the first tool call's id, or
      undefined when there is no tool call. */
  function ToolCallId(payload: Json): (r: Json)
    ensures !Truthy(ToolCalls(payload)) ==> r == Undefined
    ensures var tcs := ToolCalls(payload);
      tcs.Arr? && tcs.items != [] && tcs.items[0].Obj? ==> r == Field(tcs.items[0], "id")
  {
    OptGet(OptIndex0(ToolCalls(payload)), "id")
  }

  function SavedMessage(planId: string): string {
    "Successfully generated and saved plan " + planId + "."
  }

  function Failed(f: Fault, calls: seq<Call>): Handled {
    Handled(Respond(500, ErrorBody(f)), calls)
  }

  /** The body of the handler's try block: every exception becomes a 500
      carrying its message, a missing user id is the only 400, and the calls
      made are always a prefix of the route's three calls. */
  function GenerateInTry(
    payload: Option<Json>,
    parse: string -> Option<Json>,
    workoutReply: Completion,
    dietReply: Completion,
    stored: Stored): (h: Handled)
    ensures h.reply.Respond? && h.reply.status in {200, 400, 500}
    ensures h.reply.status == 500 <==> h.reply.body.ErrorBody?
    ensures h.reply.status == 400 ==> h.reply.body == Text("Missing user_id") && h.calls == []
    ensures CallsInOrder(h.calls)
  {
    if payload.None? then Failed(SyntaxError, [])
    else
      match ExtractArgs(payload.value, parse)
      case Err(f) => Failed(f, [])
      case Ok(args) =>
        if Nullish(args) then Failed(TypeError, [])
        else
          var userId := Field(args, "user_id");
          if !Truthy(userId) then Handled(Respond(400, Text("Missing user_id")), [])
          else GenerateForUser(ToolCallId(payload.value), userId, ResolveSettings(args), parse, workoutReply, dietReply, stored)
  }

  /** The try block once the user id is known and the settings resolved: the
      two completions, the normalisation and the store, in that order. */
  function GenerateForUser(
    callId: Json,
    userId: Json,
    s: Settings,
    parse: string -> Option<Json>,
    workoutReply: Completion,
    dietReply: Completion,
    stored: Stored): (h: Handled)
    ensures h.reply.Respond? && h.reply.status in {200, 500}
    ensures h.reply.status == 500 <==> h.reply.body.ErrorBody?
    ensures CallsInOrder(h.calls)
  {
    // the log line and the workout prompt interpolate these values
    if !(Printable(userId) && Printable(s.days) && Printable(s.age) && Printable(s.level) && Printable(s.goal)) then
      Failed(TypeError, [])
    else
      var c1 := [WorkoutCompletion(s.days, s.age, s.level, s.goal)];
      if workoutReply.Threw? then Failed(Error(workoutReply.message), c1)
      // the diet prompt interpolates the restrictions
      else if !Printable(s.restrictions) then Failed(TypeError, c1)
      else
        var c2 := [c1[0], DietCompletion(s.goal, s.restrictions)];
        if dietReply.Threw? then Failed(Error(dietReply.message), c2)
        else
          match NormalisePlans(workoutReply, dietReply, parse)
          case Err(f) => Failed(f, c2)
          case Ok((workoutPlan, dietPlan)) =>
            var c3 := [c2[0], c2[1], CreatePlan(userId, dietPlan, workoutPlan, true, ToStr(s.goal) + " Plan")];
            match stored
            case StoreThrew(reason) => Failed(Error(reason), c3)
            case Saved(planId) => Handled(Respond(200, ToolResults(callId, SavedMessage(planId))), c3)
  }

  /** The plan-generation route. */
  function GenerateProgram(
    vapiSecret: Option<string>,
    req: ProgramRequest,
    parse: string -> Option<Json>,
    workoutReply: Completion,
    dietReply: Completion,
    stored: Stored): (h: Handled)
    ensures h.reply.Respond?
    ensures h.reply.status in {200, 400, 401, 500}
    ensures h.reply.status in {400, 401} ==> h.calls == []
  {
    if Present(vapiSecret) && req.secretHeader != Some(vapiSecret.value) then
      Handled(Respond(401, Text("Unauthorized")), [])
    else
      GenerateInTry(req.payload, parse, workoutReply, dietReply, stored)
  }

  /** The external calls come in one order only: the workout completion,
      then the diet completion, then a single createPlan with isActive set.
      A 200 means all three happened. */
  predicate CallsInOrder(calls: seq<Call>) {
    && |calls| <= 3
    && (|calls| > 0 ==> calls[0].WorkoutCompletion?)
    && (|calls| > 1 ==> calls[1].DietCompletion?)
    && (|calls| > 2 ==> calls[2].CreatePlan? && calls[2].isActive)
  }

  lemma GenerateCallOrder(
    vapiSecret: Option<string>, req: ProgramRequest, parse: string -> Option<Json>,
    workoutReply: Completion, dietReply: Completion, stored: Stored)
    ensures var h := GenerateProgram(vapiSecret, req, parse, workoutReply, dietReply, stored);
      && CallsInOrder(h.calls)
      && (h.reply.status == 200 <==> |h.calls| == 3 && stored.Saved?)
  {
  }

  /** With a secret configured, a request without the matching header is a
      401 and nothing else happens. */
  lemma GenerateUnauthorized(
    vapiSecret: Option<string>, req: ProgramRequest, parse: string -> Option<Json>,
    workoutReply: Completion, dietReply: Completion, stored: Stored)
    requires Present(vapiSecret) && req.secretHeader != vapiSecret
    ensures GenerateProgram(vapiSecret, req, parse, workoutReply, dietReply, stored) == Handled(Respond(401, Text("Unauthorized")), [])
  {
  }

  /** With no secret configured the header is not looked at. */
  lemma GenerateWithoutSecret(
    vapiSecret: Option<string>, req: ProgramRequest, header: Option<string>, parse: string -> Option<Json>,
    workoutReply: Completion, dietReply: Completion, stored: Stored)
    requires !Present(vapiSecret)
    ensures GenerateProgram(vapiSecret, req, parse, workoutReply, dietReply, stored)
         == GenerateProgram(vapiSecret, req.(secretHeader := header), parse, workoutReply, dietReply, stored)
  {
  }

  /** A bundle without a truthy user_id is a 400 before any completion or
      store call. */
  lemma GenerateMissingUserId(
    vapiSecret: Option<string>, req: ProgramRequest, parse: string -> Option<Json>,
    workoutReply: Completion, dietReply: Completion, stored: Stored)
    requires !Present(vapiSecret) || req.secretHeader == vapiSecret
    requires req.payload.Some? && ExtractArgs(req.payload.value, parse).Ok?
    requires var args := ExtractArgs(req.payload.value, parse).value; !Nullish(args) && !Truthy(Field(args, "user_id"))
    ensures GenerateProgram(vapiSecret, req, parse, workoutReply, dietReply, stored) == Handled(Respond(400, Text("Missing user_id")), [])
  {
  }

  /** An empty toolCalls array throws when its first element is read: a 500
      with no external call. */
  lemma GenerateEmptyToolCalls(
    vapiSecret: Option<string>, req: ProgramRequest, parse: string -> Option<Json>,
    workoutReply: Completion, dietReply: Completion, stored: Stored)
    requires !Present(vapiSecret) || req.secretHeader == vapiSecret
    requires req.payload.Some? && ToolCalls(req.payload.value) == Arr([])
    ensures GenerateProgram(vapiSecret, req, parse, workoutReply, dietReply, stored) == Failed(TypeError, [])
  {
  }

  /** A successful request: both completions go out with the resolved
      settings, createPlan gets the normalised plans, isActive and the name
      "<goal> Plan", and the reply echoes the tool call's id and the new plan's id. */
  lemma GenerateSuccess(
    vapiSecret: Option<string>, req: ProgramRequest, parse: string -> Option<Json>,
    workoutReply: Completion, dietReply: Completion, stored: Stored)
    requires GenerateProgram(vapiSecret, req, parse, workoutReply, dietReply, stored).reply.status == 200
    ensures req.payload.Some? && ExtractArgs(req.payload.value, parse).Ok?
    ensures var args := ExtractArgs(req.payload.value, parse).value;
      !Nullish(args) && Truthy(Field(args, "user_id")) && workoutReply.Replied? && dietReply.Replied? && stored.Saved?
      && NormalisePlans(workoutReply, dietReply, parse).Ok?
      && var s := ResolveSettings(args);
         var plans := NormalisePlans(workoutReply, dietReply, parse).value;
         && Printable(Field(args, "user_id"))
         && Printable(s.goal) && Printable(s.days) && Printable(s.age) && Printable(s.level) && Printable(s.restrictions)
         && GenerateProgram(vapiSecret, req, parse, workoutReply, dietReply, stored) == Handled(
           Respond(200, ToolResults(ToolCallId(req.payload.value), SavedMessage(stored.planId))),
           [ WorkoutCompletion(s.days, s.age, s.level, s.goal),
             DietCompletion(s.goal, s.restrictions),
             CreatePlan(Field(args, "user_id"), plans.1, plans.0, true, ToStr(s.goal) + " Plan")])
  {
    assert GenerateProgram(vapiSecret, req, parse, workoutReply, dietReply, stored)
        == GenerateInTry(req.payload, parse, workoutReply, dietReply, stored);
    var args := ExtractArgs(req.payload.value, parse).value;
    assert GenerateInTry(req.payload, parse, workoutReply, dietReply, stored)
        == GenerateForUser(ToolCallId(req.payload.value), Field(args, "user_id"), ResolveSettings(args), parse, workoutReply, dietReply, stored);
  }

  /** A fitness goal that is an object with its own `toString` field makes
      the first prompt's template throw: a 500 before any external call. */
  lemma GenerateUnprintableGoal(
    vapiSecret: Option<string>, req: ProgramRequest, parse: string -> Option<Json>,
    workoutReply: Completion, dietReply: Completion, stored: Stored)
    requires !Present(vapiSecret) || req.secretHeader == vapiSecret
    requires req.payload.Some? && ExtractArgs(req.payload.value, parse).Ok?
    requires var args := ExtractArgs(req.payload.value, parse).value;
      && !Nullish(args) && Truthy(Field(args, "user_id"))
      && Field(args, "fitness_goal").Obj? && "toString" in Field(args, "fitness_goal").fields
    ensures GenerateProgram(vapiSecret, req, parse, workoutReply, dietReply, stored) == Failed(TypeError, [])
  {
    var args := ExtractArgs(req.payload.value, parse).value;
    assert !Printable(ResolveSettings(args).goal);
  }

  /** Empty or missing completion content reads as "{}": the default plans
      are stored. */
  lemma GenerateEmptyContent(
    vapiSecret: Option<string>, req: ProgramRequest, parse: string -> Option<Json>,
    workoutContent: Option<string>, dietContent: Option<string>, stored: Stored)
    requires ParsesEmptyObject(parse)
    requires workoutContent in {None, Some("")} && dietContent in {None, Some("")}
    ensures NormalisePlans(Replied(workoutContent), Replied(dietContent), parse)
         == Ok((WorkoutPlan(DefaultSchedule, []), DietPlan(DefaultCalories, [])))
  {
    EmptyWorkout();
    assert ValidateDiet(Obj(map[])) == Ok(DietPlan(DefaultCalories, []));
  }

  /** Non-empty content that is not JSON makes `JSON.parse` throw: once both
      completions have been made, a 500 before any store call. */
  lemma GenerateMalformedContent(
    vapiSecret: Option<string>, req: ProgramRequest, parse: string -> Option<Json>,
    workoutText: string, dietReply: Completion, stored: Stored)
    requires |GenerateProgram(vapiSecret, req, parse, Replied(Some(workoutText)), dietReply, stored).calls| >= 2
    requires workoutText != "" && parse(workoutText).None? && dietReply.Replied?
    ensures var h := GenerateProgram(vapiSecret, req, parse, Replied(Some(workoutText)), dietReply, stored);
      h.reply == Respond(500, ErrorBody(SyntaxError)) && |h.calls| == 2
  {
  }

  /** A request body carrying one tool call with this id and these arguments. */
  function Envelope(id: Json, arguments: Json): Json {
    Obj(map["message" := Obj(map["toolCalls" := Arr([Obj(map["id" := id, "function" := Obj(map["arguments" := arguments])])])])])
  }

  /** The reply to an enveloped tool call echoes its id. */
  lemma EnvelopeId(id: Json, arguments: Json)
    ensures ToolCallId(Envelope(id, arguments)) == id
  {
    var tc := Obj(map["id" := id, "function" := Obj(map["arguments" := arguments])]);
    assert ToolCalls(Envelope(id, arguments)) == Arr([tc]);
  }

  /** A tool call with its arguments as a JSON string is handled exactly as
      the same call with the decoded arguments inline. */
  lemma StringArgumentsLikeObject(
    vapiSecret: Option<string>, header: Option<string>, id: Json, text: string, decoded: Json,
    parse: string -> Option<Json>, workoutReply: Completion, dietReply: Completion, stored: Stored)
    requires parse(text) == Some(decoded) && !decoded.Str?
    ensures GenerateProgram(vapiSecret, ProgramRequest(header, Some(Envelope(id, Str(text)))), parse, workoutReply, dietReply, stored)
         == GenerateProgram(vapiSecret, ProgramRequest(header, Some(Envelope(id, decoded))), parse, workoutReply, dietReply, stored)
  {
    var p1 := Envelope(id, Str(text));
    var p2 := Envelope(id, decoded);
    EnvelopeArguments(id, Str(text), parse);
    EnvelopeArguments(id, decoded, parse);
    EnvelopeId(id, Str(text));
    EnvelopeId(id, decoded);
    SameArgumentsSameOutcome(Some(p1), Some(p2), parse, workoutReply, dietReply, stored);
  }

  /** The arguments of an enveloped tool call: as they are, or decoded when a string. */
  lemma EnvelopeArguments(id: Json, arguments: Json, parse: string -> Option<Json>)
    ensures !arguments.Str? ==> ExtractArgs(Envelope(id, arguments), parse) == Ok(arguments)
    ensures arguments.Str? && parse(arguments.s).Some? ==>
      ExtractArgs(Envelope(id, arguments), parse) == Ok(parse(arguments.s).value)
  {
    var tc := Obj(map["id" := id, "function" := Obj(map["arguments" := arguments])]);
    assert ToolCalls(Envelope(id, arguments)) == Arr([tc]);
  }

  /** The try block looks at the body only through its arguments and tool call id. */
  lemma SameArgumentsSameOutcome(
    p1: Option<Json>, p2: Option<Json>, parse: string -> Option<Json>,
    workoutReply: Completion, dietReply: Completion, stored: Stored)
    requires p1.Some? && p2.Some?
    requires ExtractArgs(p1.value, parse) == ExtractArgs(p2.value, parse)
    requires ToolCallId(p1.value) == ToolCallId(p2.value)
    ensures GenerateInTry(p1, parse, workoutReply, dietReply, stored) == GenerateInTry(p2, parse, workoutReply, dietReply, stored)
  {
  }
}
