/**
 * The order of the steps in `Publish::run`: check the supplied routing URL
 * (unless the bypass flag is set), build the authenticated client, fetch and
 * check the current routing URL when none was supplied, announce the publish,
 * read the schema, and publish. The collaborators (the credential resolver,
 * the two API calls and the schema reader) are black boxes whose answers are
 * given up front; the run records which of them it called, in order, as a list
 * of steps.
 *
 * The pure specification takes the routing-URL check as a parameter, so the
 * ordering lemmas hold for any check; `Run` instantiates it with
 * `handle_maybe_invalid_routing_url`.
 */
module PublishCommand {
  import opened Wrappers
  import opened Errors
  import opened Url
  import opened Streams
  import opened Text
  import opened RoutingUrlCheck

  /** The options the order of the steps depends on. */
  datatype Command = Command(
    graphRef: string,
    subgraphName: string,
    profileName: string,
    routingUrl: Option<string>,
    allowInvalidRoutingUrl: bool,
    convert: bool)

  /** What the publish call is given (the git context is not modelled). */
  datatype PublishInput = PublishInput(
    graphRef: string,
    subgraph: string,
    url: Option<string>,
    schema: string,
    convertToFederatedGraph: bool)

  /** The answer of the publish API, left uninterpreted. */
  type PublishResponse = string

  /** What each collaborator answers when it is called. */
  datatype Collaborators = Collaborators(
    client: Result<(), Error>,
    fetchedRoutingUrl: Result<string, Error>,
    schema: Result<string, Error>,
    publish: Result<PublishResponse, Error>)

  /** One step of the run, recorded when it starts. */
  datatype Step =
    | CheckRoutingUrl(url: Option<string>)
    | AuthenticateClient
    | FetchRoutingUrl(graphRef: string, subgraphName: string)
    | ReadSchema
    | PublishSchema(input: PublishInput)

  datatype RoverOutput = SubgraphPublishResponse(graphRef: string, subgraph: string, publishResponse: PublishResponse)

  /** The steps taken, the text written to standard error, the input left, and the result. */
  datatype RunEffect = RunEffect(steps: seq<Step>, output: string, rest: seq<Byte>, result: Result<RoverOutput, Error>)

  /** A routing-URL check: what it writes, what input it leaves, whether it passes. */
  type Checker = (Option<string>, seq<Byte>) -> Effect<()>

  /** `handle_maybe_invalid_routing_url` with the parser and the terminal flag fixed. */
  function RoutingUrlChecker(parse: Parser, isAtty: bool): Checker {
    (maybeUrl: Option<string>, input: seq<Byte>) => Handle(maybeUrl, parse, isAtty, input)
  }

  /** The line announcing the publish, written to standard error before the schema is read. */
  function Banner(cmd: Command): string {
    "Publishing SDL to " + cmd.graphRef + " (subgraph: " + cmd.subgraphName
      + ") using credentials from the " + cmd.profileName + " profile.\n"
  }

  /** The announcement names the graph ref, the subgraph and the profile, and ends the line. */
  lemma BannerNamesTarget(cmd: Command)
    ensures Contains(Banner(cmd), cmd.graphRef)
    ensures Contains(Banner(cmd), cmd.subgraphName)
    ensures Contains(Banner(cmd), cmd.profileName)
    ensures Banner(cmd)[|Banner(cmd)| - 1] == '\n'
  {
    var a := "Publishing SDL to " + cmd.graphRef;
    var b := a + " (subgraph: " + cmd.subgraphName;
    var c := b + ") using credentials from the " + cmd.profileName;
    var tail := " profile.\n";
    assert Banner(cmd) == c + tail;

    ContainsSuffix("Publishing SDL to ", cmd.graphRef);
    ContainsBefore(a, " (subgraph: ", cmd.graphRef);
    ContainsBefore(a + " (subgraph: ", cmd.subgraphName, cmd.graphRef);
    ContainsBefore(b, ") using credentials from the ", cmd.graphRef);
    ContainsBefore(b + ") using credentials from the ", cmd.profileName, cmd.graphRef);
    ContainsBefore(c, tail, cmd.graphRef);

    ContainsSuffix(a + " (subgraph: ", cmd.subgraphName);
    ContainsBefore(b, ") using credentials from the ", cmd.subgraphName);
    ContainsBefore(b + ") using credentials from the ", cmd.profileName, cmd.subgraphName);
    ContainsBefore(c, tail, cmd.subgraphName);

    ContainsSuffix(b + ") using credentials from the ", cmd.profileName);
    ContainsBefore(c, tail, cmd.profileName);
  }

  /** The part of the run after the routing URL is settled: announce, read the schema, publish. */
  function PublishStage(cmd: Command, env: Collaborators, steps: seq<Step>, output: string, rest: seq<Byte>): (r: RunEffect)
    ensures r.rest == rest && r.output == output + Banner(cmd)
    ensures |r.steps| == |steps| + (if env.schema.Ok? then 2 else 1) && r.steps[..|steps|] == steps
    ensures r.steps[|steps|] == ReadSchema
    ensures env.schema.Ok? ==>
              r.steps[|r.steps| - 1] == PublishSchema(PublishInput(cmd.graphRef, cmd.subgraphName, cmd.routingUrl, env.schema.value, cmd.convert))
    ensures r.result.Ok? <==> env.schema.Ok? && env.publish.Ok?
  {
    var read := steps + [ReadSchema];
    var announced := output + Banner(cmd);
    if env.schema.Err? then RunEffect(read, announced, rest, Err(env.schema.error))
    else
      var input := PublishInput(cmd.graphRef, cmd.subgraphName, cmd.routingUrl, env.schema.value, cmd.convert);
      var published := read + [PublishSchema(input)];
      if env.publish.Err? then RunEffect(published, announced, rest, Err(env.publish.error))
      else RunEffect(published, announced, rest, Ok(SubgraphPublishResponse(cmd.graphRef, cmd.subgraphName, env.publish.value)))
  }

  /** The part of the run after the client is built: fetch and check a URL if none was supplied. */
  function FetchStage(cmd: Command, env: Collaborators, check: Checker,
                      steps: seq<Step>, output: string, rest: seq<Byte>): (r: RunEffect)
    ensures r.result.Ok? ==>
              cmd.routingUrl.Some? || (env.fetchedRoutingUrl.Ok? && check(Some(env.fetchedRoutingUrl.value), rest).result.Ok?)
    ensures cmd.routingUrl.Some? ==> r.rest == rest
  {
    if cmd.routingUrl.Some? then PublishStage(cmd, env, steps, output, rest)
    else
      var fetching := steps + [FetchRoutingUrl(cmd.graphRef, cmd.subgraphName)];
      if env.fetchedRoutingUrl.Err? then RunEffect(fetching, output, rest, Err(env.fetchedRoutingUrl.error))
      else
        var fetched := env.fetchedRoutingUrl.value;
        var checked := fetching + [CheckRoutingUrl(Some(fetched))];
        var e := check(Some(fetched), rest);
        if e.result.Err? then RunEffect(checked, output + e.output, e.rest, Err(e.result.error))
        else PublishStage(cmd, env, checked, output + e.output, e.rest)
  }

  /** `Publish::run` as a function of the command, the collaborators' answers, the check and the input. */
  function RunSpec(cmd: Command, env: Collaborators, check: Checker, input: seq<Byte>): (r: RunEffect)
    ensures |r.steps| > 0
    ensures r.result.Ok? ==> r.steps[|r.steps| - 1].PublishSchema? && r.steps[|r.steps| - 1].input.url == cmd.routingUrl
  {
    var checks := if cmd.allowInvalidRoutingUrl then [] else [CheckRoutingUrl(cmd.routingUrl)];
    var first := if cmd.allowInvalidRoutingUrl then Effect([], input, Ok(())) else check(cmd.routingUrl, input);
    if first.result.Err? then RunEffect(checks, first.output, first.rest, Err(first.result.error))
    else
      var authenticated := checks + [AuthenticateClient];
      if env.client.Err? then RunEffect(authenticated, first.output, first.rest, Err(env.client.error))
      else FetchStage(cmd, env, check, authenticated, first.output, first.rest)
  }

  /** The run, step by step, checking the routing URL on standard error and standard input. */
  method Run(cmd: Command, env: Collaborators, parse: Parser, stderr: Writer, stdin: Reader, isAtty: bool)
    returns (r: Result<RoverOutput, Error>, steps: seq<Step>)
    modifies stderr, stdin
    ensures steps == RunSpec(cmd, env, RoutingUrlChecker(parse, isAtty), old(stdin.remaining)).steps
    ensures stderr.buffer == old(stderr.buffer) + RunSpec(cmd, env, RoutingUrlChecker(parse, isAtty), old(stdin.remaining)).output
    ensures stdin.remaining == RunSpec(cmd, env, RoutingUrlChecker(parse, isAtty), old(stdin.remaining)).rest
    ensures r == RunSpec(cmd, env, RoutingUrlChecker(parse, isAtty), old(stdin.remaining)).result
  {
    ghost var check := RoutingUrlChecker(parse, isAtty);
    ghost var input := stdin.remaining;
    ghost var spec := RunSpec(cmd, env, check, input);
    ghost var first := if cmd.allowInvalidRoutingUrl then Effect([], input, Ok(())) else Handle(cmd.routingUrl, parse, isAtty, input);
    assert !cmd.allowInvalidRoutingUrl ==> first == check(cmd.routingUrl, input);
    steps := [];
    if !cmd.allowInvalidRoutingUrl {
      steps := [CheckRoutingUrl(cmd.routingUrl)];
      var checked := HandleMaybeInvalidRoutingUrl(cmd.routingUrl, parse, stderr, stdin, isAtty);
      if checked.Err? {
        assert spec == RunEffect(steps, first.output, first.rest, Err(checked.error));
        return Err(checked.error), steps;
      }
    }
    assert first.result.Ok? && stderr.buffer == old(stderr.buffer) + first.output && stdin.remaining == first.rest;

    steps := steps + [AuthenticateClient];
    if env.client.Err? {
      assert spec == RunEffect(steps, first.output, first.rest, Err(env.client.error));
      return Err(env.client.error), steps;
    }
    ghost var later := FetchStage(cmd, env, check, steps, first.output, first.rest);
    assert spec == later;
    r, steps := FetchAndPublish(cmd, env, parse, stderr, stdin, isAtty, steps, old(stderr.buffer), first.output);
    assert steps == later.steps && r == later.result;
    assert stderr.buffer == old(stderr.buffer) + later.output && stdin.remaining == later.rest;
  }

  /** The rest of the run once the client is built, from the `steps0` and `output` so far. */
  method FetchAndPublish(cmd: Command, env: Collaborators, parse: Parser, stderr: Writer, stdin: Reader, isAtty: bool,
                         steps0: seq<Step>, ghost prefix: string, ghost output: string)
    returns (r: Result<RoverOutput, Error>, steps: seq<Step>)
    requires stderr.buffer == prefix + output
    modifies stderr, stdin
    ensures steps == FetchStage(cmd, env, RoutingUrlChecker(parse, isAtty), steps0, output, old(stdin.remaining)).steps
    ensures stderr.buffer == prefix + FetchStage(cmd, env, RoutingUrlChecker(parse, isAtty), steps0, output, old(stdin.remaining)).output
    ensures stdin.remaining == FetchStage(cmd, env, RoutingUrlChecker(parse, isAtty), steps0, output, old(stdin.remaining)).rest
    ensures r == FetchStage(cmd, env, RoutingUrlChecker(parse, isAtty), steps0, output, old(stdin.remaining)).result
  {
    steps := steps0;
    ghost var out := output;
    if cmd.routingUrl.None? {
      steps := steps + [FetchRoutingUrl(cmd.graphRef, cmd.subgraphName)];
      if env.fetchedRoutingUrl.Err? {
        return Err(env.fetchedRoutingUrl.error), steps;
      }
      var fetchResponse := env.fetchedRoutingUrl.value;
      steps := steps + [CheckRoutingUrl(Some(fetchResponse))];
      ghost var e := Handle(Some(fetchResponse), parse, isAtty, stdin.remaining);
      assert e == RoutingUrlChecker(parse, isAtty)(Some(fetchResponse), stdin.remaining);
      var checked := HandleMaybeInvalidRoutingUrl(Some(fetchResponse), parse, stderr, stdin, isAtty);
      out := output + e.output;
      Regroup(prefix, output, e.output);
      if checked.Err? {
        return Err(checked.error), steps;
      }
    }
    r, steps := AnnounceAndPublish(cmd, env, stderr, steps, prefix, out, stdin.remaining);
  }

  /** Announce the publish, read the schema, then publish it with the supplied routing URL. */
  method AnnounceAndPublish(cmd: Command, env: Collaborators, stderr: Writer, steps0: seq<Step>,
                            ghost prefix: string, ghost output: string, ghost rest: seq<Byte>)
    returns (r: Result<RoverOutput, Error>, steps: seq<Step>)
    requires stderr.buffer == prefix + output
    modifies stderr
    ensures steps == PublishStage(cmd, env, steps0, output, rest).steps
    ensures stderr.buffer == prefix + PublishStage(cmd, env, steps0, output, rest).output
    ensures r == PublishStage(cmd, env, steps0, output, rest).result
  {
    stderr.Write(Banner(cmd));
    Regroup(prefix, output, Banner(cmd));
    steps := steps0 + [ReadSchema];
    if env.schema.Err? {
      return Err(env.schema.error), steps;
    }
    var schema := env.schema.value;

    steps := steps + [PublishSchema(PublishInput(cmd.graphRef, cmd.subgraphName, cmd.routingUrl, schema, cmd.convert))];
    if env.publish.Err? {
      return Err(env.publish.error), steps;
    }
    r := Ok(SubgraphPublishResponse(cmd.graphRef, cmd.subgraphName, env.publish.value));
  }

  // ---------------------------------------------------------------------
  // Ordering properties, for any check.
  // ---------------------------------------------------------------------

  predicate Publishes(steps: seq<Step>) {
    exists i :: 0 <= i < |steps| && steps[i].PublishSchema?
  }

  /** The check lets an absent URL through without writing or reading. */
  ghost predicate AcceptsAbsentUrl(check: Checker) {
    forall input :: check(None, input) == Effect([], input, Ok(()))
  }

  /** The later stages only add steps after the ones already taken. */
  lemma FetchStageExtends(cmd: Command, env: Collaborators, check: Checker,
                          steps: seq<Step>, output: string, rest: seq<Byte>)
    ensures var e := FetchStage(cmd, env, check, steps, output, rest);
      |steps| < |e.steps| && e.steps[..|steps|] == steps
  {
  }

  /**
   * Without the bypass flag the supplied URL (present or not) is checked
   * before anything else, and a failed check ends the run there: no client,
   * no fetch, no announcement, no publish.
   */
  lemma SuppliedUrlCheckedFirst(cmd: Command, env: Collaborators, check: Checker, input: seq<Byte>)
    requires !cmd.allowInvalidRoutingUrl
    ensures var e := RunSpec(cmd, env, check, input);
      && |e.steps| > 0 && e.steps[0] == CheckRoutingUrl(cmd.routingUrl)
      && (check(cmd.routingUrl, input).result.Err? ==>
            && e.steps == [CheckRoutingUrl(cmd.routingUrl)]
            && e.output == check(cmd.routingUrl, input).output
            && e.result == Err(check(cmd.routingUrl, input).result.error))
  {
    var e := RunSpec(cmd, env, check, input);
    var first := check(cmd.routingUrl, input);
    if first.result.Ok? && env.client.Ok? {
      var authenticated := [CheckRoutingUrl(cmd.routingUrl)] + [AuthenticateClient];
      FetchStageExtends(cmd, env, check, authenticated, first.output, first.rest);
      assert e.steps[..|authenticated|] == authenticated;
      assert e.steps[0] == e.steps[..|authenticated|][0];
    }
  }

  /**
   * A publish happens only after every check the run makes has passed: the
   * supplied URL's unless bypassed, and the fetched URL's whenever no URL was
   * supplied, bypass flag or not; the client and the schema were obtained.
   */
  lemma PublishOnlyAfterApproval(cmd: Command, env: Collaborators, check: Checker, input: seq<Byte>)
    requires AcceptsAbsentUrl(check)
    requires Publishes(RunSpec(cmd, env, check, input).steps)
    ensures !cmd.allowInvalidRoutingUrl ==> check(cmd.routingUrl, input).result.Ok?
    ensures env.client.Ok? && env.schema.Ok?
    ensures cmd.routingUrl.None? ==>
              env.fetchedRoutingUrl.Ok? && check(Some(env.fetchedRoutingUrl.value), input).result.Ok?
  {
    var e := RunSpec(cmd, env, check, input);
    var i :| 0 <= i < |e.steps| && e.steps[i].PublishSchema?;
    assert check(None, input) == Effect([], input, Ok(()));
  }

  /**
   * When a URL was supplied and the bypass flag is set, the URL is never
   * checked: only the announcement is written, nothing is read.
   */
  lemma BypassSkipsCheck(cmd: Command, env: Collaborators, check: Checker, input: seq<Byte>)
    requires cmd.allowInvalidRoutingUrl && cmd.routingUrl.Some?
    ensures var e := RunSpec(cmd, env, check, input);
      && e.rest == input
      && (env.client.Ok? ==> e.output == Banner(cmd))
      && (env.client.Err? ==> e.output == [])
      && forall i :: 0 <= i < |e.steps| ==> !e.steps[i].CheckRoutingUrl?
  {
  }

  /**
   * A run that succeeds took exactly these steps, in this order; the URL sent
   * with the schema is the supplied one (absent when it was fetched); the
   * announcement is the last thing written.
   */
  lemma SuccessfulRunSteps(cmd: Command, env: Collaborators, check: Checker, input: seq<Byte>)
    requires RunSpec(cmd, env, check, input).result.Ok?
    ensures env.client.Ok? && env.schema.Ok? && env.publish.Ok?
    ensures cmd.routingUrl.None? ==> env.fetchedRoutingUrl.Ok?
    ensures var e := RunSpec(cmd, env, check, input);
      && e.steps == (if cmd.allowInvalidRoutingUrl then [] else [CheckRoutingUrl(cmd.routingUrl)])
                    + [AuthenticateClient]
                    + (if cmd.routingUrl.Some? then []
                       else [FetchRoutingUrl(cmd.graphRef, cmd.subgraphName), CheckRoutingUrl(Some(env.fetchedRoutingUrl.value))])
                    + [ReadSchema, PublishSchema(PublishInput(cmd.graphRef, cmd.subgraphName, cmd.routingUrl, env.schema.value, cmd.convert))]
      && |Banner(cmd)| <= |e.output| && e.output[|e.output| - |Banner(cmd)|..] == Banner(cmd)
      && e.result == Ok(SubgraphPublishResponse(cmd.graphRef, cmd.subgraphName, env.publish.value))
  {
  }

  // ---------------------------------------------------------------------
  // With `handle_maybe_invalid_routing_url` as the check.
  // ---------------------------------------------------------------------

  /** The real check accepts an absent URL, so the ordering lemmas above apply to `Run`. */
  lemma RoutingUrlCheckerAcceptsAbsentUrl(parse: Parser, isAtty: bool)
    ensures AcceptsAbsentUrl(RoutingUrlChecker(parse, isAtty))
  {
    forall input: seq<Byte> ensures RoutingUrlChecker(parse, isAtty)(None, input) == Effect([], input, Ok(())) {
      AbsentUrlAccepted(parse, isAtty, input);
    }
  }

  /**
   * Off a terminal, a supplied URL that does not parse or has another scheme
   * stops the run at once, unless bypassed, with the bypass suggestion and
   * nothing written.
   */
  lemma InvalidSuppliedUrlStopsRun(cmd: Command, env: Collaborators, parse: Parser, input: seq<Byte>)
    requires !cmd.allowInvalidRoutingUrl && cmd.routingUrl.Some?
    requires parse(cmd.routingUrl.value).None? || !IsSupportedScheme(parse(cmd.routingUrl.value).value.scheme)
    ensures var e := RunSpec(cmd, env, RoutingUrlChecker(parse, false), input);
      && e.steps == [CheckRoutingUrl(cmd.routingUrl)] && e.output == [] && e.rest == input
      && e.result.Err? && e.result.error.RoverError?
      && e.result.error.suggestion == Some(AllowInvalidRoutingUrlOrSpecifyValidUrl)
  {
    var url := cmd.routingUrl.value;
    if parse(url).None? {
      UnparsableUrl(url, parse, false, input);
    } else {
      UnsupportedSchemeNeverSilent(url, parse, false, input);
    }
    SuppliedUrlCheckedFirst(cmd, env, RoutingUrlChecker(parse, false), input);
  }

  /**
   * The bypass flag does not cover a fetched URL: off a terminal, a fetched
   * URL that does not parse or has another scheme stops the run before the
   * announcement and the publish.
   */
  lemma FetchedUrlCheckedDespiteBypass(cmd: Command, env: Collaborators, parse: Parser, input: seq<Byte>)
    requires cmd.allowInvalidRoutingUrl && cmd.routingUrl.None?
    requires env.client.Ok? && env.fetchedRoutingUrl.Ok?
    requires var u := env.fetchedRoutingUrl.value; parse(u).None? || !IsSupportedScheme(parse(u).value.scheme)
    ensures var e := RunSpec(cmd, env, RoutingUrlChecker(parse, false), input);
      && e.steps == [AuthenticateClient, FetchRoutingUrl(cmd.graphRef, cmd.subgraphName), CheckRoutingUrl(Some(env.fetchedRoutingUrl.value))]
      && e.output == [] && e.rest == input
      && e.result.Err? && e.result.error.RoverError?
      && e.result.error.suggestion == Some(AllowInvalidRoutingUrlOrSpecifyValidUrl)
  {
    var url := env.fetchedRoutingUrl.value;
    if parse(url).None? {
      UnparsableUrl(url, parse, false, input);
    } else {
      UnsupportedSchemeNeverSilent(url, parse, false, input);
    }
  }
}
