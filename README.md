# Routing-URL confirmation in `rover subgraph publish`

Before `rover subgraph publish` sends a subgraph schema to Apollo Studio, it
checks the subgraph's routing URL. A URL that does not parse, or whose scheme
is not `http`/`https`, is one the router cannot reach. On a terminal the user
is asked whether to go on, and only a first byte of `y` or `Y` continues. Off a
terminal the command fails with a suggestion to pass
`--allow-invalid-routing-url` or to give a valid URL. A URL whose host is
`localhost` or `127.0.0.1` is only reachable locally: on a terminal the user
is asked the same way; off a terminal a `WARN:` line is written and the
publish goes on. Any other URL, or no URL at all, passes silently.

`Publish::run` performs this check on the `--routing-url` the user supplied,
unless `--allow-invalid-routing-url` is set. When no URL was supplied, it
fetches the subgraph's current routing URL from Studio and checks that URL
too. That second check runs whether or not the bypass flag is set. The
publish itself always sends the supplied URL, which is absent when the URL
was fetched.

The model has these modules:

- `Wrappers` (`wrappers.dfy`): `Option` and `Result`.
- `Errors` (`errors.dfy`): the three ways the check can fail. These are an
  I/O error from the read, a `RoverError` with its message and optional
  suggestion, and the panic of `from_utf8(..).unwrap()` on a byte that is
  not ASCII.
- `Text` (`text.dfy`): substring containment, the relation the tests assert
  on the written text.
- `Url` (`url.dfy`): the parts of a parsed URL the check looks at, and the
  two lists it compares them with. `Url::parse` is a function parameter
  (`Parser`), never a definition, so every property holds for any parser.
- `Streams` (`streams.dfy`): the writer is a class holding the text written
  so far, as characters. The reader is a class holding the input still unread; it behaves
  like `&[u8]`, so a short `read_exact` consumes what is left and fails.
- `RoutingUrlCheck` (`routing_url_check.dfy`): the check, built up in pure
  layers:
  - `Classify`: the branch of `handle_maybe_invalid_routing_url` a URL takes;
  - `Decide`: what the check does about it;
  - `Prompt` and `Perform`: the effect on the two streams;
  - `Handle`: the whole check.

  Beside the pure layers sit the imperative methods over the stream objects.
  Each is proved to write, read and return exactly what its pure counterpart
  says.
- `RoutingUrlScenarios` (`scenarios.dfy`): the six unit tests of the check,
  as methods whose postconditions are the tests' assertions.
- `PublishCommand` (`publish_command.dfy`): the step order of
  `Publish::run`. The collaborators' answers are fixed values and the run
  records which collaborators it calls, in order. The pure `RunSpec` takes the
  check as a parameter, so the ordering lemmas hold for any check. `Run`
  instantiates it with the real one.

An empty input at the prompt is not a decline: `read_exact` fails first
(publish.rs:188), so the check returns `IoError(UnexpectedEof)`, not the
cancellation error (`RoutingUrlCheck.EmptyInputIsIoError`).

The doc comment of `--allow-invalid-routing-url` (publish.rs:43-46) says that
off a terminal an invalid URL will, for now, only draw a warning before the
publish goes on. The code does not do that: off a terminal an unparsable URL
or one with another scheme is a hard error (publish.rs:142-144, 172-174, and
the test at 305-321). Only a local host draws a warning. The model follows the
code (`RoutingUrlCheck.UnparsableUrl`, `RoutingUrlCheck.UnsupportedSchemeNeverSilent`).

`PublishCommand.FetchedUrlCheckedDespiteBypass` shows one
behaviour worth noting. When the bypass flag is set and the fetched URL is
invalid off a terminal, the run fails with the suggestion to pass
`--allow-invalid-routing-url`, which is already set. The model keeps this
behaviour as written.

## Model

| member | source | states |
|---|---|---|
| Streams.Writer.constructor | src/command/subgraph/publish.rs:217 | a new in-memory writer holds nothing |
| Streams.Writer.Write | src/command/subgraph/publish.rs:186 | a write appends its text to what was written before and changes nothing else |
| Streams.Reader.constructor | src/command/subgraph/publish.rs:216 | a new byte-slice reader holds exactly the given bytes |
| Streams.Reader.ReadExact | src/command/subgraph/publish.rs:187-188 | reading `n` bytes returns the first `n` unread bytes and drops them; when fewer are left it fails with `UnexpectedEof` and leaves the slice empty |
| RoutingUrlCheck.Classify | src/command/subgraph/publish.rs:130-176 | a URL is unparsable exactly when the parser fails; it has an unsupported scheme exactly when it parses with a scheme other than `http`/`https`; it is local exactly when the scheme is supported and the host is `localhost` or `127.0.0.1`; it is routable in every other case |
| RoutingUrlCheck.Decide | src/command/subgraph/publish.rs:130-177 | the check accepts exactly when no URL is given or the URL is routable; otherwise it asks exactly when on a terminal; off a terminal it refuses exactly for unparsable or unsupported-scheme URLs and warns exactly for local ones |
| RoutingUrlCheck.Interpret | src/command/subgraph/publish.rs:189 | an answer byte is affirmative exactly when it is `y` or `Y`, and a panic exactly when it is not ASCII |
| RoutingUrlCheck.Prompt | src/command/subgraph/publish.rs:181-194 | the prompt writes the message and ` [y/N] `, consumes one byte, and succeeds with `Some(true)` exactly when that byte is `y`/`Y`. Another ASCII byte gives the cancellation error and an empty input the I/O error; any other failure comes from a non-ASCII byte |
| RoutingUrlCheck.NonTtyHardError | src/command/subgraph/publish.rs:196-199 | the hard error is a `RoverError` whose message is the reason, carrying the bypass suggestion |
| RoutingUrlCheck.Handle | src/command/subgraph/publish.rs:119-179 | the check consumes nothing off a terminal; on a terminal it consumes at most one byte |
| RoutingUrlCheck.PromptForPublish | src/command/subgraph/publish.rs:181-194 | the imperative prompt writes, consumes and returns exactly what `Prompt` says |
| RoutingUrlCheck.NonTtyWarnAboutLocalUrl | src/command/subgraph/publish.rs:201-207 | the warning appends `WARN: `, the reason and a newline, and succeeds |
| RoutingUrlCheck.PromptOrHardError | src/command/subgraph/publish.rs:136-144 | asking on a terminal, or the hard error off it, behaves as the asking or refusing action |
| RoutingUrlCheck.PromptOrWarn | src/command/subgraph/publish.rs:148-156 | asking on a terminal, or the warning off it, behaves as the asking or warning action |
| Url.IsSupportedScheme | src/command/subgraph/publish.rs:135 | the schemes the router accepts are exactly `http` and `https` |
| Url.IsLocalHost | src/command/subgraph/publish.rs:146 | the local hosts are exactly `localhost` and `127.0.0.1` |
| RoutingUrlCheck.InvalidUrlReason | src/command/subgraph/publish.rs:162-165 | the reason for an unparsable URL: the URL in backquotes, then "is not a valid routing URL." (its contents are stated by `InvalidUrlReasonSaysNotValid`) |
| RoutingUrlCheck.UnsupportedSchemeReason | src/command/subgraph/publish.rs:134 | the reason for an unsupported scheme: the unparsable-URL reason, the sentence naming the scheme, and the valid protocols (stated by `UnsupportedSchemeReasonNamesSchemes`) |
| RoutingUrlCheck.LocalHostReason | src/command/subgraph/publish.rs:147 | the reason for a local host: the sentence naming the host, then the local-environments sentence (stated by `LocalHostReasonNamesHost`) |
| RoutingUrlCheck.Ask | src/command/subgraph/publish.rs:138 | the prompt message is the reason, a space, and the question; `ContainsInPrompt` shows every phrase of the reason reaches the written prompt |
| RoutingUrlCheck.WarnLine | src/command/subgraph/publish.rs:205 | the warning line is `WARN:`, a space, the reason and a newline; `ContainsInWarning` shows every phrase of the reason reaches it |
| RoutingUrlCheck.ContainsInPrompt | src/command/subgraph/publish.rs:186 | any phrase of the reason is still in the text the prompt writes |
| RoutingUrlCheck.ContainsInWarning | src/command/subgraph/publish.rs:205 | any phrase of the reason is still in the warning line |
| RoutingUrlCheck.DecodeSingleByte | src/command/subgraph/publish.rs:189 | a one-byte slice decodes exactly when the byte is ASCII, and then to the character with that code |
| RoutingUrlCheck.AsciiLowercase | src/command/subgraph/publish.rs:189 | lowercasing one character gives one character, which is `y` exactly when the character was `y` or `Y`; characters other than capitals are unchanged |
| RoutingUrlCheck.Perform | src/command/subgraph/publish.rs:136-174 | only asking reads input. Nothing is written exactly when the action accepts or refuses. The result is `Ok` exactly when accepting, warning, or asking with a first byte of `y`/`Y`. Refusing gives the hard error and warning writes the warning line |
| RoutingUrlCheck.HandleMaybeInvalidRoutingUrl | src/command/subgraph/publish.rs:119-179 | the imperative check writes, consumes and returns exactly what `Handle` says |
| RoutingUrlCheck.InvalidUrlReasonSaysNotValid | src/command/subgraph/publish.rs:162-165 | the reason for an unparsable URL names the URL and says it is not a valid routing URL |
| RoutingUrlCheck.UnsupportedSchemeReasonNamesSchemes | src/command/subgraph/publish.rs:134 | the reason for an unsupported scheme says the URL is not valid, names the scheme in backquotes, and lists the valid protocols |
| RoutingUrlCheck.LocalHostReasonNamesHost | src/command/subgraph/publish.rs:147 | the reason for a local host names the host and says it is reachable in local environments only |
| RoutingUrlCheck.AbsentUrlAccepted | src/command/subgraph/publish.rs:130-178 | with no URL the check succeeds, writes nothing and reads nothing |
| RoutingUrlCheck.UnparsableUrl | src/command/subgraph/publish.rs:160-175 | an unparsable URL asks on a terminal, with a question saying it is not valid. Off a terminal it fails with that reason and the suggestion, and writes and reads nothing |
| RoutingUrlCheck.UnsupportedSchemeNeverSilent | src/command/subgraph/publish.rs:134-144 | an unsupported scheme never passes silently. On a terminal it asks; off a terminal it fails with the suggestion. Either way the text names the scheme and the valid protocols |
| RoutingUrlCheck.LocalHostNeverHardFails | src/command/subgraph/publish.rs:145-157 | a local host asks on a terminal; off a terminal it writes the warning and succeeds. The text names the host, and the only failures are the prompt's |
| RoutingUrlCheck.RoutableUrlAccepted | src/command/subgraph/publish.rs:145-159 | an `http`/`https` URL with no host or a non-local host passes without writing or reading |
| RoutingUrlCheck.InteractionOnlyOnTty | src/command/subgraph/publish.rs:130-178 | input is read only on a terminal, one byte at a time. An `Ok` after a question means the byte was `y`/`Y`. Off a terminal the only text written is the warning, which comes with `Ok` |
| RoutingUrlCheck.EmptyInputIsIoError | src/command/subgraph/publish.rs:188 | on a terminal with empty input a question ends in the I/O error, not the cancellation error |
| RoutingUrlScenarios.InvalidUrlQuestion | src/command/subgraph/publish.rs:168 | the question about an unparsable URL contains "is not a valid routing URL." followed by the unreachable-subgraph question |
| RoutingUrlScenarios.ConfirmInvalidUrlPublish | src/command/subgraph/publish.rs:215-228 | answering `y` about `invalid-url` succeeds, consumes the input and writes the question |
| RoutingUrlScenarios.DenyInvalidUrlPublish | src/command/subgraph/publish.rs:231-248 | answering `n` fails with the cancellation message, consumes the input and writes the question |
| RoutingUrlScenarios.InvalidScheme | src/command/subgraph/publish.rs:251-266 | answering `y` about an `ftp` URL succeeds and writes the sentence naming `ftp` and the valid protocols |
| RoutingUrlScenarios.LocalhostTty | src/command/subgraph/publish.rs:269-284 | answering `y` about `localhost` on a terminal succeeds and writes the local-host sentence |
| RoutingUrlScenarios.LocalhostNoTty | src/command/subgraph/publish.rs:287-302 | `localhost` off a terminal succeeds and writes the local-host sentence as a warning |
| RoutingUrlScenarios.InvalidUrlNoTty | src/command/subgraph/publish.rs:305-321 | `invalid-url` off a terminal fails with a message saying it is not a valid routing URL |
| PublishCommand.RoutingUrlChecker | src/command/subgraph/publish.rs:60-65 | the check `run` makes, twice (60-65 and 79-84), with the same parser and terminal flag; `RoutingUrlCheckerAcceptsAbsentUrl` states what it does with an absent URL |
| PublishCommand.Banner | src/command/subgraph/publish.rs:87-92 | the announcement written to standard error before the schema is read |
| PublishCommand.BannerNamesTarget | src/command/subgraph/publish.rs:87-92 | the announcement names the graph ref, the subgraph and the profile, and ends with a newline |
| PublishCommand.PublishStage | src/command/subgraph/publish.rs:87-116 | the last stage writes the announcement and reads no input. It appends the schema read and, when the schema was obtained, the publish of that schema with the supplied URL. It succeeds exactly when the schema read and the publish both succeed |
| PublishCommand.FetchStage | src/command/subgraph/publish.rs:70-116 | when no URL was supplied, success implies that the fetch succeeded and the check of the fetched URL passed. When a URL was supplied, no input is read |
| PublishCommand.RunSpec | src/command/subgraph/publish.rs:52-117 | every run takes at least one step, and a successful run ends with the publish, which sends the supplied URL |
| PublishCommand.Run | src/command/subgraph/publish.rs:52-117 | the run takes the steps, writes the text, consumes the input and returns the result that `RunSpec` gives for the real check |
| PublishCommand.FetchAndPublish | src/command/subgraph/publish.rs:70-117 | the run after the client is built behaves as `FetchStage` |
| PublishCommand.AnnounceAndPublish | src/command/subgraph/publish.rs:88-117 | announcing, reading the schema and publishing behave as `PublishStage` |
| PublishCommand.FetchStageExtends | src/command/subgraph/publish.rs:70-111 | the stages after the client is built only append steps |
| PublishCommand.SuppliedUrlCheckedFirst | src/command/subgraph/publish.rs:59-66 | without the bypass flag the supplied URL is checked first. A failed check ends the run with that check as its only step, its text as the only output, and its error |
| PublishCommand.PublishOnlyAfterApproval | src/command/subgraph/publish.rs:59-111 | a run that publishes passed every check it made, built the client and read the schema. The checks are the supplied URL's unless bypassed, and the fetched URL's whenever no URL was supplied |
| PublishCommand.BypassSkipsCheck | src/command/subgraph/publish.rs:57-70 | with the bypass flag and a supplied URL nothing is checked or read; the only text written is the announcement |
| PublishCommand.SuccessfulRunSteps | src/command/subgraph/publish.rs:59-116 | a successful run took exactly the steps check, authenticate, fetch and check (when no URL was supplied), read and publish, in that order. It published the supplied URL, wrote the announcement last and returned the publish response |
| PublishCommand.RoutingUrlCheckerAcceptsAbsentUrl | src/command/subgraph/publish.rs:130-178 | the real check lets an absent URL through untouched, so the ordering lemmas apply to `Run` |
| PublishCommand.InvalidSuppliedUrlStopsRun | src/command/subgraph/publish.rs:59-66 | off a terminal, an unparsable or unsupported-scheme supplied URL stops the run at its first step with the bypass suggestion, having written and read nothing |
| PublishCommand.FetchedUrlCheckedDespiteBypass | src/command/subgraph/publish.rs:70-85 | even with the bypass flag, off a terminal, an unparsable or unsupported-scheme fetched URL stops the run right after the fetch, before the announcement and the publish |

## Left out

- URL parsing (`reqwest::Url::parse`, the WHATWG URL standard): modelled as a parameter. The scheme and host the model compares are whatever the parser returns, including its lower-casing.
- ANSI styling (`Style::Link`, `Style::WarningPrefix`): styling is taken to be the identity. With colour on, the written text also holds escape codes.
- Terminal detection (`is_terminal`): a boolean parameter. `Run` passes the same flag to both checks; the source probes standard error and standard input again for each check.
- The credential resolver, the two Studio API calls and the schema reader: fixed answers in `Collaborators`. Network behaviour, retries and their error kinds are not modelled. A schema read from standard input would share the reader with the prompt; the model does not capture that.
- The git context sent with the publish, the profile lookup, and the `clap`/`serde` derivations on `Publish`: not modelled; only the fields the run passes on are kept.
- `tracing::debug!` logging: it has no visible effect on the two streams.
- Output encoding: the writer holds characters, not the UTF-8 bytes of a `Vec<u8>`.
- Write failures: `Streams.Writer` never fails. In the tests the writer is a `Vec<u8>`, which indeed never fails. In `Run` it stands for standard error (publish.rs:62, 81), whose writes can fail. The model does not capture the error that the `?` at 186 and 205 would then propagate, nor the panic of `eprintln!` (87) on a failed write.
- Read failures other than end of input: `Streams.Reader.ReadExact` fails only with `UnexpectedEof`. Other errors from reading standard input (interruption, a closed or broken descriptor) are not modelled.
- The panic of `from_utf8(..).unwrap()` on a non-ASCII answer byte: modelled as a value, `Error.Panic`, rather than an abort.
- The rest of crates/rover-std/src/lib.rs (emoji, file-system helpers, prompts): not used by this core.
- The text of `RoverError`'s display form and of the suggestion: the error keeps its message and the suggestion's identity, not how they are printed.
