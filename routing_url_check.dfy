/**
 * The routing-URL check that `rover subgraph publish` runs before publishing:
 * classify the candidate URL, then, depending on whether the process talks to
 * an interactive terminal, accept it, warn about it, ask the user to confirm
 * it, or refuse it.
 *
 * The pure half (Classify, Decide, Prompt, Perform, Handle) says what one call
 * does to its two streams and what it returns; the imperative half
 * (PromptForPublish, NonTtyWarnAboutLocalUrl, HandleMaybeInvalidRoutingUrl)
 * follows the branches of the Rust code over a Writer and a Reader and is
 * proved to have exactly those effects.
 */
module RoutingUrlCheck {
  import opened Wrappers
  import opened Errors
  import opened Text
  import opened Url
  import opened Streams

  // ---------------------------------------------------------------------
  // Messages. `Style::Link.paint` is taken to be the identity.
  // ---------------------------------------------------------------------

  const NOT_VALID := "is not a valid routing URL."
  const UNREACHABLE_QUESTION := "Continuing the publish will make this subgraph unreachable by your supergraph. Would you still like to publish?"
  const LOCAL_QUESTION := "Would you still like to publish?"
  const VALID_PROTOCOLS := "Valid protocols are `http` and `https`."
  const PROMPT_SUFFIX := " [y/N] "
  const WARN_PREFIX := "WARN:"
  const LOCAL_ONLY := "Continuing the publish will make this subgraph reachable in local environments only."

  function Quoted(s: string): string {
    "`" + s + "`"
  }

  /** The reason given for a URL that does not parse. */
  function InvalidUrlReason(url: string): string {
    Quoted(url) + " " + NOT_VALID
  }

  /** The sentence naming an unsupported scheme. */
  function SchemeSentence(scheme: string): string {
    "The " + Quoted(scheme) + " protocol is not supported by the router."
  }

  /** The reason given for a URL whose scheme is neither `http` nor `https`. */
  function UnsupportedSchemeReason(url: string, scheme: string): string {
    InvalidUrlReason(url) + " " + SchemeSentence(scheme) + " " + VALID_PROTOCOLS
  }

  /** The sentence naming a host that only the local machine can reach. */
  function LocalHostSentence(host: string): string {
    "The host " + Quoted(host) + " is not routable via the public internet."
  }

  /** The reason given for an `http`/`https` URL whose host is local. */
  function LocalHostReason(host: string): string {
    LocalHostSentence(host) + " " + LOCAL_ONLY
  }

  /** A reason followed by the question the prompt asks. */
  function Ask(reason: string, question: string): string {
    reason + " " + question
  }

  /** The line `writeln!` appends as a warning. */
  function WarnLine(reason: string): string {
    WARN_PREFIX + " " + reason + "\n"
  }

  // ---------------------------------------------------------------------
  // Classification and decision (pure).
  // ---------------------------------------------------------------------

  /** What kind of routing URL a present candidate is. */
  datatype Classification =
    | Unparsable(url: string)
    | UnsupportedScheme(url: string, scheme: string)
    | LocalHost(host: string)
    | Routable

  /**
   * Classify a present candidate from its parse result: a parse error, then
   * the scheme allow-list, then (for `http`/`https` only) the local-host list.
   * A URL with a supported scheme and no host is routable.
   */
  function Classify(url: string, parsed: Option<ParsedUrl>): (c: Classification)
    ensures c.Unparsable? <==> parsed.None?
    ensures c.UnsupportedScheme? <==> parsed.Some? && !IsSupportedScheme(parsed.value.scheme)
    ensures c.LocalHost? <==> parsed.Some? && IsSupportedScheme(parsed.value.scheme)
                              && parsed.value.host.Some? && IsLocalHost(parsed.value.host.value)
    ensures c.Routable? <==> parsed.Some? && IsSupportedScheme(parsed.value.scheme)
                             && (parsed.value.host.None? || !IsLocalHost(parsed.value.host.value))
  {
    match parsed
    case None => Unparsable(url)
    case Some(p) =>
      if !IsSupportedScheme(p.scheme) then UnsupportedScheme(url, p.scheme)
      else if p.host.Some? && IsLocalHost(p.host.value) then LocalHost(p.host.value)
      else Routable
  }

  /** What the check does with the candidate. */
  datatype Action =
    /** Return `Ok(())` without touching either stream. */
    | Accept
    /** Ask the user with this message and read one answer byte. */
    | Confirm(message: string)
    /** Fail with this reason and the bypass suggestion. */
    | Refuse(reason: string)
    /** Append a warning about this reason and return `Ok(())`. */
    | Warn(reason: string)

  /**
   * The decision table: the classification picks the row, the TTY flag the
   * column. An absent candidate is accepted unexamined.
   */
  function Decide(maybeUrl: Option<string>, parse: Parser, isAtty: bool): (a: Action)
    ensures a.Accept? <==> maybeUrl.None? || Classify(maybeUrl.value, parse(maybeUrl.value)).Routable?
    ensures a.Confirm? <==> isAtty && !a.Accept?
    ensures a.Refuse? <==> !isAtty && maybeUrl.Some? && (parse(maybeUrl.value).None? || !IsSupportedScheme(parse(maybeUrl.value).value.scheme))
    ensures a.Warn? <==> !isAtty && maybeUrl.Some? && Classify(maybeUrl.value, parse(maybeUrl.value)).LocalHost?
  {
    match maybeUrl
    case None => Accept
    case Some(url) =>
      match Classify(url, parse(url))
      case Unparsable(u) =>
        if isAtty then Confirm(Ask(InvalidUrlReason(u), UNREACHABLE_QUESTION)) else Refuse(InvalidUrlReason(u))
      case UnsupportedScheme(u, s) =>
        if isAtty then Confirm(Ask(UnsupportedSchemeReason(u, s), UNREACHABLE_QUESTION))
        else Refuse(UnsupportedSchemeReason(u, s))
      case LocalHost(h) =>
        if isAtty then Confirm(Ask(LocalHostReason(h), LOCAL_QUESTION)) else Warn(LocalHostReason(h))
      case Routable => Accept
  }

  // ---------------------------------------------------------------------
  // Effects on the streams (pure specification).
  // ---------------------------------------------------------------------

  /** What one call appends to the writer, what it leaves in the reader, and what it returns. */
  datatype Effect<T> = Effect(output: string, rest: seq<Byte>, result: Result<T, Error>)

  /** How the answer byte is read. */
  datatype Answer = Affirmative | Declined | NotUtf8

  /** `std::str::from_utf8` of a one-byte slice. */
  function DecodeSingleByte(b: Byte): (c: Option<char>)
    ensures c.Some? <==> b < 0x80
    ensures c.Some? ==> c.value as int == b
  {
    if b < 0x80 then Some(b as char) else None
  }

  /** `str::to_lowercase` of a one-character string; only ASCII characters reach it. */
  function AsciiLowercase(c: char): (s: string)
    ensures |s| == 1
    ensures s == "y" <==> c == 'y' || c == 'Y'
    ensures !('A' <= c <= 'Z') ==> s == [c]
  {
    if 'A' <= c <= 'Z' then [(c as int + 32) as char] else [c]
  }

  /** Decode the answer byte, lowercase it and compare it with "y". */
  function Interpret(b: Byte): (a: Answer)
    ensures a == Affirmative <==> b == 'y' as int || b == 'Y' as int
    ensures a == NotUtf8 <==> b >= 0x80
  {
    match DecodeSingleByte(b)
    case None => NotUtf8
    case Some(c) => if AsciiLowercase(c) == "y" then Affirmative else Declined
  }

  /**
   * `prompt_for_publish` on the remaining input: the message and ` [y/N] `
   * are written, one byte is consumed, and only `y` or `Y` succeeds.
   */
  function Prompt(message: string, input: seq<Byte>): (e: Effect<Option<bool>>)
    ensures e.output == message + " [y/N] "
    ensures |input| > 0 ==> e.rest == input[1..]
    ensures |input| == 0 ==> e.rest == [] && e.result == Err(IoError(UnexpectedEof))
    ensures e.result.Ok? <==> |input| > 0 && (input[0] == 'y' as int || input[0] == 'Y' as int)
    ensures e.result.Ok? ==> e.result.value == Some(true)
    ensures |input| > 0 && input[0] < 0x80 && input[0] != 'y' as int && input[0] != 'Y' as int
            ==> e.result == Err(Cancelled())
    ensures e.result != Err(Cancelled()) ==> |input| == 0 || input[0] >= 0x80 || e.result.Ok?
    ensures |input| > 0 && input[0] >= 0x80 ==> e.result == Err(Panic(input[0]))
  {
    var output := message + PROMPT_SUFFIX;
    if |input| < 1 then Effect(output, [], Err(IoError(UnexpectedEof)))
    else
      match Interpret(input[0])
      case Affirmative => Effect(output, input[1..], Ok(Some(true)))
      case Declined => Effect(output, input[1..], Err(Cancelled()))
      case NotUtf8 => Effect(output, input[1..], Err(Panic(input[0])))
  }

  /** `non_tty_hard_error`: always fails, with the reason and the bypass suggestion. */
  function NonTtyHardError(reason: string): (r: Result<(), Error>)
    ensures r.Err? && r.error.RoverError?
    ensures r.error.message == reason
    ensures r.error.suggestion == Some(AllowInvalidRoutingUrlOrSpecifyValidUrl)
  {
    Err(RoverError(reason, Some(AllowInvalidRoutingUrlOrSpecifyValidUrl)))
  }

  /** Carry out an action on the remaining input. */
  function Perform(a: Action, input: seq<Byte>): (e: Effect<()>)
    ensures e.rest != input ==> a.Confirm?
    ensures e.output == [] <==> a.Accept? || a.Refuse?
    ensures e.result.Ok? <==> a.Accept? || a.Warn? || (a.Confirm? && |input| > 0 && (input[0] == 'y' as int || input[0] == 'Y' as int))
    ensures a.Refuse? ==> e.result == NonTtyHardError(a.reason)
    ensures a.Warn? ==> e.output == WarnLine(a.reason)
  {
    match a
    case Accept => Effect([], input, Ok(()))
    case Confirm(message) =>
      var p := Prompt(message, input);
      Effect(p.output, p.rest, if p.result.Ok? then Ok(()) else Err(p.result.error))
    case Refuse(reason) => Effect([], input, NonTtyHardError(reason))
    case Warn(reason) => Effect(WarnLine(reason), input, Ok(()))
  }

  /** `handle_maybe_invalid_routing_url`, as a function of its arguments and the input left. */
  function Handle(maybeUrl: Option<string>, parse: Parser, isAtty: bool, input: seq<Byte>): (e: Effect<()>)
    ensures e.rest == input || (isAtty && |input| > 0 && e.rest == input[1..])
    ensures !isAtty ==> e.rest == input
  {
    Perform(Decide(maybeUrl, parse, isAtty), input)
  }

  // ---------------------------------------------------------------------
  // The imperative code over the two streams.
  // ---------------------------------------------------------------------

  /** Write the message and ` [y/N] `, read exactly one byte, accept only `y`/`Y`. */
  method PromptForPublish(message: string, reader: Reader, writer: Writer) returns (r: Result<Option<bool>, Error>)
    modifies reader, writer
    ensures writer.buffer == old(writer.buffer) + Prompt(message, old(reader.remaining)).output
    ensures reader.remaining == Prompt(message, old(reader.remaining)).rest
    ensures r == Prompt(message, old(reader.remaining)).result
  {
    writer.Write(message + PROMPT_SUFFIX);
    var response := reader.ReadExact(1);
    if response.Err? {
      return Err(response.error);
    }
    match Interpret(response.value[0])
    case Affirmative => r := Ok(Some(true));
    case Declined => r := Err(Cancelled());
    case NotUtf8 => r := Err(Panic(response.value[0]));
  }

  /** Append `WARN: <reason>` and a newline, then succeed. */
  method NonTtyWarnAboutLocalUrl(reason: string, writer: Writer) returns (r: Result<(), Error>)
    modifies writer
    ensures writer.buffer == old(writer.buffer) + WarnLine(reason)
    ensures r == Ok(())
  {
    writer.Write(WARN_PREFIX + " " + reason + "\n");
    r := Ok(());
  }

  /**
   * The block the two invalid-URL branches share: ask on a terminal (and
   * propagate a refusal), otherwise fail with the bypass suggestion.
   */
  method PromptOrHardError(reason: string, reader: Reader, writer: Writer, isAtty: bool) returns (r: Result<(), Error>)
    modifies reader, writer
    ensures var e := Perform(if isAtty then Confirm(Ask(reason, UNREACHABLE_QUESTION)) else Refuse(reason), old(reader.remaining));
      writer.buffer == old(writer.buffer) + e.output && reader.remaining == e.rest && r == e.result
  {
    if isAtty {
      var p := PromptForPublish(Ask(reason, UNREACHABLE_QUESTION), reader, writer);
      if p.Err? {
        return Err(p.error);
      }
      r := Ok(());
    } else {
      r := NonTtyHardError(reason);
    }
  }

  /** The local-host block: ask on a terminal, otherwise warn and carry on. */
  method PromptOrWarn(reason: string, reader: Reader, writer: Writer, isAtty: bool) returns (r: Result<(), Error>)
    modifies reader, writer
    ensures var e := Perform(if isAtty then Confirm(Ask(reason, LOCAL_QUESTION)) else Warn(reason), old(reader.remaining));
      writer.buffer == old(writer.buffer) + e.output && reader.remaining == e.rest && r == e.result
  {
    if isAtty {
      var p := PromptForPublish(Ask(reason, LOCAL_QUESTION), reader, writer);
      if p.Err? {
        return Err(p.error);
      }
      r := Ok(());
    } else {
      r := NonTtyWarnAboutLocalUrl(reason, writer);
    }
  }

  /**
   * The branches of the Rust code: parse, test the scheme, then the host, and
   * prompt, fail or warn according to `isAtty`. Its effect is exactly Handle's.
   */
  method HandleMaybeInvalidRoutingUrl(maybeUrl: Option<string>, parse: Parser, writer: Writer, reader: Reader, isAtty: bool)
    returns (r: Result<(), Error>)
    modifies writer, reader
    ensures writer.buffer == old(writer.buffer) + Handle(maybeUrl, parse, isAtty, old(reader.remaining)).output
    ensures reader.remaining == Handle(maybeUrl, parse, isAtty, old(reader.remaining)).rest
    ensures r == Handle(maybeUrl, parse, isAtty, old(reader.remaining)).result
  {
    ghost var action := Decide(maybeUrl, parse, isAtty);
    r := Ok(());
    if maybeUrl.Some? {
      var routingUrl := maybeUrl.value;
      match parse(routingUrl)
      case Some(parsedUrl) =>
        var reason := UnsupportedSchemeReason(routingUrl, parsedUrl.scheme);
        if !IsSupportedScheme(parsedUrl.scheme) {
          assert action == if isAtty then Confirm(Ask(reason, UNREACHABLE_QUESTION)) else Refuse(reason);
          r := PromptOrHardError(reason, reader, writer, isAtty);
        } else if parsedUrl.host.Some? && IsLocalHost(parsedUrl.host.value) {
          var localReason := LocalHostReason(parsedUrl.host.value);
          assert action == if isAtty then Confirm(Ask(localReason, LOCAL_QUESTION)) else Warn(localReason);
          r := PromptOrWarn(localReason, reader, writer, isAtty);
        }
      case None =>
        var reason := InvalidUrlReason(routingUrl);
        assert action == if isAtty then Confirm(Ask(reason, UNREACHABLE_QUESTION)) else Refuse(reason);
        r := PromptOrHardError(reason, reader, writer, isAtty);
    }
  }

  // ---------------------------------------------------------------------
  // Where the reasons end up.
  // ---------------------------------------------------------------------

  /** A phrase of the reason is still in the question written to the writer. */
  lemma ContainsInPrompt(reason: string, question: string, sub: string)
    requires Contains(reason, sub)
    ensures Contains(Ask(reason, question) + PROMPT_SUFFIX, sub)
  {
    ContainsBefore(reason, " ", sub);
    ContainsBefore(reason + " ", question, sub);
    ContainsBefore(Ask(reason, question), PROMPT_SUFFIX, sub);
  }

  /** A phrase of the reason is still in the warning line. */
  lemma ContainsInWarning(reason: string, sub: string)
    requires Contains(reason, sub)
    ensures Contains(WarnLine(reason), sub)
  {
    ContainsAfter(WARN_PREFIX + " ", reason, sub);
    ContainsBefore(WARN_PREFIX + " " + reason, "\n", sub);
  }

  /** The reason for an unparsable URL names the URL and says it is not a valid routing URL. */
  lemma InvalidUrlReasonSaysNotValid(url: string)
    ensures Contains(InvalidUrlReason(url), NOT_VALID)
    ensures Contains(InvalidUrlReason(url), Quoted(url))
  {
    ContainsSelf(Quoted(url));
    ContainsBefore(Quoted(url), " ", Quoted(url));
    ContainsBefore(Quoted(url) + " ", NOT_VALID, Quoted(url));
    ContainsSelf(NOT_VALID);
    ContainsAfter(Quoted(url) + " ", NOT_VALID, NOT_VALID);
  }

  /** The reason for an unsupported scheme names the scheme and the two valid ones. */
  lemma UnsupportedSchemeReasonNamesSchemes(url: string, scheme: string)
    ensures Contains(UnsupportedSchemeReason(url, scheme), NOT_VALID)
    ensures Contains(UnsupportedSchemeReason(url, scheme), SchemeSentence(scheme))
    ensures Contains(UnsupportedSchemeReason(url, scheme), Quoted(scheme))
    ensures Contains(UnsupportedSchemeReason(url, scheme), VALID_PROTOCOLS)
  {
    var head := InvalidUrlReason(url) + " ";
    InvalidUrlReasonSaysNotValid(url);
    ContainsBefore(InvalidUrlReason(url), " ", NOT_VALID);
    ContainsBefore(head, SchemeSentence(scheme), NOT_VALID);
    ContainsBefore(head + SchemeSentence(scheme), " ", NOT_VALID);
    ContainsBefore(head + SchemeSentence(scheme) + " ", VALID_PROTOCOLS, NOT_VALID);

    ContainsSelf(SchemeSentence(scheme));
    ContainsAfter(head, SchemeSentence(scheme), SchemeSentence(scheme));
    ContainsBefore(head + SchemeSentence(scheme), " ", SchemeSentence(scheme));
    ContainsBefore(head + SchemeSentence(scheme) + " ", VALID_PROTOCOLS, SchemeSentence(scheme));

    ContainsSelf(Quoted(scheme));
    ContainsAfter("The ", Quoted(scheme), Quoted(scheme));
    ContainsBefore("The " + Quoted(scheme), " protocol is not supported by the router.", Quoted(scheme));
    ContainsAfter(head, SchemeSentence(scheme), Quoted(scheme));
    ContainsBefore(head + SchemeSentence(scheme), " ", Quoted(scheme));
    ContainsBefore(head + SchemeSentence(scheme) + " ", VALID_PROTOCOLS, Quoted(scheme));

    ContainsSelf(VALID_PROTOCOLS);
    ContainsAfter(head + SchemeSentence(scheme) + " ", VALID_PROTOCOLS, VALID_PROTOCOLS);
  }

  /** The reason for a local host names the host and says it is reachable locally only. */
  lemma LocalHostReasonNamesHost(host: string)
    ensures Contains(LocalHostReason(host), LocalHostSentence(host))
    ensures Contains(LocalHostReason(host), Quoted(host))
    ensures Contains(LocalHostReason(host), LOCAL_ONLY)
  {
    ContainsSuffix(LocalHostSentence(host) + " ", LOCAL_ONLY);
    ContainsSelf(LocalHostSentence(host));
    ContainsBefore(LocalHostSentence(host), " ", LocalHostSentence(host));
    ContainsBefore(LocalHostSentence(host) + " ", LOCAL_ONLY, LocalHostSentence(host));

    ContainsSelf(Quoted(host));
    ContainsAfter("The host ", Quoted(host), Quoted(host));
    ContainsBefore("The host " + Quoted(host), " is not routable via the public internet.", Quoted(host));
    ContainsBefore(LocalHostSentence(host), " ", Quoted(host));
    ContainsBefore(LocalHostSentence(host) + " ", LOCAL_ONLY, Quoted(host));
  }

  // ---------------------------------------------------------------------
  // Properties of the check.
  // ---------------------------------------------------------------------

  /** An absent URL is accepted: nothing written, nothing read. */
  lemma AbsentUrlAccepted(parse: Parser, isAtty: bool, input: seq<Byte>)
    ensures Handle(None, parse, isAtty, input) == Effect([], input, Ok(()))
  {
  }

  /**
   * A URL that does not parse is never accepted silently: on a terminal the
   * user is asked, with a question that says the URL is not valid; otherwise
   * the check fails with that reason and the bypass suggestion, without
   * writing or reading anything.
   */
  lemma UnparsableUrl(url: string, parse: Parser, isAtty: bool, input: seq<Byte>)
    requires parse(url).None?
    ensures var e := Handle(Some(url), parse, isAtty, input);
      && (isAtty ==> e == Perform(Confirm(Ask(InvalidUrlReason(url), UNREACHABLE_QUESTION)), input)
                     && Contains(e.output, NOT_VALID))
      && (!isAtty ==> e.output == [] && e.rest == input
                      && e.result == Err(RoverError(InvalidUrlReason(url), Some(AllowInvalidRoutingUrlOrSpecifyValidUrl)))
                      && Contains(e.result.error.message, NOT_VALID))
  {
    InvalidUrlReasonSaysNotValid(url);
    if isAtty {
      ContainsInPrompt(InvalidUrlReason(url), UNREACHABLE_QUESTION, NOT_VALID);
    }
  }

  /**
   * A scheme other than `http`/`https` never yields a silent `Ok`: on a
   * terminal the user is asked, otherwise the check fails with the bypass
   * suggestion. Either way the text names the scheme and the two valid ones.
   */
  lemma UnsupportedSchemeNeverSilent(url: string, parse: Parser, isAtty: bool, input: seq<Byte>)
    requires parse(url).Some? && !IsSupportedScheme(parse(url).value.scheme)
    ensures var e := Handle(Some(url), parse, isAtty, input);
      var scheme := parse(url).value.scheme;
      && !(e.result.Ok? && e.output == [])
      && (isAtty ==> e == Perform(Confirm(Ask(UnsupportedSchemeReason(url, scheme), UNREACHABLE_QUESTION)), input)
                     && Contains(e.output, SchemeSentence(scheme))
                     && Contains(e.output, VALID_PROTOCOLS))
      && (!isAtty ==> e.output == [] && e.rest == input && e.result.Err?
                      && e.result.error.suggestion == Some(AllowInvalidRoutingUrlOrSpecifyValidUrl)
                      && Contains(e.result.error.message, SchemeSentence(scheme))
                      && Contains(e.result.error.message, VALID_PROTOCOLS))
  {
    var scheme := parse(url).value.scheme;
    UnsupportedSchemeReasonNamesSchemes(url, scheme);
    if isAtty {
      ContainsInPrompt(UnsupportedSchemeReason(url, scheme), UNREACHABLE_QUESTION, SchemeSentence(scheme));
      ContainsInPrompt(UnsupportedSchemeReason(url, scheme), UNREACHABLE_QUESTION, VALID_PROTOCOLS);
    }
  }

  /**
   * An `http`/`https` URL whose host is `localhost` or `127.0.0.1` asks on a
   * terminal; otherwise it appends a warning naming the host and succeeds. It
   * never hard-fails: the only failures are those of the prompt.
   */
  lemma LocalHostNeverHardFails(url: string, parse: Parser, isAtty: bool, input: seq<Byte>)
    requires parse(url).Some? && IsSupportedScheme(parse(url).value.scheme)
    requires parse(url).value.host.Some? && IsLocalHost(parse(url).value.host.value)
    ensures var e := Handle(Some(url), parse, isAtty, input);
      var host := parse(url).value.host.value;
      && Contains(e.output, LocalHostSentence(host))
      && (isAtty ==> e == Perform(Confirm(Ask(LocalHostReason(host), LOCAL_QUESTION)), input))
      && (!isAtty ==> e == Effect(WarnLine(LocalHostReason(host)), input, Ok(())))
      && (e.result.Err? ==> e.result.error == Cancelled() || e.result.error.IoError? || e.result.error.Panic?)
  {
    var host := parse(url).value.host.value;
    LocalHostReasonNamesHost(host);
    if isAtty {
      ContainsInPrompt(LocalHostReason(host), LOCAL_QUESTION, LocalHostSentence(host));
    } else {
      ContainsInWarning(LocalHostReason(host), LocalHostSentence(host));
    }
  }

  /** Any other `http`/`https` URL, with or without a host, is accepted: nothing written, nothing read. */
  lemma RoutableUrlAccepted(url: string, parse: Parser, isAtty: bool, input: seq<Byte>)
    requires parse(url).Some? && IsSupportedScheme(parse(url).value.scheme)
    requires parse(url).value.host.None? || !IsLocalHost(parse(url).value.host.value)
    ensures Handle(Some(url), parse, isAtty, input) == Effect([], input, Ok(()))
  {
  }

  /**
   * Only a terminal session reads input, and then exactly one byte; an `Ok`
   * after a question means the byte was `y` or `Y`; off a terminal the only
   * thing ever written is a warning, and it comes with `Ok`.
   */
  lemma InteractionOnlyOnTty(maybeUrl: Option<string>, parse: Parser, isAtty: bool, input: seq<Byte>)
    ensures var e := Handle(maybeUrl, parse, isAtty, input);
      && (e.rest != input ==> isAtty && |input| > 0 && e.rest == input[1..])
      && (isAtty && e.output != [] && e.result.Ok? ==> |input| > 0 && (input[0] == 'y' as int || input[0] == 'Y' as int))
      && (!isAtty && e.output != [] ==>
            e.result.Ok? && Decide(maybeUrl, parse, isAtty).Warn? && e.output == WarnLine(Decide(maybeUrl, parse, isAtty).reason))
  {
  }

  /**
   * On a terminal, an empty input never confirms: the prompt's read fails
   * with the I/O error, not with the cancellation message.
   */
  lemma EmptyInputIsIoError(maybeUrl: Option<string>, parse: Parser)
    requires Decide(maybeUrl, parse, true).Confirm?
    ensures Handle(maybeUrl, parse, true, []).result == Err(IoError(UnexpectedEof))
    ensures Handle(maybeUrl, parse, true, []).result != Err(Cancelled())
  {
  }
}
