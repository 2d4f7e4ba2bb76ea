/**
 * The unit tests of the routing-URL check, replayed on the model: each one
 * builds an in-memory reader and writer, runs HandleMaybeInvalidRoutingUrl
 * and reports the result, the unread input and the written text. The parser
 * is left open; each scenario only fixes what it returns for the test's URL.
 */
module RoutingUrlScenarios {
  import opened Wrappers
  import opened Errors
  import opened Text
  import opened Url
  import opened Streams
  import opened RoutingUrlCheck

  const Y: seq<Byte> := ['y' as int]
  const N: seq<Byte> := ['n' as int]

  /** The prompt text for an unparsable URL holds the sentence the tests look for. */
  lemma InvalidUrlQuestion(url: string)
    ensures Contains(Ask(InvalidUrlReason(url), UNREACHABLE_QUESTION) + PROMPT_SUFFIX,
NOT_VALID + " " + UNREACHABLE_QUESTION)
  {
    var head := Quoted(url) + " ";
    Regroup(head, NOT_VALID, " ");
    Regroup(head, NOT_VALID + " ", UNREACHABLE_QUESTION);
    ContainsSuffix(head, NOT_VALID + " " + UNREACHABLE_QUESTION);
    ContainsBefore(Ask(InvalidUrlReason(url), UNREACHABLE_QUESTION), PROMPT_SUFFIX, NOT_VALID + " " + UNREACHABLE_QUESTION);
  }

  /** Test `test_confirm_invalid_url_publish`: answering `y` to the question about an unparsable URL publishes. */
  method ConfirmInvalidUrlPublish(parse: Parser) returns (result: Result<(), Error>, unread: seq<Byte>, output: string)
    requires parse("invalid-url").None?
    ensures result.Ok?
    ensures unread == []
    ensures Contains(output, NOT_VALID + " " + UNREACHABLE_QUESTION)
  {
    var writer := new Writer();
    var reader := new Reader(Y);
    result := HandleMaybeInvalidRoutingUrl(Some("invalid-url"), parse, writer, reader, true);
    unread, output := reader.remaining, writer.buffer;
    var question := Ask(InvalidUrlReason("invalid-url"), UNREACHABLE_QUESTION) + PROMPT_SUFFIX;
    assert output == [] + question;
    InvalidUrlQuestion("invalid-url");
    ContainsAfter([], question, NOT_VALID + " " + UNREACHABLE_QUESTION);
  }

  /** Test `test_deny_invalid_url_publish`: answering `n` cancels the publish. */
  method DenyInvalidUrlPublish(parse: Parser) returns (result: Result<(), Error>, unread: seq<Byte>, output: string)
    requires parse("invalid-url").None?
    ensures result.Err? && result.error.RoverError?
    ensures result.error.message == CANCELLED_MESSAGE
    ensures unread == []
    ensures Contains(output, NOT_VALID + " " + UNREACHABLE_QUESTION)
  {
    var writer := new Writer();
    var reader := new Reader(N);
    result := HandleMaybeInvalidRoutingUrl(Some("invalid-url"), parse, writer, reader, true);
    unread, output := reader.remaining, writer.buffer;
    var question := Ask(InvalidUrlReason("invalid-url"), UNREACHABLE_QUESTION) + PROMPT_SUFFIX;
    assert output == [] + question;
    InvalidUrlQuestion("invalid-url");
    ContainsAfter([], question, NOT_VALID + " " + UNREACHABLE_QUESTION);
  }

  /** Test `test_invalid_scheme`: an `ftp` URL is named in the question, which `y` accepts. */
  method InvalidScheme(parse: Parser) returns (result: Result<(), Error>, unread: seq<Byte>, output: string)
    requires parse("ftp://invalid-scheme") == Some(ParsedUrl("ftp", Some("invalid-scheme")))
    ensures result.Ok?
    ensures unread == []
    ensures Contains(output, NOT_VALID + " " + SchemeSentence("ftp") + " " + VALID_PROTOCOLS)
  {
    var writer := new Writer();
    var reader := new Reader(Y);
    result := HandleMaybeInvalidRoutingUrl(Some("ftp://invalid-scheme"), parse, writer, reader, true);
    unread, output := reader.remaining, writer.buffer;
    var head := Quoted("ftp://invalid-scheme") + " ";
    var tail := NOT_VALID + " " + SchemeSentence("ftp") + " " + VALID_PROTOCOLS;
    Regroup(head, NOT_VALID, " ");
    Regroup(head, NOT_VALID + " ", SchemeSentence("ftp"));
    Regroup(head, NOT_VALID + " " + SchemeSentence("ftp"), " ");
    Regroup(head, NOT_VALID + " " + SchemeSentence("ftp") + " ", VALID_PROTOCOLS);
    ContainsSuffix(head, tail);
    ContainsInPrompt(UnsupportedSchemeReason("ftp://invalid-scheme", "ftp"), UNREACHABLE_QUESTION, tail);
    var question := Ask(UnsupportedSchemeReason("ftp://invalid-scheme", "ftp"), UNREACHABLE_QUESTION) + PROMPT_SUFFIX;
    assert output == [] + question;
    ContainsAfter([], question, tail);
  }

  /** Test `test_localhost_tty`: a `localhost` URL is questioned, and `y` accepts it. */
  method LocalhostTty(parse: Parser) returns (result: Result<(), Error>, unread: seq<Byte>, output: string)
    requires parse("http://localhost:8000") == Some(ParsedUrl("http", Some("localhost")))
    ensures result.Ok?
    ensures unread == []
    ensures Contains(output, LocalHostReason("localhost"))
  {
    var writer := new Writer();
    var reader := new Reader(Y);
    result := HandleMaybeInvalidRoutingUrl(Some("http://localhost:8000"), parse, writer, reader, true);
    unread, output := reader.remaining, writer.buffer;
    ContainsSelf(LocalHostReason("localhost"));
    ContainsInPrompt(LocalHostReason("localhost"), LOCAL_QUESTION, LocalHostReason("localhost"));
    var question := Ask(LocalHostReason("localhost"), LOCAL_QUESTION) + PROMPT_SUFFIX;
    assert output == [] + question;
    ContainsAfter([], question, LocalHostReason("localhost"));
  }

  /** Test `test_localhost_no_tty`: off a terminal a `localhost` URL is published after a warning. */
  method LocalhostNoTty(parse: Parser) returns (result: Result<(), Error>, unread: seq<Byte>, output: string)
    requires parse("http://localhost:8000") == Some(ParsedUrl("http", Some("localhost")))
    ensures result.Ok?
    ensures unread == []
    ensures Contains(output, LocalHostReason("localhost"))
  {
    var writer := new Writer();
    var reader := new Reader([]);
    result := HandleMaybeInvalidRoutingUrl(Some("http://localhost:8000"), parse, writer, reader, false);
    unread, output := reader.remaining, writer.buffer;
    ContainsSelf(LocalHostReason("localhost"));
    ContainsInWarning(LocalHostReason("localhost"), LocalHostReason("localhost"));
    assert output == [] + WarnLine(LocalHostReason("localhost"));
    ContainsAfter([], WarnLine(LocalHostReason("localhost")), LocalHostReason("localhost"));
  }

  /** Test `test_invalid_url_no_tty`: off a terminal an unparsable URL is refused without a question. */
  method InvalidUrlNoTty(parse: Parser) returns (result: Result<(), Error>, unread: seq<Byte>, output: string)
    requires parse("invalid-url").None?
    ensures result.Err? && result.error.RoverError?
    ensures Contains(result.error.message, NOT_VALID)
    ensures result.error.suggestion == Some(AllowInvalidRoutingUrlOrSpecifyValidUrl)
    ensures unread == [] && output == []
  {
    var writer := new Writer();
    var reader := new Reader([]);
    result := HandleMaybeInvalidRoutingUrl(Some("invalid-url"), parse, writer, reader, false);
    unread, output := reader.remaining, writer.buffer;
    InvalidUrlReasonSaysNotValid("invalid-url");
  }

}
