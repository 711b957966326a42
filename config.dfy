/** The start-up configuration check of the command-line front end
    (`validate_configuration`): malformed settings are errors that stop the
    program with exit status 1, unusual ports only produce warnings. */
module Config {
  import opened Results
  import opened Text

  /** The settings the check reads, as parsed from the command line. */
  datatype Settings = Settings(wordpressUrl: string, username: string, password: string, mcpPort: int)

  /** The faults that stop the program. */
  datatype ConfigError = SchemeError | CredentialsError {
    function Message(): string {
      match this
      case SchemeError => "WordPress URL must start with http:// or https://"
      case CredentialsError => "WordPress username and password are required"
    }
  }

  /** The two error texts differ, so the log tells the faults apart. */
  lemma ErrorMessagesDistinct(e: ConfigError, f: ConfigError)
    ensures e.Message() == f.Message() ==> e == f
  {
    if e != f {
      assert e.Message()[13] != f.Message()[13];
    }
  }

  /** The port advice the check gives. */
  datatype PortWarning = WordPressPort(port: int) | McpPort(port: int) {
    function Message(): string {
      match this
      case WordPressPort(p) => Concat(["WordPress port ", Decimal(p), " is outside recommended 8000-8999 range"])
      case McpPort(p) => Concat(["MCP port ", Decimal(p), " is below recommended 9000+ range"])
    }
  }

  /** The lines the check writes to the log, at warning or at error level. */
  datatype LogEntry = Warning(warning: PortWarning) | Error(error: ConfigError)

  /** `url.startswith(("http://", "https://"))`. */
  predicate HasScheme(url: string) {
    "http://" <= url || "https://" <= url
  }

  /** `url.split(":")[-1].split("/")[0]`: the text taken to be the port. */
  function PortCandidate(url: string): (r: string)
    ensures '/' !in r && |r| <= |url|
  {
    Before(AfterLast(url, ':'), '/')
  }

  /** The port candidate is the text that follows the URL's last colon up to
      the next slash: it holds neither, and it stands in the URL right after
      that colon when there is one. */
  lemma PortCandidateShape(url: string)
    ensures var r := PortCandidate(url);
      && ':' !in r && '/' !in r
      && (':' in url ==> exists k :: 0 <= k && k + |r| < |url| && url[k] == ':' && url[k + 1..k + 1 + |r|] == r)
  {
    var tail := AfterLast(url, ':');
    var r := PortCandidate(url);
    AfterLastSuffix(url, ':');
    BeforePrefix(tail, '/');
    if ':' in url {
      var k := |url| - |tail| - 1;
      assert |tail| < |url|;
      assert url[k + 1..k + 1 + |r|] == tail[..|r|];
    }
  }

  /** The port candidate is the text after the URL's last colon (at `k`) up
      to the first slash after it (at `j`, or the end of the URL). */
  lemma PortCandidateAt(url: string, k: nat, j: nat)
    requires k < |url| && url[k] == ':' && ':' !in url[k + 1..]
    requires k + 1 <= j <= |url| && '/' !in url[k + 1..j] && (j < |url| ==> url[j] == '/')
    ensures PortCandidate(url) == url[k + 1..j]
  {
    AfterLastAt(url, ':', k);
    var tail := url[k + 1..];
    assert tail[..j - k - 1] == url[k + 1..j];
    BeforeAt(tail, '/', j - k - 1);
  }

  /** The port warning, when the URL has a colon, the text after its last
      colon reads as an integer and that integer is outside 8000-8999. */
  function WordPressPortWarning(url: string): Option<PortWarning> {
    if ':' !in url then None
    else
      match ParseInt(PortCandidate(url))
      case None => None
      case Some(p) =>
        if p < 8000 || p >= 9000
        then Some(WordPressPort(p))
        else None
  }

  function McpPortWarning(port: int): Option<PortWarning> {
    if port < 9000 then Some(McpPort(port)) else None
  }

  function Listed(w: Option<PortWarning>): seq<LogEntry> {
    match w
    case None => []
    case Some(m) => [Warning(m)]
  }

  /** The errors found, in the order the check finds them. */
  function Errors(s: Settings): seq<ConfigError> {
    (if HasScheme(s.wordpressUrl) then [] else [SchemeError])
    + (if s.username == "" || s.password == "" then [CredentialsError] else [])
  }

  function ErrorEntries(errors: seq<ConfigError>): (r: seq<LogEntry>)
    ensures |r| == |errors|
  {
    if errors == [] then [] else ErrorEntries(errors[..|errors| - 1]) + [Error(errors[|errors| - 1])]
  }

  /** One error entry per error, in order. */
  lemma {:induction false} ErrorEntriesAt(errors: seq<ConfigError>)
    ensures forall i :: 0 <= i < |errors| ==> ErrorEntries(errors)[i] == Error(errors[i])
  {
    if errors != [] {
      ErrorEntriesAt(errors[..|errors| - 1]);
    }
  }

  /** What the check does: the log it writes and the exit status it stops
      the program with, if it stops it. */
  datatype Validation = Validation(log: seq<LogEntry>, exitStatus: Option<int>)

  function Validate(s: Settings): Validation {
    var errors := Errors(s);
    Validation(Listed(WordPressPortWarning(s.wordpressUrl)) + Listed(McpPortWarning(s.mcpPort))
               + ErrorEntries(errors),
               if errors != [] then Some(1) else None)
  }

  /** The check as the front end runs it: errors are collected while
      warnings are logged on the spot; then every error is logged and the
      program exits with status 1. */
  method ValidateConfiguration(s: Settings) returns (log: seq<LogEntry>, exitStatus: Option<int>)
    ensures Validation(log, exitStatus) == Validate(s)
  {
    var errors: seq<ConfigError> := [];
    log := [];
    if !HasScheme(s.wordpressUrl) {
      errors := errors + [SchemeError];
    }
    assert errors == if HasScheme(s.wordpressUrl) then [] else [SchemeError];
    if ':' in s.wordpressUrl {
      var parsed := ParseInt(PortCandidate(s.wordpressUrl));
      if parsed.Some? {
        var wpPort := parsed.value;
        if wpPort < 8000 || wpPort >= 9000 {
          log := log + [Warning(WordPressPort(wpPort))];
        }
      }
    }
    assert log == Listed(WordPressPortWarning(s.wordpressUrl));
    if s.mcpPort < 9000 {
      log := log + [Warning(McpPort(s.mcpPort))];
    }
    if s.username == "" || s.password == "" {
      errors := errors + [CredentialsError];
    }
    ghost var warnings := log;
    assert warnings == Listed(WordPressPortWarning(s.wordpressUrl)) + Listed(McpPortWarning(s.mcpPort));
    assert errors == Errors(s);
    exitStatus := None;
    if errors != [] {
      log := LogErrors(log, errors);
      exitStatus := Some(1);
    } else {
      assert ErrorEntries(errors) == [];
    }
  }

  /** `for error in errors: logger.error(error)`. */
  method LogErrors(log: seq<LogEntry>, errors: seq<ConfigError>) returns (logged: seq<LogEntry>)
    ensures logged == log + ErrorEntries(errors)
  {
    logged := log;
    var i := 0;
    while i < |errors|
      invariant 0 <= i <= |errors|
      invariant logged == log + ErrorEntries(errors[..i])
    {
      assert errors[..i + 1][..i] == errors[..i];
      logged := logged + [Error(errors[i])];
      i := i + 1;
    }
    assert errors[..i] == errors;
  }

  // ---------------------------------------------------------------------
  // What the check promises

  /** The program is stopped, with status 1, exactly when the URL lacks an
      HTTP scheme or a credential is empty. */
  lemma StopsExactlyOnErrors(s: Settings)
    ensures Validate(s).exitStatus.Some? <==> !HasScheme(s.wordpressUrl) || s.username == "" || s.password == ""
    ensures Validate(s).exitStatus.Some? ==> Validate(s).exitStatus == Some(1)
  {
  }

  /** In a log made of warnings followed by the entries of `errors`, the
      error entries are exactly `errors`, in order, after every warning. */
  lemma ErrorsAfterWarnings(warnings: seq<LogEntry>, errors: seq<ConfigError>)
    requires forall i :: 0 <= i < |warnings| ==> warnings[i].Warning?
    ensures var log := warnings + ErrorEntries(errors);
      && (forall i :: 0 <= i < |log| ==>
            (log[i].Error? <==> i >= |warnings|) && (i >= |warnings| ==> log[i].error == errors[i - |warnings|]))
      && (forall e :: Error(e) in log <==> e in errors)
  {
    ErrorEntriesAt(errors);
    var log := warnings + ErrorEntries(errors);
    var w := |warnings|;
    forall e
      ensures Error(e) in log <==> e in errors
    {
      if Error(e) in log {
        var i :| 0 <= i < |log| && log[i] == Error(e);
        assert errors[i - w] == e;
      }
      if e in errors {
        var k :| 0 <= k < |errors| && errors[k] == e;
        assert log[w + k] == Error(e);
      }
    }
  }

  lemma ListedWarnings(a: Option<PortWarning>, b: Option<PortWarning>)
    ensures forall i :: 0 <= i < |Listed(a) + Listed(b)| ==> (Listed(a) + Listed(b))[i].Warning?
  {
  }

  /** At most two faults, each found exactly when it is present, the scheme
      before the credentials. */
  lemma ErrorsFound(s: Settings)
    ensures SchemeError in Errors(s) <==> !HasScheme(s.wordpressUrl)
    ensures CredentialsError in Errors(s) <==> s.username == "" || s.password == ""
    ensures forall i, j :: 0 <= i < j < |Errors(s)| ==> Errors(s)[i] == SchemeError && Errors(s)[j] == CredentialsError
  {
  }

  /** One error is logged per fault, the scheme error first, after every
      warning, and no other error. */
  lemma ErrorsCharacterised(s: Settings)
    ensures Error(SchemeError) in Validate(s).log <==> !HasScheme(s.wordpressUrl)
    ensures Error(CredentialsError) in Validate(s).log <==> s.username == "" || s.password == ""
    ensures var log := Validate(s).log;
      forall i, j :: 0 <= i < j < |log| && log[i].Error? && log[j].Error? ==>
        log[i].error == SchemeError && log[j].error == CredentialsError
  {
    var warnings := Listed(WordPressPortWarning(s.wordpressUrl)) + Listed(McpPortWarning(s.mcpPort));
    ListedWarnings(WordPressPortWarning(s.wordpressUrl), McpPortWarning(s.mcpPort));
    ErrorsAfterWarnings(warnings, Errors(s));
    ErrorsFound(s);
    assert Validate(s).log == warnings + ErrorEntries(Errors(s));
  }

  /** Each warning is logged exactly when its port is outside the
      recommended range; the WordPress port counts only when the URL has a
      colon and the text after its last colon reads as an integer. */
  lemma WarningsCharacterised(s: Settings, p: int)
    ensures Warning(McpPort(p)) in Validate(s).log <==> p == s.mcpPort && p < 9000
    ensures Warning(WordPressPort(p)) in Validate(s).log <==>
            ':' in s.wordpressUrl && ParseInt(PortCandidate(s.wordpressUrl)) == Some(p) && (p < 8000 || p >= 9000)
  {
    var log := Validate(s).log;
    var warnings := Listed(WordPressPortWarning(s.wordpressUrl)) + Listed(McpPortWarning(s.mcpPort));
    ErrorEntriesAt(Errors(s));
    assert forall i :: 0 <= i < |warnings| ==> log[i] == warnings[i];
    assert forall i :: |warnings| <= i < |log| ==> log[i].Error?;
  }

  /** Every warning is logged before every error. */
  lemma WarningsFirst(s: Settings)
    ensures var log := Validate(s).log;
      forall i, j :: 0 <= i < j < |log| && log[j].Warning? ==> log[i].Warning?
  {
    var log := Validate(s).log;
    var warnings := Listed(WordPressPortWarning(s.wordpressUrl)) + Listed(McpPortWarning(s.mcpPort));
    ErrorEntriesAt(Errors(s));
    assert forall i :: 0 <= i < |warnings| ==> log[i].Warning?;
    assert forall i :: |warnings| <= i < |log| ==> log[i].Error?;
  }

  /** A warning's text names its kind and its port: different warnings read
      differently. */
  lemma {:induction false} WarningMessagesDistinct(v: PortWarning, w: PortWarning)
    ensures v.Message() == w.Message() ==> v == w
  {
    var wp := "WordPress port ";
    var mcp := "MCP port ";
    var wpTail := " is outside recommended 8000-8999 range";
    var mcpTail := " is below recommended 9000+ range";
    ConcatThree(wp, Decimal(v.port), wpTail);
    ConcatThree(wp, Decimal(w.port), wpTail);
    ConcatThree(mcp, Decimal(v.port), mcpTail);
    ConcatThree(mcp, Decimal(w.port), mcpTail);
    if v.WordPressPort? != w.WordPressPort? {
      assert v.Message()[0] != w.Message()[0];
    } else if v.Message() == w.Message() {
      if v.WordPressPort? {
        var n := |v.Message()| - |wp| - |wpTail|;
        assert Decimal(v.port) == v.Message()[|wp|..|wp| + n];
        assert Decimal(w.port) == w.Message()[|wp|..|wp| + n];
        DecimalInjective(v.port, w.port);
      } else {
        var n := |v.Message()| - |mcp| - |mcpTail|;
        assert Decimal(v.port) == v.Message()[|mcp|..|mcp| + n];
        assert Decimal(w.port) == w.Message()[|mcp|..|mcp| + n];
        DecimalInjective(v.port, w.port);
      }
    }
  }

  /** Port checks never stop the program: the exit status depends on the
      scheme and the credentials alone. */
  lemma PortsNeverStop(s: Settings, url: string, port: int)
    requires HasScheme(url) == HasScheme(s.wordpressUrl)
    ensures Validate(s.(wordpressUrl := url, mcpPort := port)).exitStatus == Validate(s).exitStatus
  {
  }

  // ---------------------------------------------------------------------
  // Example URLs

  /** A URL without a port: the text after its last colon starts with a
      slash, so the candidate is empty, `int()` rejects it and no warning is
      given. */
  lemma NoPortNoWarning()
    ensures PortCandidate("http://localhost") == ""
    ensures WordPressPortWarning("http://localhost") == None
  {
    var url := "http://localhost";
    AfterLastAt(url, ':', 4);
    BeforeAt(url[5..], '/', 0);
  }

  /** The default URL's port lies in the recommended range. */
  lemma DefaultUrlAccepted()
    ensures PortCandidate("http://192.168.0.10:8888") == "8888"
    ensures WordPressPortWarning("http://192.168.0.10:8888") == None
  {
    var url := "http://192.168.0.10:8888";
    AfterLastAt(url, ':', 19);
    assert url[20..] == "8888";
    BeforeAt("8888", '/', 4);
    ReadsEightyEightyEight();
  }

  lemma ReadsEightyEightyEight()
    ensures ParseInt("8888") == Some(8888)
  {
    DecimalRoundTrip(8888);
    assert NatText(8) == "8";
    assert NatText(88) == "88";
    assert NatText(888) == "888";
    assert Decimal(8888) == "8888";
  }

  /** A port outside 8000-8999 is warned about, and does not stop the program. */
  lemma LowPortWarned(username: string, password: string)
    requires username != "" && password != ""
    ensures WordPressPortWarning("http://localhost:80") == Some(WordPressPort(80))
    ensures Validate(Settings("http://localhost:80", username, password, 9001)).exitStatus == None
  {
    LowPortCandidate();
    ReadsEighty();
    StopsExactlyOnErrors(Settings("http://localhost:80", username, password, 9001));
  }

  lemma LowPortCandidate()
    ensures ':' in "http://localhost:80" && HasScheme("http://localhost:80")
    ensures PortCandidate("http://localhost:80") == "80"
  {
    var url := "http://localhost:80";
    assert url[16] == ':';
    AfterLastAt(url, ':', 16);
    assert url[17..] == "80";
    BeforeAt("80", '/', 2);
    assert "http://" <= url;
  }

  lemma ReadsEighty()
    ensures ParseInt("80") == Some(80)
  {
    DecimalRoundTrip(80);
    assert Decimal(80) == "80";
  }
}
