/** Smev3Configuration: the settings of one endpoint. They are read once, in a
    fixed order, from the endpoint URI's path (the mode), from its parameters
    (each one removed from the map as it is read) and from the Spring
    environment; the first value that does not convert ends construction with
    that error. The sub-configurations handed to the SMEV client are created
    on first request and then kept. */
module Smev3Configuration {
  import opened Base
  import opened Sdk
  import opened AttachmentsStrategy

  datatype Mode = Request | Response | Status | Reject | Ack

  datatype BodyType = Content | Envelop | SMEVMessage

  const DEFAULT_ERROR_DELAY: int := 60000
  const DEFAULT_TIMEOUT_MILLIS: int := 1000
  const DEFAULT_RETRIES_COUNT: int := 5
  const DEFAULT_LARGE_ATTACHMENT_THRESHOLD: int := 512 * 1024
  const DEFAULT_FTP_LOGIN: string := "anonymous"
  const DEFAULT_FTP_PASSWORD: string := "smev"
  const DEFAULT_KEY_STORE_TYPE: string := "HDImageStore"
  /** The text of SMEVVersion.V1_3.getValue(). */
  const DEFAULT_VERSION: string := "1.3"
  const PROVIDER_NAME: string := "JCP2"

  /** The endpoint parameters the constructor consumes. */
  const KNOWN_PARAMETERS: set<string> :=
    {"version", "nodeId", "namespaceURI", "rootElementLocalName", "bodyType",
     "greedy", "errorDelay", "autoAck", "omitXMLDeclaration", "attachmentsStrategy"}

  // ---------------------------------------------------------------------------
  // Mode and body type

  /** Smev3Mode.toString(). */
  function ModeName(m: Mode): string {
    match m
    case Request => "Request"
    case Response => "Response"
    case Status => "Status"
    case Reject => "Reject"
    case Ack => "Ack"
  }

  /** The query type a mode fetches and sends with: a rejection answers a
      request, so it queries responses' type; an acknowledgement queries requests. */
  function QueryTypeOf(m: Mode): (t: QueryType)
    ensures t == STATUS <==> m == Status
    ensures t == REQUEST <==> m == Request || m == Ack
    ensures t == RESPONSE <==> m == Response || m == Reject
  {
    match m
    case Request => REQUEST
    case Response => RESPONSE
    case Status => STATUS
    case Reject => RESPONSE
    case Ack => REQUEST
  }

  /** The mode named by the URI path, compared with each name ignoring case. */
  function ParseMode(remaining: string): (r: Result<Mode>)
    ensures r.Ok? ==> EqualsIgnoreCase(remaining, ModeName(r.value))
    ensures r.Err? ==> r.error.IllegalArgument? && forall m: Mode :: !EqualsIgnoreCase(remaining, ModeName(m))
  {
    if EqualsIgnoreCase(remaining, "Request") then Ok(Request)
    else if EqualsIgnoreCase(remaining, "Response") then Ok(Response)
    else if EqualsIgnoreCase(remaining, "Status") then Ok(Status)
    else if EqualsIgnoreCase(remaining, "Reject") then Ok(Reject)
    else if EqualsIgnoreCase(remaining, "Ack") then Ok(Ack)
    else
      NoModeNamed(remaining);
      Err(IllegalArgument("Invalid type: (" + remaining + "). Must be type in (Request, Response, Reject, Status, Ack)"))
  }

  lemma NoModeNamed(remaining: string)
    requires !EqualsIgnoreCase(remaining, "Request") && !EqualsIgnoreCase(remaining, "Response") &&
             !EqualsIgnoreCase(remaining, "Status") && !EqualsIgnoreCase(remaining, "Reject") &&
             !EqualsIgnoreCase(remaining, "Ack")
    ensures forall m: Mode :: !EqualsIgnoreCase(remaining, ModeName(m))
  {
    forall m: Mode ensures !EqualsIgnoreCase(remaining, ModeName(m)) {
      match m
      case Request =>
      case Response =>
      case Status =>
      case Reject =>
      case Ack =>
    }
  }

  /** Any spelling of a mode's name, in any case, selects that mode: the names
      are told apart by length or by their first letter. */
  lemma {:induction false} ParseModeIgnoresCase(remaining: string, m: Mode)
    requires EqualsIgnoreCase(remaining, ModeName(m))
    ensures ParseMode(remaining) == Ok(m)
  {
    if m == Reject {
      EqualsIgnoreCaseExclusive(remaining, "Status", "Reject", 0);
    }
  }

  /** Smev3BodyType.toString(). */
  function BodyTypeName(b: BodyType): string {
    match b
    case Content => "Content"
    case Envelop => "Envelop"
    case SMEVMessage => "SMEVMessage"
  }

  /** The bodyType parameter, "Content" when absent, compared ignoring case. */
  function ParseBodyType(param: Option<string>): (r: Result<BodyType>)
    ensures param.None? ==> r == Ok(Content)
    ensures r.Ok? && param.Some? ==> EqualsIgnoreCase(param.value, BodyTypeName(r.value))
    ensures r.Err? ==> r.error.IllegalArgument? && forall b: BodyType :: !EqualsIgnoreCase(param.value, BodyTypeName(b))
  {
    var text := param.GetOr("Content");
    EqualsIgnoreCaseReflexive("Content");
    if EqualsIgnoreCase(text, "Content") then Ok(Content)
    else if EqualsIgnoreCase(text, "Envelop") then Ok(Envelop)
    else if EqualsIgnoreCase(text, "SMEVMessage") then Ok(SMEVMessage)
    else
      NoBodyTypeNamed(text);
      Err(IllegalArgument("Invalid bodyType: (" + text + "). Must be type in (Content, Envelop, SMEVMessage)"))
  }

  lemma NoBodyTypeNamed(text: string)
    requires !EqualsIgnoreCase(text, "Content") && !EqualsIgnoreCase(text, "Envelop") &&
             !EqualsIgnoreCase(text, "SMEVMessage")
    ensures forall b: BodyType :: !EqualsIgnoreCase(text, BodyTypeName(b))
  {
    forall b: BodyType ensures !EqualsIgnoreCase(text, BodyTypeName(b)) {
      match b
      case Content =>
      case Envelop =>
      case SMEVMessage =>
    }
  }

  /** Any spelling of a body type's name, in any case, selects that body type. */
  lemma {:induction false} ParseBodyTypeIgnoresCase(text: string, b: BodyType)
    requires EqualsIgnoreCase(text, BodyTypeName(b))
    ensures ParseBodyType(Some(text)) == Ok(b)
  {
    if b == Envelop {
      EqualsIgnoreCaseExclusive(text, "Content", "Envelop", 0);
    }
  }

  // ---------------------------------------------------------------------------
  // Reading one value

  /** getAndRemoveParameter(parameters, key, String.class, null). */
  function Param(params: map<string, string>, key: string): Option<string>
  {
    if key in params then Some(params[key]) else None
  }

  /** getAndRemoveParameter(parameters, key, Boolean.class, default): the text
      "true" or "false" in any case; the mandatory conversion of any other
      text fails. */
  function ParamBool(params: map<string, string>, key: string, default: bool): (r: Result<bool>)
    ensures key !in params ==> r == Ok(default)
    ensures key in params ==> (r == Ok(true) <==> EqualsIgnoreCase(params[key], "true"))
    ensures key in params ==> (r == Ok(false) <==> EqualsIgnoreCase(params[key], "false"))
    ensures r.Err? ==> r.error == Conversion(key)
  {
    if key !in params then Ok(default)
    else if EqualsIgnoreCase(params[key], "true") then Ok(true)
    else if EqualsIgnoreCase(params[key], "false") then Ok(false)
    else Err(Conversion(key))
  }

  /** getAndRemoveParameter(parameters, key, Integer.class, default): decimal
      text in the int range; anything else fails the conversion. */
  function ParamInt(params: map<string, string>, key: string, default: int): (r: Result<int>)
    ensures key !in params ==> r == Ok(default)
    ensures key in params ==> (r.Ok? <==> ParseDecimal(params[key], INT_MIN, INT_MAX).Some?)
    ensures key in params && r.Ok? ==> r.value == ParseDecimal(params[key], INT_MIN, INT_MAX).value
    ensures r.Err? ==> r.error == Conversion(key)
  {
    if key !in params then Ok(default)
    else match ParseDecimal(params[key], INT_MIN, INT_MAX)
      case Some(n) => Ok(n)
      case None => Err(Conversion(key))
  }

  /** environment.getProperty(key, String.class, default). */
  function EnvText(env: map<string, string>, key: string, default: string): string
  {
    if key in env then env[key] else default
  }

  // ---------------------------------------------------------------------------
  // Spring's conversion of property text

  /** Character.isWhitespace: the ASCII white space and separators, and the
      Unicode space, line and paragraph separators other than the non-breaking ones. */
  predicate IsJavaWhitespace(c: char) {
    ('\t' <= c <= '\r') || ('\U{001C}' <= c <= ' ') ||
    c == '\U{1680}' || ('\U{2000}' <= c <= '\U{2006}') || ('\U{2008}' <= c <= '\U{200A}') ||
    c == '\U{2028}' || c == '\U{2029}' || c == '\U{205F}' || c == '\U{3000}'
  }

  /** StringUtils.trimAllWhitespace: every white-space character removed. */
  function StripWhitespace(s: string): (r: string)
    ensures |r| <= |s|
    ensures forall i :: 0 <= i < |r| ==> !IsJavaWhitespace(r[i])
    ensures (forall i :: 0 <= i < |s| ==> !IsJavaWhitespace(s[i])) ==> r == s
  {
    if s == [] then []
    else
      var rest := StripWhitespace(s[1..]);
      if IsJavaWhitespace(s[0]) then rest else [s[0]] + rest
  }

  /** Stripping white space distributes over concatenation. */
  lemma {:induction false} StripWhitespaceConcat(a: string, b: string)
    ensures StripWhitespace(a + b) == StripWhitespace(a) + StripWhitespace(b)
    decreases |a|
  {
    if a != [] {
      assert (a + b)[1..] == a[1..] + b;
      StripWhitespaceConcat(a[1..], b);
    } else {
      assert a + b == b;
    }
  }

  /** The hexadecimal digits of a spelling Integer.decode reads in base 16:
      an optional '-', then "0x", "0X" or "#". None for any other spelling. */
  function HexSpelling(t: string): (d: Option<string>)
    ensures d.Some? ==> |d.value| < |t|
  {
    var rest := if |t| > 0 && t[0] == '-' then t[1..] else t;
    if |rest| >= 2 && rest[0] == '0' && (rest[1] == 'x' || rest[1] == 'X') then Some(rest[2..])
    else if |rest| >= 1 && rest[0] == '#' then Some(rest[1..])
    else None
  }

  /** NumberUtils.parseNumber(text, Integer.class): all white space removed,
      then Integer.decode for a hexadecimal spelling (a sign after the prefix
      is refused, and -0x80000000 is in range) and Integer.valueOf for any
      other; None stands for the NumberFormatException. */
  function ParseSpringInt(text: string): (r: Option<int>)
    ensures r.Some? ==> INT_MIN <= r.value <= INT_MAX
    ensures HexSpelling(StripWhitespace(text)).None? ==> r == ParseDecimal(StripWhitespace(text), INT_MIN, INT_MAX)
  {
    var t := StripWhitespace(text);
    match HexSpelling(t)
    case None => ParseDecimal(t, INT_MIN, INT_MAX)
    case Some(d) =>
      if d == [] || !AllHexDigits(d) then None
      else
        var v: int := if t[0] == '-' then 0 - HexValue(d) else HexValue(d);
        if INT_MIN <= v <= INT_MAX then Some(v) else None
  }

  /** White space anywhere in the text does not change the number. */
  lemma SpringIntIgnoresWhitespace(a: string, c: char, b: string)
    requires IsJavaWhitespace(c)
    ensures ParseSpringInt(a + [c] + b) == ParseSpringInt(a + b)
  {
    StripWhitespaceDrops(a, c, b);
  }

  /** Stripping drops one white-space character wherever it stands. */
  lemma StripWhitespaceDrops(a: string, c: char, b: string)
    requires IsJavaWhitespace(c)
    ensures StripWhitespace(a + [c] + b) == StripWhitespace(a + b)
  {
    StripWhitespaceConcat(a + [c], b);
    StripWhitespaceConcat(a, [c]);
    StripWhitespaceOfOne(c);
    assert StripWhitespace(a) + [] == StripWhitespace(a);
    StripWhitespaceConcat(a, b);
  }

  /** A lone white-space character strips to nothing. */
  lemma StripWhitespaceOfOne(c: char)
    requires IsJavaWhitespace(c)
    ensures StripWhitespace([c]) == []
  {
    assert [c][1..] == [];
  }

  /** Decimal text of an int converts to it. */
  lemma SpringIntDecimal(n: int)
    requires INT_MIN <= n <= INT_MAX
    ensures ParseSpringInt(Decimal(n)) == Some(n)
  {
    DecimalSpelling(n);
    assert StripWhitespace(Decimal(n)) == Decimal(n);
    DecimalRoundTrip(n, INT_MIN, INT_MAX);
  }

  /** Decimal text holds no white space and is no hexadecimal spelling. */
  lemma DecimalSpelling(n: int)
    ensures forall i :: 0 <= i < |Decimal(n)| ==> !IsJavaWhitespace(Decimal(n)[i])
    ensures HexSpelling(Decimal(n)).None?
  {
    var s := Decimal(n);
    assert forall i :: 0 <= i < |s| ==> s[i] == '-' || IsDigit(s[i]) by {
      if n < 0 {
        assert forall i :: 1 <= i < |s| ==> s[1..][i - 1] == s[i];
      }
    }
    var rest := if s[0] == '-' then s[1..] else s;
    assert rest != [] && IsDigit(rest[0]);
    assert |rest| >= 2 ==> IsDigit(rest[1]);
  }

  /** "0x", "0X" and "#" spell hexadecimal, with an optional minus sign in front. */
  lemma SpringIntHex(prefix: string, d: string, negative: bool)
    requires prefix == "0x" || prefix == "0X" || prefix == "#"
    requires d != [] && AllHexDigits(d)
    ensures var v: int := if negative then 0 - HexValue(d) else HexValue(d);
            ParseSpringInt((if negative then "-" else "") + prefix + d) == (if INT_MIN <= v <= INT_MAX then Some(v) else None)
  {
    var t := (if negative then "-" else "") + prefix + d;
    HexTextHasNoWhitespace(prefix, d, negative);
    HexSpellingOfPrefix(prefix, d, negative);
    assert StripWhitespace(t) == t;
  }

  /** A hexadecimal spelling holds no white space. */
  lemma HexTextHasNoWhitespace(prefix: string, d: string, negative: bool)
    requires prefix == "0x" || prefix == "0X" || prefix == "#"
    requires AllHexDigits(d)
    ensures var t := (if negative then "-" else "") + prefix + d;
            forall i :: 0 <= i < |t| ==> !IsJavaWhitespace(t[i])
  {
    var head: string := (if negative then "-" else "") + prefix;
    var t := head + d;
    forall i | 0 <= i < |t|
      ensures !IsJavaWhitespace(t[i])
    {
      if i < |head| {
        assert t[i] == head[i];
      } else {
        assert t[i] == d[i - |head|] && IsHexDigit(d[i - |head|]);
      }
    }
  }

  /** HexSpelling picks out the digits after the sign and prefix. */
  lemma HexSpellingOfPrefix(prefix: string, d: string, negative: bool)
    requires prefix == "0x" || prefix == "0X" || prefix == "#"
    ensures var t := (if negative then "-" else "") + prefix + d;
            HexSpelling(t) == Some(d) && (t[0] == '-' <==> negative)
  {
    var t := (if negative then "-" else "") + prefix + d;
    var rest := prefix + d;
    if negative {
      assert t == "-" + rest && t[1..] == rest;
    } else {
      assert t == rest && rest[0] != '-';
    }
    if prefix == "#" {
      assert rest[0] == '#' && rest[1..] == d;
    } else {
      assert rest[0] == '0' && rest[2..] == d;
    }
  }

  /** environment.getProperty(key, Integer.class, default): an empty value
      converts to null and so gives the default; any other text is converted
      by ParseSpringInt, and a failure raises. */
  function EnvInt(env: map<string, string>, key: string, default: int): (r: Result<int>)
    ensures key !in env || env[key] == "" ==> r == Ok(default)
    ensures key in env && env[key] != "" ==> (r.Ok? <==> ParseSpringInt(env[key]).Some?)
    ensures r.Ok? && key in env && env[key] != "" ==> r.value == ParseSpringInt(env[key]).value
    ensures r.Err? ==> r.error == Conversion(key)
  {
    if key !in env || env[key] == "" then Ok(default)
    else match ParseSpringInt(env[key])
      case Some(n) => Ok(n)
      case None => Err(Conversion(key))
  }

  /** String.trim(): the characters up to U+0020 removed from both ends. */
  function Trim(s: string): (r: string)
    ensures |r| <= |s|
    ensures r != [] ==> r[0] > ' ' && r[|r| - 1] > ' '
  {
    TrimEnd(TrimStart(s))
  }

  function TrimStart(s: string): (r: string)
    ensures |r| <= |s| && (r != [] ==> r[0] > ' ' && r[|r| - 1] == s[|s| - 1])
  {
    if s != [] && s[0] <= ' ' then TrimStart(s[1..]) else s
  }

  function TrimEnd(s: string): (r: string)
    ensures |r| <= |s| && (r != [] ==> r[|r| - 1] > ' ' && r[0] == s[0])
  {
    if s != [] && s[|s| - 1] <= ' ' then TrimEnd(s[..|s| - 1]) else s
  }

  /** Trimming keeps the text between the padding. */
  lemma {:induction false} TrimPadding(front: string, core: string, back: string)
    requires forall i :: 0 <= i < |front| ==> front[i] <= ' '
    requires forall i :: 0 <= i < |back| ==> back[i] <= ' '
    requires core != [] && core[0] > ' ' && core[|core| - 1] > ' '
    ensures Trim(front + core + back) == core
  {
    TrimStartPadding(front, core + back);
    assert front + core + back == front + (core + back);
    TrimEndPadding(core, back);
  }

  lemma {:induction false} TrimStartPadding(front: string, rest: string)
    requires forall i :: 0 <= i < |front| ==> front[i] <= ' '
    requires rest != [] && rest[0] > ' '
    ensures TrimStart(front + rest) == rest
    decreases |front|
  {
    if front == [] {
      assert front + rest == rest;
    } else {
      assert (front + rest)[1..] == front[1..] + rest;
      TrimStartPadding(front[1..], rest);
    }
  }

  lemma {:induction false} TrimEndPadding(core: string, back: string)
    requires forall i :: 0 <= i < |back| ==> back[i] <= ' '
    requires core != [] && core[|core| - 1] > ' '
    ensures TrimEnd(core + back) == core
    decreases |back|
  {
    if back == [] {
      assert core + back == core;
    } else {
      var init := back[..|back| - 1];
      assert (core + back)[..|core + back| - 1] == core + init;
      TrimEndPadding(core, init);
    }
  }

  /** String.toLowerCase() as far as the words compared with go: only ASCII
      capitals lower-case onto the letters of those words. */
  function LowerAscii(s: string): (r: string)
    ensures |r| == |s|
    ensures forall i :: 0 <= i < |s| ==> r[i] == if 'A' <= s[i] <= 'Z' then ((s[i] as int) + 32) as char else s[i]
  {
    seq(|s|, i requires 0 <= i < |s| => if 'A' <= s[i] <= 'Z' then ((s[i] as int) + 32) as char else s[i])
  }

  /** The words StringToBooleanConverter reads as true and as false, compared after lower-casing. */
  predicate TrueWord(s: string) {
    LowerAscii(s) in {"true", "on", "yes", "1"}
  }

  predicate FalseWord(s: string) {
    LowerAscii(s) in {"false", "off", "no", "0"}
  }

  /** environment.getProperty(key, Boolean.class, default): the text is
      trimmed; empty text converts to null and gives the default; a true word
      or a false word converts; any other text makes the conversion raise. */
  function EnvBool(env: map<string, string>, key: string, default: bool): (r: Result<bool>)
    ensures key !in env || Trim(env[key]) == "" ==> r == Ok(default)
    ensures key in env && TrueWord(Trim(env[key])) ==> r == Ok(true)
    ensures key in env && FalseWord(Trim(env[key])) ==> r == Ok(false)
    ensures r.Err? <==> key in env && Trim(env[key]) != "" && !TrueWord(Trim(env[key])) && !FalseWord(Trim(env[key]))
    ensures r.Err? ==> r.error == Conversion(key)
  {
    if key !in env then Ok(default)
    else
      var t := Trim(env[key]);
      if t == "" then Ok(default)
      else if TrueWord(t) then Ok(true)
      else if FalseWord(t) then Ok(false)
      else Err(Conversion(key))
  }

  /** Padding and capitals do not matter to a boolean property: "  YES\n" is true. */
  lemma EnvBoolPaddedWord(env: map<string, string>, key: string, front: string, word: string, back: string,
                          default: bool)
    requires forall i :: 0 <= i < |front| ==> front[i] <= ' '
    requires forall i :: 0 <= i < |back| ==> back[i] <= ' '
    requires TrueWord(word) || FalseWord(word)
    ensures EnvBool(env[key := front + word + back], key, default) == Ok(TrueWord(word))
  {
    assert word != [] && word[0] > ' ' && word[|word| - 1] > ' ' by {
      var l := LowerAscii(word);
      assert l[0] > ' ' && l[|l| - 1] > ' ';
    }
    TrimPadding(front, word, back);
  }

  /** Only ASCII capitals fold: the long s that equalsIgnoreCase relates to 's'
      does not make "yeſ" a true word, and the conversion raises. */
  lemma EnvBoolLongS(env: map<string, string>, key: string, default: bool)
    ensures EnvBool(env[key := "ye\U{017F}"], key, default) == Err(Conversion(key))
  {
    var t := "ye\U{017F}";
    TrimPadding([], t, []);
    assert [] + t + [] == t;
    assert LowerAscii(t)[2] == '\U{017F}';
  }

  // ---------------------------------------------------------------------------
  // The settings

  /** The large-attachment FTP store. */
  datatype TransferSettings = TransferSettings(
    address: Option<string>, login: string, password: string,
    maxAttempts: int, timeout: int, threshold: int)

  datatype SignerSettings = SignerSettings(
    certificateStore: Option<string>, certificateAlias: Option<string>,
    privateKeyAlias: Option<string>, privateKeyPassword: Option<string>, keyStoreType: string)

  /** One SMEV endpoint (main or reserve). */
  datatype EndpointSettings = EndpointSettings(url: Option<string>, timeout: int, retries: int)

  datatype Checks = Checks(
    validateInput: bool, validateOutput: bool, logInput: bool, logOutput: bool, validateSignature: bool)

  datatype Settings = Settings(
    mode: Mode,
    version: string,
    query: QueryInformation,
    bodyType: BodyType,
    greedy: bool,
    errorDelay: int,
    autoAck: bool,
    omitXmlDeclaration: bool,
    transfer: TransferSettings,
    signer: SignerSettings,
    main: EndpointSettings,
    reserve: EndpointSettings,
    checks: Checks,
    messageStorage: Option<string>,
    strategy: Strategy)

  /** What construction yields: the settings and the parameters it left in the map. */
  datatype Parsed = Parsed(settings: Settings, rest: map<string, string>)

  function TransferOf(env: map<string, string>): (r: Result<TransferSettings>)
    ensures r.Ok? ==> r.value.address == (if "smev3.large.attachment.transport.address" in env
                                          then Some(env["smev3.large.attachment.transport.address"]) else None)
    ensures r.Ok? ==> r.value.login == EnvText(env, "smev3.large.attachment.transport.login", DEFAULT_FTP_LOGIN)
    ensures r.Ok? ==> r.value.password == EnvText(env, "smev3.large.attachment.transport.password", DEFAULT_FTP_PASSWORD)
  {
    var maxAttempts :- EnvInt(env, "smev3.large.attachment.transport.retries", DEFAULT_RETRIES_COUNT);
    var timeout :- EnvInt(env, "smev3.large.attachment.transport.timeout", DEFAULT_TIMEOUT_MILLIS);
    var threshold :- EnvInt(env, "smev3.large.attachment.threshold", DEFAULT_LARGE_ATTACHMENT_THRESHOLD);
    Ok(TransferSettings(
      if "smev3.large.attachment.transport.address" in env then Some(env["smev3.large.attachment.transport.address"]) else None,
      EnvText(env, "smev3.large.attachment.transport.login", DEFAULT_FTP_LOGIN),
      EnvText(env, "smev3.large.attachment.transport.password", DEFAULT_FTP_PASSWORD),
      maxAttempts, timeout, threshold))
  }

  function EnvOption(env: map<string, string>, key: string): Option<string>
  {
    if key in env then Some(env[key]) else None
  }

  function SignerOf(env: map<string, string>): SignerSettings {
    SignerSettings(
      EnvOption(env, "smev3.signer.certificate.store"),
      EnvOption(env, "smev3.signer.certificate.alias"),
      EnvOption(env, "smev3.signer.private.key.alias"),
      EnvOption(env, "smev3.signer.private.key.password"),
      EnvText(env, "smev3.signer.key.store.type", DEFAULT_KEY_STORE_TYPE))
  }

  /** The property names of one endpoint depend on the protocol version:
      smev3.transport.<version>.<which>.url and so on. */
  function TransportKey(version: string, which: string, item: string): string {
    "smev3.transport." + version + "." + which + "." + item
  }

  function EndpointOf(env: map<string, string>, version: string, which: string): (r: Result<EndpointSettings>)
    ensures r.Ok? ==> r.value.url == EnvOption(env, TransportKey(version, which, "url"))
  {
    var timeout :- EnvInt(env, TransportKey(version, which, "timeout"), DEFAULT_TIMEOUT_MILLIS);
    var retries :- EnvInt(env, TransportKey(version, which, "retries.count"), DEFAULT_RETRIES_COUNT);
    Ok(EndpointSettings(EnvOption(env, TransportKey(version, which, "url")), timeout, retries))
  }

  function ChecksOf(env: map<string, string>): Result<Checks> {
    var validateInput :- EnvBool(env, "smev3.validate.input", true);
    var validateOutput :- EnvBool(env, "smev3.validate.output", true);
    var logInput :- EnvBool(env, "smev3.log.input", false);
    var logOutput :- EnvBool(env, "smev3.log.output", false);
    var validateSignature :- EnvBool(env, "smev3.validate.smev.signature", true);
    Ok(Checks(validateInput, validateOutput, logInput, logOutput, validateSignature))
  }

  /** The constructor. `knownVersion` tells which texts SMEVVersion.getByValue
      accepts; `resolve` stands for the registry lookup or conversion of the
      attachmentsStrategy parameter, None when that fails. */
  function Parse(remaining: string, params: map<string, string>, env: map<string, string>,
                 knownVersion: string -> bool, resolve: string -> Option<Strategy>): (r: Result<Parsed>)
    ensures ParseMode(remaining).Err? ==> r == Err(ParseMode(remaining).error)
    ensures r.Ok? ==> r.value.settings.mode == ParseMode(remaining).value
    ensures r.Ok? ==> r.value.settings.query.queryType == QueryTypeOf(r.value.settings.mode)
    ensures r.Ok? ==> r.value.rest == params - KNOWN_PARAMETERS
    ensures r.Ok? ==> ParseBodyType(Param(params, "bodyType")) == Ok(r.value.settings.bodyType)
    ensures r.Ok? ==> r.value.settings.version == Param(params, "version").GetOr(DEFAULT_VERSION)
    ensures r.Ok? ==> r.value.settings.transfer.login == EnvText(env, "smev3.large.attachment.transport.login", DEFAULT_FTP_LOGIN)
    ensures r.Ok? ==> r.value.settings.transfer.password == EnvText(env, "smev3.large.attachment.transport.password", DEFAULT_FTP_PASSWORD)
    ensures r.Ok? ==> r.value.settings.main.url == EnvOption(env, TransportKey(r.value.settings.version, "main", "url"))
    ensures r.Ok? ==> r.value.settings.reserve.url == EnvOption(env, TransportKey(r.value.settings.version, "reserve", "url"))
    ensures "attachmentsStrategy" !in params && r.Ok? ==> r.value.settings.strategy.InMemory?
    ensures "attachmentsStrategy" in params && r.Ok? ==> resolve(params["attachmentsStrategy"]) == Some(r.value.settings.strategy)
    ensures "attachmentsStrategy" in params && resolve(params["attachmentsStrategy"]).None? ==> r.Err?
  {
    var mode :- ParseMode(remaining);
    var version := Param(params, "version").GetOr(DEFAULT_VERSION);
    if !knownVersion(version) then Err(IllegalArgument("version " + version)) else
    var query := QueryInformation(Param(params, "nodeId"), Param(params, "namespaceURI"),
                                  Param(params, "rootElementLocalName"), QueryTypeOf(mode));
    var bodyType :- ParseBodyType(Param(params, "bodyType"));
    var greedy :- ParamBool(params, "greedy", true);
    var errorDelay :- ParamInt(params, "errorDelay", DEFAULT_ERROR_DELAY);
    var autoAck :- ParamBool(params, "autoAck", true);
    var omit :- ParamBool(params, "omitXMLDeclaration", true);
    var transfer :- TransferOf(env);
    var signer := SignerOf(env);
    var main :- EndpointOf(env, version, "main");
    var reserve :- EndpointOf(env, version, "reserve");
    var checks :- ChecksOf(env);
    var storage := EnvOption(env, "smev3.message.storage");
    var strategy :-
      if "attachmentsStrategy" !in params then Ok(InMemory)
      else match resolve(params["attachmentsStrategy"])
        case Some(s) => Ok(s)
        case None => Err(Conversion("attachmentsStrategy"));
    Ok(Parsed(Settings(mode, version, query, bodyType, greedy, errorDelay, autoAck, omit,
                       transfer, signer, main, reserve, checks, storage, strategy),
              params - KNOWN_PARAMETERS))
  }

  /** An endpoint configured only by its mode gets the documented defaults. */
  lemma {:induction false} ParseDefaults(remaining: string, m: Mode,
                                         knownVersion: string -> bool, resolve: string -> Option<Strategy>)
    requires EqualsIgnoreCase(remaining, ModeName(m)) && knownVersion(DEFAULT_VERSION)
    ensures var r := Parse(remaining, map[], map[], knownVersion, resolve);
            r.Ok? && r.value.rest == map[] &&
            var s := r.value.settings;
            s.mode == m && s.query == QueryInformation(None, None, None, QueryTypeOf(m)) &&
            s.version == DEFAULT_VERSION && s.bodyType == Content &&
            s.greedy && s.errorDelay == 60000 && s.autoAck && s.omitXmlDeclaration &&
            s.transfer == TransferSettings(None, "anonymous", "smev", 5, 1000, 524288) &&
            s.signer == SignerSettings(None, None, None, None, "HDImageStore") &&
            s.main == EndpointSettings(None, 1000, 5) && s.reserve == EndpointSettings(None, 1000, 5) &&
            s.checks == Checks(true, true, false, false, true) &&
            s.messageStorage.None? && s.strategy.InMemory?
  {
    ParseModeIgnoresCase(remaining, m);
    EnvironmentDefaults(DEFAULT_VERSION);
  }

  /** With an empty environment every property takes its default. */
  lemma EnvironmentDefaults(version: string)
    ensures TransferOf(map[]) == Ok(TransferSettings(None, "anonymous", "smev", 5, 1000, 524288))
    ensures SignerOf(map[]) == SignerSettings(None, None, None, None, "HDImageStore")
    ensures EndpointOf(map[], version, "main") == Ok(EndpointSettings(None, 1000, 5))
    ensures EndpointOf(map[], version, "reserve") == Ok(EndpointSettings(None, 1000, 5))
    ensures ChecksOf(map[]) == Ok(Checks(true, true, false, false, true))
  {
  }

  // ---------------------------------------------------------------------------
  // Sub-configurations

  /** One entry of the geo transport list. */
  datatype TransportEndpoint = TransportEndpoint(name: string, url: string, timeout: int, retries: int)

  /** An endpoint takes part in the geo transport list when its URL is set and not empty. */
  predicate Present(e: EndpointSettings) {
    e.url.Some? && |e.url.value| > 0
  }

  function GeoEntry(name: string, e: EndpointSettings): TransportEndpoint
    requires e.url.Some?
  {
    TransportEndpoint(name, e.url.value, e.timeout, e.retries)
  }

  class SignerConfiguration {
    const providerName: string
    const certificateAlias: Option<string>
    const privateKeyAlias: Option<string>
    const privateKeyPassword: Option<string>
    /** getSMEVFileCertificateStore(): a File on the store path, null without one. */
    const certificateStore: Option<string>
    const keyStoreType: string

    constructor (s: SignerSettings)
      ensures Describes(s)
    {
      providerName := PROVIDER_NAME;
      certificateAlias := s.certificateAlias;
      privateKeyAlias := s.privateKeyAlias;
      privateKeyPassword := s.privateKeyPassword;
      certificateStore := s.certificateStore;
      keyStoreType := s.keyStoreType;
    }

    predicate Describes(s: SignerSettings) {
      providerName == PROVIDER_NAME && certificateAlias == s.certificateAlias &&
      privateKeyAlias == s.privateKeyAlias && privateKeyPassword == s.privateKeyPassword &&
      certificateStore == s.certificateStore && keyStoreType == s.keyStoreType
    }
  }

  /** The main SMEV endpoint: its URL and timeout. */
  class MessageTransportConfiguration {
    const url: Option<string>
    const timeout: int

    constructor (e: EndpointSettings)
      ensures url == e.url && timeout == e.timeout
    {
      url := e.url;
      timeout := e.timeout;
    }
  }

  class LargeAttachmentTransportConfiguration {
    const address: Option<string>
    const login: string
    const pass: string
    const maxAttempts: int
    const timeout: int

    constructor (t: TransferSettings)
      ensures Describes(t)
    {
      address := t.address;
      login := t.login;
      pass := t.password;
      maxAttempts := t.maxAttempts;
      timeout := t.timeout;
    }

    predicate Describes(t: TransferSettings) {
      address == t.address && login == t.login && pass == t.password &&
      maxAttempts == t.maxAttempts && timeout == t.timeout
    }
  }

  /** A MessageMapperConfigurationImpl with an empty list of rejection exceptions. */
  class MessageGenerationConfiguration {
    const rejectionExceptions: seq<string>

    constructor ()
      ensures rejectionExceptions == []
    {
      rejectionExceptions := [];
    }
  }

  datatype TemplateKind = Ws | Geo

  class Smev3Configuration {
    const settings: Settings
    var signerConfiguration: Option<SignerConfiguration>
    var messageTransportConfiguration: Option<MessageTransportConfiguration>
    var largeAttachmentTransportConfiguration: Option<LargeAttachmentTransportConfiguration>
    var wsTemplateConfiguration: Option<TemplateConfiguration>
    var geoTemplateConfiguration: Option<TemplateConfiguration>
    var messageGenerationConfiguration: Option<MessageGenerationConfiguration>

    /** Every cached object describes the settings; each template refers back here. */
    predicate Valid()
      reads this
    {
      (signerConfiguration.Some? ==> signerConfiguration.value.Describes(settings.signer)) &&
      (messageTransportConfiguration.Some? ==>
         messageTransportConfiguration.value.url == settings.main.url &&
         messageTransportConfiguration.value.timeout == settings.main.timeout) &&
      (largeAttachmentTransportConfiguration.Some? ==>
         largeAttachmentTransportConfiguration.value.Describes(settings.transfer)) &&
      (wsTemplateConfiguration.Some? ==>
         wsTemplateConfiguration.value.outer == this && wsTemplateConfiguration.value.kind == Ws) &&
      (geoTemplateConfiguration.Some? ==>
         geoTemplateConfiguration.value.outer == this && geoTemplateConfiguration.value.kind == Geo) &&
      (messageGenerationConfiguration.Some? ==> messageGenerationConfiguration.value.rejectionExceptions == [])
    }

    constructor (settings: Settings)
      ensures this.settings == settings && Valid()
      ensures signerConfiguration.None? && messageTransportConfiguration.None? &&
              largeAttachmentTransportConfiguration.None? && wsTemplateConfiguration.None? &&
              geoTemplateConfiguration.None? && messageGenerationConfiguration.None?
    {
      this.settings := settings;
      signerConfiguration := None;
      messageTransportConfiguration := None;
      largeAttachmentTransportConfiguration := None;
      wsTemplateConfiguration := None;
      geoTemplateConfiguration := None;
      messageGenerationConfiguration := None;
    }

    /** Only the cache named in `changed` may differ from before. */
    twostate predicate OthersUnchanged(changed: string)
      reads this
    {
      (changed != "signer" ==> signerConfiguration == old(signerConfiguration)) &&
      (changed != "transport" ==> messageTransportConfiguration == old(messageTransportConfiguration)) &&
      (changed != "large" ==> largeAttachmentTransportConfiguration == old(largeAttachmentTransportConfiguration)) &&
      (changed != "ws" ==> wsTemplateConfiguration == old(wsTemplateConfiguration)) &&
      (changed != "geo" ==> geoTemplateConfiguration == old(geoTemplateConfiguration)) &&
      (changed != "generation" ==> messageGenerationConfiguration == old(messageGenerationConfiguration))
    }

    method GetSignerConfiguration() returns (c: SignerConfiguration)
      requires Valid()
      modifies this
      ensures Valid() && OthersUnchanged("signer")
      ensures signerConfiguration == Some(c) && c.Describes(settings.signer)
      ensures old(signerConfiguration).Some? ==> c == old(signerConfiguration).value
      ensures old(signerConfiguration).None? ==> fresh(c)
    {
      if signerConfiguration.None? {
        var made := new SignerConfiguration(settings.signer);
        signerConfiguration := Some(made);
      }
      c := signerConfiguration.value;
    }

    method GetMessageTransportConfiguration() returns (c: MessageTransportConfiguration)
      requires Valid()
      modifies this
      ensures Valid() && OthersUnchanged("transport")
      ensures messageTransportConfiguration == Some(c)
      ensures c.url == settings.main.url && c.timeout == settings.main.timeout
      ensures old(messageTransportConfiguration).Some? ==> c == old(messageTransportConfiguration).value
      ensures old(messageTransportConfiguration).None? ==> fresh(c)
    {
      if messageTransportConfiguration.None? {
        var made := new MessageTransportConfiguration(settings.main);
        messageTransportConfiguration := Some(made);
      }
      c := messageTransportConfiguration.value;
    }

    method GetLargeAttachmentTransportConfiguration() returns (c: LargeAttachmentTransportConfiguration)
      requires Valid()
      modifies this
      ensures Valid() && OthersUnchanged("large")
      ensures largeAttachmentTransportConfiguration == Some(c) && c.Describes(settings.transfer)
      ensures old(largeAttachmentTransportConfiguration).Some? ==> c == old(largeAttachmentTransportConfiguration).value
      ensures old(largeAttachmentTransportConfiguration).None? ==> fresh(c)
    {
      if largeAttachmentTransportConfiguration.None? {
        var made := new LargeAttachmentTransportConfiguration(settings.transfer);
        largeAttachmentTransportConfiguration := Some(made);
      }
      c := largeAttachmentTransportConfiguration.value;
    }

    method GetWSTemplateConfiguration() returns (c: TemplateConfiguration)
      requires Valid()
      modifies this
      ensures Valid() && OthersUnchanged("ws")
      ensures wsTemplateConfiguration == Some(c) && c.outer == this && c.kind == Ws
      ensures old(wsTemplateConfiguration).Some? ==> c == old(wsTemplateConfiguration).value
      ensures old(wsTemplateConfiguration).None? ==> fresh(c)
    {
      if wsTemplateConfiguration.None? {
        var made := new TemplateConfiguration(this, Ws);
        wsTemplateConfiguration := Some(made);
      }
      c := wsTemplateConfiguration.value;
    }

    method GetGeoTemplateConfiguration() returns (c: TemplateConfiguration)
      requires Valid()
      modifies this
      ensures Valid() && OthersUnchanged("geo")
      ensures geoTemplateConfiguration == Some(c) && c.outer == this && c.kind == Geo
      ensures old(geoTemplateConfiguration).Some? ==> c == old(geoTemplateConfiguration).value
      ensures old(geoTemplateConfiguration).None? ==> fresh(c)
    {
      if geoTemplateConfiguration.None? {
        var made := new TemplateConfiguration(this, Geo);
        geoTemplateConfiguration := Some(made);
      }
      c := geoTemplateConfiguration.value;
    }
  }

  /** The WS and the geo template configurations. Both delegate to the
      enclosing configuration's getters and share its one message-generation
      configuration; only the geo template lists transports, only the WS
      template names the main endpoint directly. */
  class TemplateConfiguration {
    const outer: Smev3Configuration
    const kind: TemplateKind

    constructor (outer: Smev3Configuration, kind: TemplateKind)
      ensures this.outer == outer && this.kind == kind
    {
      this.outer := outer;
      this.kind := kind;
    }

    method GetSignerConfig() returns (c: SignerConfiguration)
      requires outer.Valid()
      modifies outer
      ensures outer.Valid() && c.Describes(outer.settings.signer)
      ensures old(outer.signerConfiguration).Some? ==> c == old(outer.signerConfiguration).value
    {
      c := outer.GetSignerConfiguration();
    }

    method GetLargeAttachmentTransportConfig() returns (c: LargeAttachmentTransportConfiguration)
      requires outer.Valid()
      modifies outer
      ensures outer.Valid() && c.Describes(outer.settings.transfer)
      ensures old(outer.largeAttachmentTransportConfiguration).Some? ==>
                c == old(outer.largeAttachmentTransportConfiguration).value
    {
      c := outer.GetLargeAttachmentTransportConfiguration();
    }

    method GetMessageTransportConfiguration() returns (c: MessageTransportConfiguration)
      requires kind == Ws && outer.Valid()
      modifies outer
      ensures outer.Valid() && c.url == outer.settings.main.url && c.timeout == outer.settings.main.timeout
      ensures old(outer.messageTransportConfiguration).Some? ==> c == old(outer.messageTransportConfiguration).value
    {
      c := outer.GetMessageTransportConfiguration();
    }

    /** Created on the first request from either template, then shared. */
    method GetMessageGenerationConfig() returns (c: MessageGenerationConfiguration)
      requires outer.Valid()
      modifies outer
      ensures outer.Valid() && outer.OthersUnchanged("generation")
      ensures outer.messageGenerationConfiguration == Some(c) && c.rejectionExceptions == []
      ensures old(outer.messageGenerationConfiguration).Some? ==> c == old(outer.messageGenerationConfiguration).value
      ensures old(outer.messageGenerationConfiguration).None? ==> fresh(c)
    {
      if outer.messageGenerationConfiguration.None? {
        var made := new MessageGenerationConfiguration();
        outer.messageGenerationConfiguration := Some(made);
      }
      c := outer.messageGenerationConfiguration.value;
    }

    /** getGeoMessageTransportConfiguration().getTransports(): main, then
      reserve, each only when its URL is set and not empty. */
    method GetTransports() returns (ts: seq<TransportEndpoint>)
      requires kind == Geo
      ensures |ts| == (if Present(outer.settings.main) then 1 else 0) + (if Present(outer.settings.reserve) then 1 else 0)
      ensures Present(outer.settings.main) ==> ts[0] == GeoEntry("main", outer.settings.main)
      ensures Present(outer.settings.reserve) ==> ts[|ts| - 1] == GeoEntry("reserve", outer.settings.reserve)
      ensures forall i :: 0 <= i < |ts| ==> ts[i].name == "main" || ts[i].name == "reserve"
      ensures forall i :: 0 <= i < |ts| ==> |ts[i].url| > 0
    {
      var s := outer.settings;
      ts := [];
      if s.main.url.Some? && |s.main.url.value| > 0 {
        ts := ts + [GeoEntry("main", s.main)];
      }
      if s.reserve.url.Some? && |s.reserve.url.value| > 0 {
        ts := ts + [GeoEntry("reserve", s.reserve)];
      }
    }
  }

  /** Whichever template asks first, both end up with the same message-generation object. */
  method SharedMessageGeneration(conf: Smev3Configuration) returns (a: MessageGenerationConfiguration, b: MessageGenerationConfiguration)
    requires conf.Valid()
    modifies conf
    ensures a == b
  {
    var ws := conf.GetWSTemplateConfiguration();
    var geo := conf.GetGeoTemplateConfiguration();
    a := ws.GetMessageGenerationConfig();
    b := geo.GetMessageGenerationConfig();
  }

  /** Construction as a whole: the configuration object exists exactly when the settings parse. */
  method Create(remaining: string, params: map<string, string>, env: map<string, string>,
                knownVersion: string -> bool, resolve: string -> Option<Strategy>)
    returns (r: Result<Smev3Configuration>, rest: map<string, string>)
    ensures r.Ok? <==> Parse(remaining, params, env, knownVersion, resolve).Ok?
    ensures r.Err? ==> r.error == Parse(remaining, params, env, knownVersion, resolve).error
    ensures r.Ok? ==> fresh(r.value) && r.value.Valid() &&
                      r.value.settings == Parse(remaining, params, env, knownVersion, resolve).value.settings &&
                      rest == Parse(remaining, params, env, knownVersion, resolve).value.rest
    ensures r.Ok? ==> r.value.signerConfiguration.None? && r.value.messageTransportConfiguration.None? &&
                      r.value.largeAttachmentTransportConfiguration.None? && r.value.wsTemplateConfiguration.None? &&
                      r.value.geoTemplateConfiguration.None? && r.value.messageGenerationConfiguration.None?
  {
    var p := Parse(remaining, params, env, knownVersion, resolve);
    if p.Err? {
      return Err(p.error), params;
    }
    var conf := new Smev3Configuration(p.value.settings);
    r, rest := Ok(conf), p.value.rest;
  }
}
