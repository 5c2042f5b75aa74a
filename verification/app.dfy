/** The client binary's entry: which mode runs, how the action hook reads its
    configuration, and what it decides before contacting the server. */
module App {
  import opened Common
  import opened Constants
  import Logger

  // ---------------------------------------------------------------------------
  // Actions

  datatype ActionType = PreStreamer | PreDump | PostDump | PreRestore | Other

  /** `ActionType::to_str`. The pre-streamer action name is not among the
      program's constants, so it is a parameter. */
  function ToStr(a: ActionType, preStreamer: string): (r: string)
    ensures r == "" <==> a == ActionType.Other || (a == PreStreamer && preStreamer == "")
    ensures a == PreStreamer ==> r == preStreamer
    // with a pre-streamer name of its own, each constant names exactly one variant
    ensures DistinctPreStreamer(preStreamer) ==>
              (r == ActionPreDump <==> a == PreDump) && (r == ActionPostDump <==> a == PostDump) &&
              (r == ActionPreRestore <==> a == PreRestore)
  {
    match a
    case PreStreamer => preStreamer
    case PreDump => ActionPreDump
    case PostDump => ActionPostDump
    case PreRestore => ActionPreRestore
    case Other => ""
  }

  /** `ActionType::from_str`: never fails; the arms are tried in order and
      every unlisted name is `Other`. */
  function FromStr(s: string, preStreamer: string): (a: ActionType)
    ensures a == ActionType.Other <==> s != preStreamer && s != ActionPreDump && s != ActionPostDump && s != ActionPreRestore
    ensures a == PreStreamer <==> s == preStreamer
  {
    if s == preStreamer then PreStreamer
    else if s == ActionPreDump then PreDump
    else if s == ActionPostDump then PostDump
    else if s == ActionPreRestore then PreRestore
    else ActionType.Other
  }

  /** A name for the pre-streamer action distinct from the other three. */
  predicate DistinctPreStreamer(preStreamer: string) {
    preStreamer != ActionPreDump && preStreamer != ActionPostDump && preStreamer != ActionPreRestore
  }

  /** The four recognised names survive the round trip; everything else
      comes back as "". */
  lemma ActionNameRoundTrip(s: string, preStreamer: string)
    ensures FromStr(s, preStreamer) != ActionType.Other ==> ToStr(FromStr(s, preStreamer), preStreamer) == s
    ensures FromStr(s, preStreamer) == ActionType.Other ==> ToStr(FromStr(s, preStreamer), preStreamer) == ""
  {
  }

  /** Every variant but `Other` is recovered from its name. */
  lemma ActionTypeRoundTrip(a: ActionType, preStreamer: string)
    requires a != ActionType.Other && DistinctPreStreamer(preStreamer)
    ensures FromStr(ToStr(a, preStreamer), preStreamer) == a
  {
  }

  // ---------------------------------------------------------------------------
  // Configuration

  datatype ClientConfig = ClientConfig(
    logFile: string,
    address: string,
    port: string,
    id: string,
    dependencies: string)

  /** The program's error kinds. `Other` is used for logger failures. */
  datatype AppError =
    | ConfigNotFound(message: string)
    | ConfigParse(message: string)
    | InvalidPort(kind: ParseError)
    | MissingEnvVar(name: string)
    | SocketError(message: string)
    | IoError(message: string)
    | Other(message: string)

  const KeyId: string := "id"
  const KeyDependencies: string := "dependencies"
  const KeyAddress: string := "address"
  const KeyPort: string := "port"
  const KeyLogFile: string := "log-file"
  const GlobalConfigDir: string := "/etc/criu"

  /** The two places a configuration file is looked for, in order. */
  function ConfigCandidates(imagesDir: string): (r: seq<string>)
    ensures |r| == 2 && r[0] == PathJoin(imagesDir, ConfigFile) && r[1] == PathJoin(GlobalConfigDir, ConfigFile)
  {
    [PathJoin(imagesDir, ConfigFile), PathJoin(GlobalConfigDir, ConfigFile)]
  }

  /** The settings map's entries with their defaults; only the id is required. */
  function ConfigFromSettings(settings: map<string, string>): (r: Result<ClientConfig, AppError>)
    ensures KeyId !in settings <==> r == Err(ConfigParse("ID missing in config file"))
    ensures r.Ok? ==> r.value.id == settings[KeyId]
    ensures r.Ok? ==> r.value.dependencies == (if KeyDependencies in settings then settings[KeyDependencies] else "")
    ensures r.Ok? ==> r.value.address == (if KeyAddress in settings then settings[KeyAddress] else DefaultAddress)
    ensures r.Ok? ==> r.value.port == (if KeyPort in settings then settings[KeyPort] else DefaultPort)
    ensures r.Ok? ==> r.value.logFile == (if KeyLogFile in settings then settings[KeyLogFile] else "-")
  {
    if KeyId !in settings then Err(ConfigParse("ID missing in config file"))
    else
      Ok(ClientConfig(
        Get(settings, KeyLogFile, "-"),
        Get(settings, KeyAddress, DefaultAddress),
        Get(settings, KeyPort, DefaultPort),
        settings[KeyId],
        Get(settings, KeyDependencies, "")))
  }

  function Get(m: map<string, string>, key: string, default: string): string {
    if key in m then m[key] else default
  }

  /** `load_config_file`: the first candidate that is a file is read, the
      images directory before /etc/criu; `read` is the deserialisation of a
      file into a string map. */
  function LoadConfigFile(imagesDir: string, isFile: string -> bool,
                          read: string -> Result<map<string, string>, string>): (r: Result<ClientConfig, AppError>)
    ensures var c := ConfigCandidates(imagesDir);
            !isFile(c[0]) && !isFile(c[1]) ==> r.Err? && r.error.ConfigNotFound?
    ensures var c := ConfigCandidates(imagesDir);
            isFile(c[0]) && read(c[0]).Ok? ==> r == ConfigFromSettings(read(c[0]).value)
    ensures var c := ConfigCandidates(imagesDir);
            !isFile(c[0]) && isFile(c[1]) && read(c[1]).Ok? ==> r == ConfigFromSettings(read(c[1]).value)
    // the first candidate that is a file is the only one read: a broken one is an error
    ensures var c := ConfigCandidates(imagesDir);
            isFile(c[0]) && read(c[0]).Err? ==> r.Err? && r.error.ConfigParse?
    ensures var c := ConfigCandidates(imagesDir);
            !isFile(c[0]) && isFile(c[1]) && read(c[1]).Err? ==> r.Err? && r.error.ConfigParse?
    ensures r.Ok? ==> exists p :: p in ConfigCandidates(imagesDir) && isFile(p) && read(p).Ok? &&
                                  r == ConfigFromSettings(read(p).value)
  {
    var c := ConfigCandidates(imagesDir);
    var found := if isFile(c[0]) then Some(c[0]) else if isFile(c[1]) then Some(c[1]) else None;
    match found
    case None => Err(ConfigNotFound("Could not find config file in " + imagesDir + " or " + GlobalConfigDir))
    case Some(path) =>
      match read(path)
      case Err(e) => Err(ConfigParse("Failed to parse config values: " + e))
      case Ok(settings) => ConfigFromSettings(settings)
  }

  /** A file holding only an id yields every default. */
  lemma DefaultsForIdOnly(id: string)
    ensures ConfigFromSettings(map[KeyId := id]) ==
              Ok(ClientConfig("-", DefaultAddress, DefaultPort, id, ""))
  {
  }

  // ---------------------------------------------------------------------------
  // Port numbers

  type U16 = x: int | 0 <= x < 0x1_0000

  /** Why `str::parse::<u16>` refuses a string. */
  datatype ParseError = Empty | InvalidDigit | PosOverflow

  predicate IsDigit(c: char) {
    '0' <= c <= '9'
  }

  predicate AllDigits(s: string) {
    forall i :: 0 <= i < |s| ==> IsDigit(s[i])
  }

  /** The value of a string of decimal digits. */
  function DecimalValue(s: string): nat
    requires AllDigits(s)
    decreases |s|
  {
    if |s| == 0 then 0 else DecimalValue(s[..|s| - 1]) * 10 + (s[|s| - 1] as int - '0' as int)
  }

  /** A prefix of a digit string is worth no more than the whole. */
  lemma {:induction false} PrefixValueBelow(d: string, j: nat)
    requires AllDigits(d) && j <= |d|
    ensures DecimalValue(d[..j]) <= DecimalValue(d)
    decreases |d|
  {
    if j < |d| {
      var init := d[..|d| - 1];
      assert AllDigits(init);
      PrefixValueBelow(init, j);
      assert init[..j] == d[..j];
    } else {
      assert d[..j] == d;
    }
  }

  /** The digit loop of `u16::from_str`, left to right from position `i`,
      `acc` being the value of the digits before it: the first non-digit is
      an invalid digit, the first digit that takes the value past 65535 an
      overflow, whichever comes first. */
  function ScanDigits(d: string, i: nat, acc: nat): (r: Result<U16, ParseError>)
    requires i <= |d| && AllDigits(d[..i]) && acc == DecimalValue(d[..i]) && acc < 0x1_0000
    ensures r.Ok? <==> AllDigits(d) && DecimalValue(d) < 0x1_0000
    ensures r.Ok? ==> r.value == DecimalValue(d)
    ensures r == Err(InvalidDigit) ==>
              exists j :: i <= j < |d| && !IsDigit(d[j]) && AllDigits(d[..j]) && DecimalValue(d[..j]) < 0x1_0000
    ensures r == Err(PosOverflow) ==>
              exists j :: i < j <= |d| && AllDigits(d[..j]) && DecimalValue(d[..j]) >= 0x1_0000
    ensures r != Err(Empty)
    decreases |d| - i
  {
    if i == |d| then
      assert d[..i] == d;
      Ok(acc)
    else if !IsDigit(d[i]) then Err(InvalidDigit)
    else
      var next := d[..i + 1];
      assert next[..i] == d[..i] && next[i] == d[i];
      assert AllDigits(next);
      var v := acc * 10 + (d[i] as int - '0' as int);
      assert DecimalValue(next) == v;
      if v >= 0x1_0000 then
        assert AllDigits(d) ==> DecimalValue(d) >= 0x1_0000 by {
          if AllDigits(d) { PrefixValueBelow(d, i + 1); }
        }
        Err(PosOverflow)
      else ScanDigits(d, i + 1, v)
  }

  /** `str::parse::<u16>`: an optional '+', then at least one ASCII digit,
      with a value below 65536. A lone sign is an invalid digit; a '-' is
      never accepted for an unsigned type. An overflow is reported as soon
      as the digits read so far pass 65535, before any later non-digit. */
  function ParseU16(s: string): (r: Result<U16, ParseError>)
    ensures r.Ok? <==> var d := if StartsWith(s, "+") then s[1..] else s;
                       |d| > 0 && AllDigits(d) && DecimalValue(d) < 0x1_0000
    ensures r.Ok? ==> var d := if StartsWith(s, "+") then s[1..] else s; r.value == DecimalValue(d)
    ensures r == Err(Empty) <==> |s| == 0
    ensures r == Err(PosOverflow) ==> var d := if StartsWith(s, "+") then s[1..] else s;
              exists j :: 0 < j <= |d| && AllDigits(d[..j]) && DecimalValue(d[..j]) >= 0x1_0000
    ensures r == Err(InvalidDigit) ==> var d := if StartsWith(s, "+") then s[1..] else s;
              |d| == 0 ||
              exists j :: 0 <= j < |d| && !IsDigit(d[j]) && AllDigits(d[..j]) && DecimalValue(d[..j]) < 0x1_0000
  {
    if |s| == 0 then Err(Empty)
    else if (s[0] == '+' || s[0] == '-') && |s| == 1 then Err(InvalidDigit)
    else
      var d := if s[0] == '+' then s[1..] else s;
      assert d == if StartsWith(s, "+") then s[1..] else s;
      assert d[..0] == [];
      ScanDigits(d, 0, 0)
  }

  function DigitChar(n: nat): (c: char)
    requires n < 10
    ensures IsDigit(c) && c as int - '0' as int == n
  {
    ('0' as int + n) as char
  }

  /** The decimal rendering of a number, without leading zeros. */
  function ShowNat(n: nat): (s: string)
    ensures |s| > 0 && AllDigits(s)
    decreases n
  {
    if n < 10 then [DigitChar(n)] else ShowNat(n / 10) + [DigitChar(n % 10)]
  }

  lemma {:induction false} ShowNatValue(n: nat)
    ensures DecimalValue(ShowNat(n)) == n
    decreases n
  {
    var s := ShowNat(n);
    if n >= 10 {
      ShowNatValue(n / 10);
      assert s[..|s| - 1] == ShowNat(n / 10);
    }
  }

  /** Every port number written in decimal parses back to itself. */
  lemma ParseShownPort(n: U16)
    ensures ParseU16(ShowNat(n)) == Ok(n)
  {
    ShowNatValue(n);
    assert ShowNat(n)[0] != '+';
  }

  /** Digits that already pass 65535 are an overflow even when a
      non-digit follows; a non-digit inside the first five is not. */
  lemma OverflowBeforeBadDigit()
    ensures ParseU16("65536x") == Err(PosOverflow)
    ensures ParseU16("6553x6") == Err(InvalidDigit)
  {
    assert "6"[..0] == [] && "65"[..1] == "6" && "655"[..2] == "65" && "6553"[..3] == "655";
    assert DecimalValue("6553") == 6553 by {
      assert DecimalValue("6") == 6;
      assert DecimalValue("65") == 65;
      assert DecimalValue("655") == 655;
    }
    var d := "65536x";
    assert d[..4] == "6553";
    assert ScanDigits(d, 4, 6553) == Err(PosOverflow);
    var e := "6553x6";
    assert e[..4] == "6553";
    assert ScanDigits(e, 4, 6553) == Err(InvalidDigit);
  }

  // ---------------------------------------------------------------------------
  // The action hook

  /** What the process can observe while running a hook. */
  datatype SocketLookup = LookupFailed(error: string) | IsSocket | NotSocket

  datatype HookEnv = HookEnv(
    imagesDir: Option<string>,                              // CRTOOLS_IMAGE_DIR
    isFile: string -> bool,
    read: string -> Result<map<string, string>, string>,
    captureSocket: SocketLookup,                            // the streamer socket in the images dir
    logger: Logger.LoggerEnv)

  /** The client call the hook ends with. */
  datatype ClientCall = ClientCall(
    address: string,
    port: U16,
    id: string,
    dependencies: string,
    action: string,
    imagesDir: string,
    streaming: bool)

  /** The streaming decision of `run_action_hook`; `None` means the hook
      returns early with success. */
  function Streaming(a: ActionType, socket: SocketLookup): (r: Result<Option<bool>, AppError>)
    ensures a == PreStreamer ==> r == Ok(Some(true))
    ensures a == PostDump || a == PreRestore ==> r == Ok(Some(false))
    ensures a == ActionType.Other ==> r == Ok(None)
    ensures a == PreDump ==> (r == Ok(Some(false)) <==> socket == IsSocket)
    ensures a == PreDump && socket == NotSocket ==> r.Err? && r.error.SocketError?
    ensures a == PreDump && socket.LookupFailed? ==> r == Err(IoError(socket.error))
  {
    match a
    case PreStreamer => Ok(Some(true))
    case PreDump =>
      (match socket
       case IsSocket => Ok(Some(false))
       case NotSocket => Err(SocketError(ImgStreamerCaptureSocketName + " exists but is not a Unix socket"))
       case LookupFailed(e) => Err(IoError(e)))
    case PostDump => Ok(Some(false))
    case PreRestore => Ok(Some(false))
    case Other => Ok(None)
  }

  /** `run_action_hook`: `Ok(None)` when it returns without contacting the
      server, `Ok(Some(call))` when it hands over to the client. */
  function RunActionHook(action: string, preStreamer: string, env: HookEnv): (r: Result<Option<ClientCall>, AppError>)
    ensures env.imagesDir.None? ==> r == Err(MissingEnvVar(EnvImageDir))
    ensures env.imagesDir.Some? && LoadConfigFile(env.imagesDir.value, env.isFile, env.read).Err? ==>
              r == Err(LoadConfigFile(env.imagesDir.value, env.isFile, env.read).error)
    ensures env.imagesDir.Some? && LoadConfigFile(env.imagesDir.value, env.isFile, env.read).Ok? &&
            FromStr(action, preStreamer) == ActionType.Other ==>
              r == Ok(None)
    ensures r.Ok? && r.value.Some? ==>
              var call := r.value.value;
              var cfg := LoadConfigFile(env.imagesDir.value, env.isFile, env.read).value;
              call.address == cfg.address && call.id == cfg.id && call.dependencies == cfg.dependencies &&
              ParseU16(cfg.port) == Ok(call.port) && call.imagesDir == env.imagesDir.value &&
              call.action == action && FromStr(action, preStreamer) != ActionType.Other &&
              (call.streaming <==> FromStr(action, preStreamer) == PreStreamer)
    ensures r.Ok? && r.value.Some? ==> Logger.InitLogger(env.imagesDir, LoadConfigFile(env.imagesDir.value, env.isFile, env.read).value.logFile, env.logger).Ok?
    // past the configuration: the streaming check, then the logger, then the port
    ensures env.imagesDir.Some? && LoadConfigFile(env.imagesDir.value, env.isFile, env.read).Ok? ==>
              var s := Streaming(FromStr(action, preStreamer), env.captureSocket);
              s.Err? ==> r == Err(s.error)
    ensures env.imagesDir.Some? && LoadConfigFile(env.imagesDir.value, env.isFile, env.read).Ok? ==>
              var cfg := LoadConfigFile(env.imagesDir.value, env.isFile, env.read).value;
              var s := Streaming(FromStr(action, preStreamer), env.captureSocket);
              s.Ok? && s.value.Some? && Logger.InitLogger(env.imagesDir, cfg.logFile, env.logger).Err? ==>
                r == Err(AppError.Other("LoggerError"))
    ensures env.imagesDir.Some? && LoadConfigFile(env.imagesDir.value, env.isFile, env.read).Ok? ==>
              var cfg := LoadConfigFile(env.imagesDir.value, env.isFile, env.read).value;
              var s := Streaming(FromStr(action, preStreamer), env.captureSocket);
              s.Ok? && s.value.Some? && Logger.InitLogger(env.imagesDir, cfg.logFile, env.logger).Ok? ==>
                (ParseU16(cfg.port).Err? ==> r == Err(InvalidPort(ParseU16(cfg.port).error))) &&
                (ParseU16(cfg.port).Ok? ==> r.Ok? && r.value.Some?)
    ensures r == Ok(None) ==> FromStr(action, preStreamer) == ActionType.Other
  {
    match env.imagesDir
    case None => Err(MissingEnvVar(EnvImageDir))
    case Some(dir) =>
      match LoadConfigFile(dir, env.isFile, env.read)
      case Err(e) => Err(e)
      case Ok(cfg) =>
        var a := FromStr(action, preStreamer);
        match Streaming(a, env.captureSocket)
        case Err(e) => Err(e)
        case Ok(None) => Ok(None)
        case Ok(Some(streaming)) =>
          match Logger.InitLogger(Some(dir), cfg.logFile, env.logger)
          case Err(_) => Err(AppError.Other("LoggerError"))
          case Ok(_) =>
            match ParseU16(cfg.port)
            case Err(kind) => Err(InvalidPort(kind))
            case Ok(port) =>
              Ok(Some(ClientCall(cfg.address, port, cfg.id, cfg.dependencies, ToStr(a, preStreamer), dir, streaming)))
  }

  /** The two ways the binary runs. */
  datatype Mode = ActionHook(action: string) | Cli

  /** `run`: the hook runs exactly when the CRIU action variable is set. */
  function RunMode(actionVar: Option<string>): (m: Mode)
    ensures m.ActionHook? <==> actionVar.Some?
    ensures m.ActionHook? ==> m.action == actionVar.value
  {
    match actionVar
    case Some(a) => ActionHook(a)
    case None => Cli
  }
}
