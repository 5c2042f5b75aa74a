/** Where log records go and which records are kept. */
module Logger {
  import opened Common

  /** The `log` crate's levels, most severe first. */
  datatype Level = Error | Warn | Info | Debug | Trace

  /** The crate's numbering: Error is 1, Trace is 5. */
  function Severity(l: Level): nat {
    match l
    case Error => 1
    case Warn => 2
    case Info => 3
    case Debug => 4
    case Trace => 5
  }

  /** `Logger::enabled`: a record passes when its level is at most Info. */
  function Enabled(l: Level): (r: bool)
    ensures r <==> l == Error || l == Warn || l == Info
    ensures !r <==> l == Debug || l == Trace
  {
    Severity(l) <= Severity(Info)
  }

  /** A record enabled at some level is enabled at every more severe level. */
  lemma EnabledDownward(l: Level, m: Level)
    requires Severity(m) <= Severity(l) && Enabled(l)
    ensures Enabled(m)
  {
  }

  datatype Destination = Stdout | File(path: string)

  /** `set_log_file`: the path "-" means standard output, anything else a
      file of that path. */
  function SetLogFile(path: string): (d: Destination)
    ensures d.Stdout? <==> path == "-"
    ensures d.File? ==> d.path == path
  {
    if path == "-" then Stdout else File(path)
  }

  /** The destination `init_logger` picks: "-" first, whatever the images
      directory; an absolute name, or any name without an images directory,
      unchanged; otherwise the name under the images directory. */
  function LogDestination(imagesDir: Option<string>, filename: string): (d: Destination)
    ensures filename == "-" ==> d == Stdout
    ensures filename != "-" && (imagesDir.None? || StartsWith(filename, "/")) ==> d == File(filename)
    ensures filename != "-" && imagesDir.Some? && !StartsWith(filename, "/") ==>
              d == File(PathJoin(imagesDir.value, filename))
  {
    if filename == "-" then SetLogFile("-")
    else if imagesDir.None? || StartsWith(filename, "/") then SetLogFile(filename)
    else SetLogFile(PathJoin(imagesDir.value, filename))
  }

  /** The images directory only matters for a relative file name. */
  lemma DirectoryOnlyForRelativeNames(d1: Option<string>, d2: Option<string>, filename: string)
    requires filename == "-" || StartsWith(filename, "/")
    ensures LogDestination(d1, filename) == LogDestination(d2, filename)
  {
  }

  /** What the file system and the `log` crate answer during initialisation. */
  datatype LoggerEnv = LoggerEnv(
    canCreateDir: string -> bool,   // `create_dir_all` succeeds
    canOpen: string -> bool,        // the file opens for writing
    loggerSet: bool)                // a logger was installed before

  datatype LoggerError = IoError(path: string) | LoggerInitError

  /** `init_logger`: create the images directory for a relative name, open
      the file unless it is standard output, then install the logger. */
  function InitLogger(imagesDir: Option<string>, filename: string, env: LoggerEnv): (r: Result<Destination, LoggerError>)
    ensures r.Ok? ==> r.value == LogDestination(imagesDir, filename) && !env.loggerSet
    ensures filename == "-" ==> (r.Ok? <==> !env.loggerSet)
    ensures r.Ok? && r.value.File? ==> env.canOpen(r.value.path)
    ensures r.Ok? && filename != "-" && imagesDir.Some? && !StartsWith(filename, "/") ==>
              env.canCreateDir(imagesDir.value)
    // the directory, the file and a free logger slot are also enough
    ensures r.Ok? <==>
              (filename == "-" || imagesDir.None? || StartsWith(filename, "/") || env.canCreateDir(imagesDir.value)) &&
              (LogDestination(imagesDir, filename).File? ==> env.canOpen(LogDestination(imagesDir, filename).path)) &&
              !env.loggerSet
    ensures r == Err(LoggerInitError) ==> !(LogDestination(imagesDir, filename).File? &&
                                           !env.canOpen(LogDestination(imagesDir, filename).path))
  {
    var dirReady :=
      filename == "-" || imagesDir.None? || StartsWith(filename, "/") || env.canCreateDir(imagesDir.value);
    if !dirReady then Err(IoError(imagesDir.value))
    else
      var d := LogDestination(imagesDir, filename);
      if d.File? && !env.canOpen(d.path) then Err(IoError(d.path))
      else if env.loggerSet then Err(LoggerInitError)
      else Ok(d)
  }
}
