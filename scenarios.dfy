/**
 * Client runs of the logger: the sequence of calls in error_test.c and the
 * behaviours the facility promises its callers, stated as the routing or
 * the exact contents of the two streams afterwards.
 */
module ErrorTest {
  import opened Wrappers
  import opened ErrorFlags
  import opened LogText
  import opened ErrorLog

  /** SIZE_MAX on a 64-bit platform. */
  const SIZE_MAX_64: SizeMax := 0xFFFF_FFFF_FFFF_FFFF

  /** `ENOMEM` from errno.h (Linux value), what a failed `malloc` leaves in errno. */
  const ENOMEM: i32 := 12

  /**
   * Configuring with `a` and then `b` routes exactly as configuring with `b`
   * in a fresh process.
   */
  method ReinitLeavesNoResidue(a: bv32, b: bv32, strerror: i32 -> string) returns (twice: seq<Option<Channel>>, once: seq<Option<Channel>>)
    ensures twice == once
  {
    var first := new Logger(strerror, SIZE_MAX_64);
    first.Init(a);
    first.Init(b);
    var second := new Logger(strerror, SIZE_MAX_64);
    second.Init(b);
    twice, once := first.Routes(), second.Routes();
  }

  /** `error_quit` twice in a row leaves the same state as once, after any configuration. */
  method QuitIdempotent(a: bv32, strerror: i32 -> string) returns (twice: seq<Option<Channel>>, once: seq<Option<Channel>>)
    ensures twice == once == [None, None, None, None, None]
  {
    var first := new Logger(strerror, SIZE_MAX_64);
    first.Init(a);
    first.Quit();
    first.Quit();
    var second := new Logger(strerror, SIZE_MAX_64);
    second.Init(a);
    second.Quit();
    twice, once := first.Routes(), second.Routes();
  }

  /**
   * A disabled family is silent: its four entry points (`_msg`, `_code`,
   * `_msg_fmt`, `_code_fmt`, each with its own message and the formatted
   * ones with their own allocation outcomes) leave both streams as they
   * were, provided ERROR (through which the builder reports) is disabled too.
   */
  method FamilySilent(log: Logger, s: Severity, errnum: i32, msg: string, codeMsg: string,
                      msgText: string, codeText: string,
                      msgAllocOk: bool, msgErrno: i32, codeAllocOk: bool, codeErrno: i32)
    requires log.Slot(s) == None
    requires log.Slot(Error) == None
    requires |msgText| <= log.sizeMax
    requires |codeText| <= log.sizeMax
    modifies log`stdout, log`stderr, log`live, log`errno
    ensures log.stdout == old(log.stdout) && log.stderr == old(log.stderr) && log.live == old(log.live)
  {
    log.Msg(s, msg);
    assert log.stdout == old(log.stdout) && log.stderr == old(log.stderr);
    log.Code(s, errnum, codeMsg);
    assert log.stdout == old(log.stdout) && log.stderr == old(log.stderr);
    log.MsgFmt(s, msgText, |msgText|, msgAllocOk, msgErrno);
    assert log.stdout == old(log.stdout) && log.stderr == old(log.stderr);
    log.CodeFmt(s, errnum, codeText, |codeText|, codeAllocOk, codeErrno);
  }

  /** `<family>_msg` on a disabled family writes nothing. */
  method MsgSilent(log: Logger, s: Severity, msg: string)
    requires log.Slot(s) == None
    modifies log`stdout, log`stderr
    ensures log.stdout == old(log.stdout) && log.stderr == old(log.stderr)
  {
    log.Msg(s, msg);
  }

  /** `error_errno` writes nothing while ERROR is disabled. */
  method ErrnoSilent(log: Logger, errnum: i32)
    requires log.Slot(Error) == None
    modifies log`stdout, log`stderr
    ensures log.stdout == old(log.stdout) && log.stderr == old(log.stderr)
  {
    log.ErrorErrno(errnum);
  }

  /** Every slot is NULL: the state LOG_MODE_NOTHING and `error_quit` leave. */
  predicate Silenced(log: Logger)
    reads log
  {
    log.Slot(Error) == log.Slot(Warning) == log.Slot(Info) == log.Slot(Verbose) == log.Slot(Debug) == None
  }

  /**
   * Lines 18-43 of error_test.c under LOG_MODE_NOTHING: every entry point
   * of every family with the test's own arguments, and two `error_errno`
   * calls. The formatted messages are given substituted (`%d` of 0); the
   * k-th formatted call's allocation succeeds when `allocOk(k)` and leaves
   * `allocErrno(k)` when it fails. Nothing reaches either stream.
   */
  method EveryEntryPointSilent(log: Logger, allocOk: nat -> bool, allocErrno: nat -> i32)
    requires Silenced(log)
    requires log.sizeMax == SIZE_MAX_64
    modifies log`stdout, log`stderr, log`live, log`errno
    ensures log.stdout == old(log.stdout) && log.stderr == old(log.stderr) && log.live == old(log.live)
  {
    FamilySilent(log, Error, 0, "error msg", "error", "error msg fmt 0", "error code fmt 0",
                 allocOk(0), allocErrno(0), allocOk(1), allocErrno(1));
    ErrnoSilent(log, ERANGE);
    ErrnoSilent(log, 0);
    assert Silenced(log);
    FamilySilent(log, Warning, 0, "warn msg", "warn", "warn msg fmt 0", "warn code fmt 0",
                 allocOk(2), allocErrno(2), allocOk(3), allocErrno(3));
    assert Silenced(log);
    FamilySilent(log, Info, 0, "info msg", "info", "info msg fmt 0", "info code fmt 0",
                 allocOk(4), allocErrno(4), allocOk(5), allocErrno(5));
    assert Silenced(log);
    FamilySilent(log, Verbose, 0, "verbose msg", "verbose", "verbose msg fmt 0", "verbose code fmt 0",
                 allocOk(6), allocErrno(6), allocOk(7), allocErrno(7));
    assert Silenced(log);
    FamilySilent(log, Debug, 0, "debug msg", "debug", "debug msg fmt 0", "debug code fmt 0",
                 allocOk(8), allocErrno(8), allocOk(9), allocErrno(9));
  }

  /**
   * The opening of error_test.c: a write before any init, a full init
   * immediately replaced by LOG_MODE_NOTHING, then every entry point, then
   * a full init, a quit and a write after it. Nothing reaches either
   * stream, whatever allocation does.
   */
  method ErrorTestRun(strerror: i32 -> string, allocOk: nat -> bool, allocErrno: nat -> i32) returns (out: seq<string>, err: seq<string>)
    ensures out == [] && err == []
  {
    var log := new Logger(strerror, SIZE_MAX_64);
    assert log.Slot(Error) == None;
    MsgSilent(log, Error, "error before init");
    assert log.stdout == [] && log.stderr == [];
    log.Init(LOG_MODE_EVERYTHING);
    log.Init(LOG_MODE_NOTHING);
    RoutingOfPresets(Error);
    RoutingOfPresets(Warning);
    RoutingOfPresets(Info);
    RoutingOfPresets(Verbose);
    RoutingOfPresets(Debug);
    EveryEntryPointSilent(log, allocOk, allocErrno);
    log.Init(LOG_MODE_EVERYTHING);
    log.Quit();
    assert log.Slot(Error) == None;
    MsgSilent(log, Error, "error after quit");
    assert log.stdout == [] && log.stderr == [];
    out, err := log.stdout, log.stderr;
  }

  /** The exact text of the lines TerseRun expects. */
  lemma TerseTexts()
    ensures MsgLine(Label(Info), CString("i")) == "info: i\n"
    ensures CodeLine(Label(Error), 5, CString("bad")) == "error: 5: bad\n"
  {
    CStringPlain("i");
    CStringPlain("bad");
    assert Decimal(5) == "5";
  }

  /** The exact text `error_errno(0)` prints. */
  lemma UnknownErrorText(log: Logger)
    ensures log.ErrnoLine(0) == "error: 0: Unknown error\n"
  {
    assert Decimal(0) == "0";
  }

  /**
   * With only ERROR and INFO enabled: a warning is dropped, info goes to
   * stdout, error codes go to stderr, and `error_errno(0)` prints the
   * generic description.
   */
  method TerseRun(strerror: i32 -> string) returns (out: seq<string>, err: seq<string>)
    ensures out == ["info: i\n"]
    ensures err == ["error: 5: bad\n", "error: 0: Unknown error\n"]
  {
    var log := new Logger(strerror, SIZE_MAX_64);
    log.Init(LOG_MODE_TERSE);
    assert log.Slot(Warning) == None;
    assert log.Slot(Info) == Some(Stdout) && log.Slot(Error) == Some(Stderr);
    log.Msg(Warning, "w");
    log.Msg(Info, "i");
    log.Code(Error, 5, "bad");
    log.ErrorErrno(0);
    TerseTexts();
    UnknownErrorText(log);
    out, err := log.stdout, log.stderr;
  }

  /** The exact text of the lines TerseFormattedRun expects. */
  lemma TerseFormattedTexts()
    ensures MsgLine(Label(Info), FormattedMessage("x = 7", 5, SIZE_MAX_64)) == "info: x = 7\n"
  {
    FormattedMessageExact("x = 7", SIZE_MAX_64);
  }

  /**
   * Formatted entry points under LOG_MODE_TERSE: an enabled family prints
   * the substituted text exactly; a disabled one prints nothing of its own,
   * yet a failed allocation in it is still reported through ERROR and
   * leaves ENOMEM in `errno` for the caller.
   */
  method TerseFormattedRun(strerror: i32 -> string) returns (out: seq<string>, err: seq<string>, errno: i32)
    ensures out == ["info: x = 7\n"]
    ensures err == ["error: 12: " + CString(strerror(12)) + "\n"]
    ensures errno == ENOMEM
  {
    var log := new Logger(strerror, SIZE_MAX_64);
    log.Init(LOG_MODE_TERSE);
    assert log.Slot(Debug) == None;
    assert log.Slot(Info) == Some(Stdout) && log.Slot(Error) == Some(Stderr);
    TerseFormattedTexts();
    ReportTexts(log);
    log.MsgFmt(Info, "x = 7", 5, true, 0);
    assert log.stdout == ["info: x = 7\n"] && log.stderr == [];
    log.MsgFmt(Debug, "dropped", 7, false, ENOMEM);
    assert log.stderr == [log.ErrnoLine(ENOMEM)];
    out, err, errno := log.stdout, log.stderr, log.errno;
  }

  /** The exact text of the message line ClampRun expects, with SIZE_MAX = 4. */
  lemma ClampTexts()
    ensures FormattedMessage("hello", 4, 4) == "hel"
    ensures MsgLine(Label(Info), "hel") == "info: hel\n"
  {
    assert Stored("hello", ClampLength(4, 4)) == "hel";
    CStringPlain("hel");
  }

  /** The exact text of the ERANGE and ENOMEM reports. */
  lemma ReportTexts(log: Logger)
    ensures log.ErrnoLine(ERANGE) == "error: 34: " + CString(log.strerror(34)) + "\n"
    ensures log.ErrnoLine(ENOMEM) == "error: 12: " + CString(log.strerror(12)) + "\n"
  {
    assert Decimal(34) == "34" && Decimal(12) == "12";
  }

  /**
   * A dry run that reports SIZE_MAX (a failed `vsnprintf` returns -1, which
   * becomes SIZE_MAX as a `size_t`) is clamped and reported as ERANGE. In
   * the enabled INFO family the allocation succeeds and the message is cut
   * to SIZE_MAX - 1 characters; in the disabled VERBOSE family it fails, so
   * errno is reported as well and nothing else is printed.
   */
  method ClampRun(strerror: i32 -> string) returns (out: seq<string>, err: seq<string>)
    ensures out == ["info: hel\n"]
    ensures err == [
      "error: 34: " + CString(strerror(34)) + "\n",
      "error: 34: " + CString(strerror(34)) + "\n",
      "error: 12: " + CString(strerror(12)) + "\n"
    ]
  {
    var log := new Logger(strerror, 4);
    log.Init(LOG_MODE_TERSE);
    assert log.Slot(Verbose) == None;
    assert log.Slot(Info) == Some(Stdout) && log.Slot(Error) == Some(Stderr);
    ClampTexts();
    ReportTexts(log);
    log.MsgFmt(Info, "hello", 4, true, 0);
    assert log.stdout == ["info: hel\n"] && log.stderr == [log.ErrnoLine(ERANGE)];
    log.MsgFmt(Verbose, "hello", 4, false, ENOMEM);
    assert log.stderr == [log.ErrnoLine(ERANGE), log.ErrnoLine(ERANGE), log.ErrnoLine(ENOMEM)];
    out, err := log.stdout, log.stderr;
  }
}
