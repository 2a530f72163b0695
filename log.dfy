/**
 * The leveled logging facility of error.c: five routing slots, the two
 * line-emission primitives, the measure-then-allocate message builder and
 * the per-severity entry points stamped out by NEW_LOG_TYPE.
 *
 * The two FILE streams are modelled as the sequences of lines written to
 * them. The buffers built for formatted messages are real arrays; the
 * set `live` holds those allocated and not yet freed.
 */
module ErrorLog {
  import opened Wrappers
  import opened ErrorFlags
  import opened LogText

  /** The two streams a severity can be bound to. */
  datatype Channel = Stdout | Stderr

  /** The values `size_t` can hold run from 0 to SIZE_MAX, and SIZE_MAX is positive. */
  type SizeMax = n: nat | 1 <= n witness 1

  /** `ERANGE` from errno.h (Linux value). */
  const ERANGE: i32 := 34

  const UNKNOWN_ERROR: string := "Unknown error"

  /** The `msg_prefix` each NEW_LOG_TYPE instance prints. */
  function Label(s: Severity): (prefix: string)
    ensures |prefix| > 0 && ':' !in prefix && '\0' !in prefix
  {
    match s
    case Error => "error"
    case Warning => "warning"
    case Debug => "debug"
    case Verbose => "verbose"
    case Info => "info"
  }

  /** The stream `error_init` binds an enabled severity to (the `default_stream_*` table). */
  function DefaultChannel(s: Severity): Channel {
    if s == Error || s == Warning then Stderr else Stdout
  }

  /** What a severity's slot holds after `error_init(flags)`. */
  function Routing(flags: bv32, s: Severity): Option<Channel> {
    if IsSet(flags, s) then Some(DefaultChannel(s)) else None
  }

  /** A mask made from a list of severities routes exactly those, each to its fixed stream. */
  lemma RoutingOfList(ss: seq<Severity>, s: Severity)
    ensures Routing(FlagsOf(ss), s) == if s in ss then Some(DefaultChannel(s)) else None
  {
    IsSetFlagsOf(ss, s);
  }

  /** The presets route as their names say; LOG_MODE_NOTHING routes nothing, as `error_quit` leaves it. */
  lemma RoutingOfPresets(s: Severity)
    ensures Routing(LOG_MODE_EVERYTHING, s) == Routing(LOG_MODE_DEBUG, s) == Some(DefaultChannel(s))
    ensures Routing(LOG_MODE_VERBOSE, s) == if s == Debug then None else Some(DefaultChannel(s))
    ensures Routing(LOG_MODE_TERSE, s) == if s in {Error, Info} then Some(DefaultChannel(s)) else None
    ensures Routing(LOG_MODE_NOTHING, s) == None
  {
  }

  /** An enabled severity reaches stderr when it is error or warning and stdout otherwise; a disabled one reaches neither. */
  lemma RoutingStreams(flags: bv32, s: Severity)
    ensures Routing(flags, s) == Some(Stderr) <==> IsSet(flags, s) && (s == Error || s == Warning)
    ensures Routing(flags, s) == Some(Stdout) <==> IsSet(flags, s) && (s == Info || s == Verbose || s == Debug)
    ensures Routing(flags, s) == None <==> !IsSet(flags, s)
  {
  }

  /** The lines that reach stream `c` when `lines` are written through slot `fp`. */
  function Lines(fp: Option<Channel>, c: Channel, lines: seq<string>): seq<string> {
    if fp == Some(c) then lines else []
  }

  /** The length `vsprintf_dup` allocates for, less the terminator: the measured length, clamped. */
  function ClampLength(measured: nat, sizeMax: SizeMax): (length: nat)
    ensures length + 1 <= sizeMax
    ensures length <= measured
    ensures length < measured ==> length == sizeMax - 1
  {
    if sizeMax - 1 < measured then sizeMax - 1 else measured
  }

  /** What `vsnprintf(buffer, length + 1, …)` stores before the terminator: at most `length` characters of the text. */
  function Stored(text: string, length: nat): (s: string)
    ensures |s| <= length && s <= text
    ensures |s| == length || s == text
  {
    if |text| <= length then text else text[..length]
  }

  /** The message a formatted entry point prints when its buffer was allocated. */
  function FormattedMessage(text: string, measured: nat, sizeMax: SizeMax): string {
    CString(Stored(text, ClampLength(measured, sizeMax)))
  }

  /**
   * When the dry run measured the text exactly and it fits, the formatted
   * message is the text itself, as if it had been substituted by hand.
   */
  lemma FormattedMessageExact(text: string, sizeMax: SizeMax)
    requires |text| <= sizeMax - 1 && '\0' !in text
    ensures FormattedMessage(text, |text|, sizeMax) == text
  {
  }

  /** `buffer` holds the C string `t`: its characters, then a terminator, all within bounds. */
  ghost predicate Holds(buffer: array<char>, t: string)
    reads buffer
  {
    |t| < buffer.Length && buffer[..|t|] == t && buffer[|t|] == '\0'
  }

  lemma ReadBack(buffer: array<char>, t: string)
    requires Holds(buffer, t)
    ensures CString(buffer[..]) == CString(t)
  {
  }

  class Logger {
    /** The routing slots `g_stream_*`; None is a NULL stream. */
    var streamInfo: Option<Channel>
    var streamVerbose: Option<Channel>
    var streamDebug: Option<Channel>
    var streamWarn: Option<Channel>
    var streamError: Option<Channel>

    /** The lines written so far to each stream. */
    var stdout: seq<string>
    var stderr: seq<string>

    /** Formatted-message buffers allocated and not yet freed. */
    var live: set<array<char>>

    /** The process's `errno`, which `vsprintf_dup` overwrites. */
    var errno: i32

    /** The platform's `strerror` table and `SIZE_MAX`. */
    const strerror: i32 -> string
    const sizeMax: SizeMax

    /** The slot a severity's entry points write through. */
    function Slot(s: Severity): Option<Channel>
      reads this`streamInfo, this`streamVerbose, this`streamDebug, this`streamWarn, this`streamError
    {
      match s
      case Error => streamError
      case Warning => streamWarn
      case Info => streamInfo
      case Verbose => streamVerbose
      case Debug => streamDebug
    }

    /** The whole routing state, one slot per severity. */
    function Routes(): seq<Option<Channel>>
      reads this`streamInfo, this`streamVerbose, this`streamDebug, this`streamWarn, this`streamError
    {
      [Slot(Error), Slot(Warning), Slot(Info), Slot(Verbose), Slot(Debug)]
    }

    /** Process start: every slot NULL, nothing written, nothing allocated. */
    constructor (strerror: i32 -> string, sizeMax: SizeMax)
      ensures forall s :: Slot(s) == None
      ensures stdout == [] && stderr == [] && live == {} && errno == 0
      ensures this.strerror == strerror && this.sizeMax == sizeMax
    {
      streamInfo, streamVerbose, streamDebug, streamWarn, streamError := None, None, None, None, None;
      stdout, stderr, live, errno := [], [], {}, 0;
      this.strerror, this.sizeMax := strerror, sizeMax;
    }

    /** `error_quit`: disables every severity; writes nothing. */
    method Quit()
      modifies this`streamInfo, this`streamVerbose, this`streamDebug, this`streamWarn, this`streamError
      ensures forall s :: Slot(s) == None
    {
      streamInfo := None;
      streamVerbose := None;
      streamDebug := None;
      streamWarn := None;
      streamError := None;
    }

    /**
     * `error_init`: the new routing depends on `flags` alone, whatever the
     * slots held before, so a second call leaves nothing of the first.
     */
    method Init(flags: bv32)
      modifies this`streamInfo, this`streamVerbose, this`streamDebug, this`streamWarn, this`streamError
      ensures forall s :: Slot(s) == Routing(flags, s)
    {
      Quit();
      assert Slot(Info) == Slot(Verbose) == Slot(Debug) == Slot(Warning) == Slot(Error) == None;
      var info, verbose, debug := IsSet(flags, Info), IsSet(flags, Verbose), IsSet(flags, Debug);
      var warn, error := IsSet(flags, Warning), IsSet(flags, Error);
      if info { streamInfo := Some(Stdout); }
      if verbose { streamVerbose := Some(Stdout); }
      if debug { streamDebug := Some(Stdout); }
      if warn { streamWarn := Some(Stderr); }
      if error { streamError := Some(Stderr); }
    }

    /**
     * `write_log_msg`: nothing on a NULL stream, else one exact line on it.
     * `%s` prints the message up to its first NUL; `%s` of a NULL message is
     * undefined, so an open stream needs a message.
     */
    method WriteLogMsg(fp: Option<Channel>, prefix: string, errmsg: Option<string>)
      requires fp.None? || errmsg.Some?
      modifies this`stdout, this`stderr
      ensures stdout == old(stdout) + Lines(fp, Stdout, if fp.None? then [] else [MsgLine(prefix, CString(errmsg.value))])
      ensures stderr == old(stderr) + Lines(fp, Stderr, if fp.None? then [] else [MsgLine(prefix, CString(errmsg.value))])
    {
      if fp == None {
        return;
      }
      var line := MsgLine(prefix, CString(errmsg.value));
      if fp.value == Stdout {
        stdout := stdout + [line];
      } else {
        stderr := stderr + [line];
      }
    }

    /** `write_log_code`: as `write_log_msg`, with the code printed by `%d`. */
    method WriteLogCode(fp: Option<Channel>, prefix: string, errnum: i32, errmsg: Option<string>)
      requires fp.None? || errmsg.Some?
      modifies this`stdout, this`stderr
      ensures stdout == old(stdout) + Lines(fp, Stdout, if fp.None? then [] else [CodeLine(prefix, errnum, CString(errmsg.value))])
      ensures stderr == old(stderr) + Lines(fp, Stderr, if fp.None? then [] else [CodeLine(prefix, errnum, CString(errmsg.value))])
    {
      if fp == None {
        return;
      }
      var line := CodeLine(prefix, errnum, CString(errmsg.value));
      if fp.value == Stdout {
        stdout := stdout + [line];
      } else {
        stderr := stderr + [line];
      }
    }

    /** `<family>_msg`: writes through the severity's slot with its label. */
    method Msg(s: Severity, errmsg: string)
      modifies this`stdout, this`stderr
      ensures stdout == old(stdout) + Lines(Slot(s), Stdout, [MsgLine(Label(s), CString(errmsg))])
      ensures stderr == old(stderr) + Lines(Slot(s), Stderr, [MsgLine(Label(s), CString(errmsg))])
    {
      WriteLogMsg(Slot(s), Label(s), Some(errmsg));
    }

    /** `<family>_code`. */
    method Code(s: Severity, errnum: i32, errmsg: string)
      modifies this`stdout, this`stderr
      ensures stdout == old(stdout) + Lines(Slot(s), Stdout, [CodeLine(Label(s), errnum, CString(errmsg))])
      ensures stderr == old(stderr) + Lines(Slot(s), Stderr, [CodeLine(Label(s), errnum, CString(errmsg))])
    {
      WriteLogCode(Slot(s), Label(s), errnum, Some(errmsg));
    }

    /** The description `error_errno` prints for a code: "Unknown error", or `strerror`'s text up to its NUL. */
    function ErrnoText(errnum: i32): string {
      if errnum == 0 then UNKNOWN_ERROR else CString(strerror(errnum))
    }

    /** The line `error_errno(errnum)` prints when ERROR is enabled. */
    function ErrnoLine(errnum: i32): string {
      CodeLine(Label(Error), errnum, ErrnoText(errnum))
    }

    /**
     * The errno line reads back as the error label, the code, and "Unknown
     * error" for 0 or the platform's description otherwise.
     */
    lemma ErrnoLineReadsBack(errnum: i32)
      ensures ParseCodeLine(ErrnoLine(errnum))
           == Some(("error", errnum as int, if errnum == 0 then UNKNOWN_ERROR else CString(strerror(errnum))))
    {
      CodeLineRoundTrip(Label(Error), errnum, ErrnoText(errnum));
    }

    /** `error_errno`: reports a code and its description through `error_code`. */
    method ErrorErrno(errnum: i32)
      modifies this`stdout, this`stderr
      ensures stdout == old(stdout) + Lines(streamError, Stdout, [ErrnoLine(errnum)])
      ensures stderr == old(stderr) + Lines(streamError, Stderr, [ErrnoLine(errnum)])
    {
      var errmsg := if errnum == 0 then UNKNOWN_ERROR else strerror(errnum);
      CStringPlain(if errnum == 0 then UNKNOWN_ERROR else CString(strerror(errnum)));
      Code(Error, errnum, errmsg);
    }

    /**
     * The lines `vsprintf_dup` reports through the error family: ERANGE when
     * the measured length is clamped, then errno when allocation fails.
     */
    function DupReports(measured: nat, allocOk: bool, allocErrno: i32): (lines: seq<string>)
      ensures |lines| <= 2
      ensures lines == [] <==> measured <= sizeMax - 1 && allocOk
      ensures measured > sizeMax - 1 ==> lines[0] == ErrnoLine(ERANGE)
      ensures !allocOk ==> lines[|lines| - 1] == ErrnoLine(allocErrno)
    {
      (if sizeMax - 1 < measured then [ErrnoLine(ERANGE)] else [])
        + (if allocOk then [] else [ErrnoLine(allocErrno)])
    }

    /**
     * `vsprintf_dup`. `text` is the fully substituted message, `measured` the
     * value the dry run returned as a `size_t`, `allocOk` whether `malloc`
     * succeeds and `allocErrno` the errno it leaves when it fails. The
     * allocation request `length + 1` never exceeds SIZE_MAX, and the write
     * stays inside the buffer (array bounds are checked). `errno` is left at
     * 0 when allocation succeeds and at `allocErrno` when it fails.
     */
    method VsprintfDup(text: string, measured: nat, allocOk: bool, allocErrno: i32) returns (buffer: array?<char>)
      requires measured <= sizeMax
      modifies this`stdout, this`stderr, this`live, this`errno
      ensures buffer != null <==> allocOk
      ensures errno == if allocOk then 0 else allocErrno
      ensures buffer == null ==> live == old(live)
      ensures buffer != null ==>
        && fresh(buffer)
        && live == old(live) + {buffer}
        && buffer.Length == ClampLength(measured, sizeMax) + 1 <= sizeMax
        && Holds(buffer, Stored(text, ClampLength(measured, sizeMax)))
      ensures stdout == old(stdout) + Lines(streamError, Stdout, DupReports(measured, allocOk, allocErrno))
      ensures stderr == old(stderr) + Lines(streamError, Stderr, DupReports(measured, allocOk, allocErrno))
    {
      var length := measured;
      if sizeMax - 1 < length {
        errno := ERANGE;
        ErrorErrno(ERANGE);
        length := sizeMax - 1;
      }
      errno := 0;
      if !allocOk {
        errno := allocErrno;
        ErrorErrno(allocErrno);
        return null;
      }
      buffer := new char[length + 1];
      var stored := Stored(text, length);
      forall i | 0 <= i < |stored| {
        buffer[i] := stored[i];
      }
      buffer[|stored|] := '\0';
      live := live + {buffer};
    }

    /** `free`: releases a live buffer; NULL is allowed, a buffer not live is not. */
    method Free(p: array?<char>)
      requires p == null || p in live
      modifies this`live
      ensures p == null ==> live == old(live)
      ensures p != null ==> live == old(live) - {p}
    {
      if p != null {
        live := live - {p};
      }
    }

    /**
     * `write_log_msg_fmt`: builds the message, writes it, frees the buffer.
     * A failed allocation hands NULL to `write_log_msg`, which is undefined
     * on an open stream, hence the second precondition.
     */
    method WriteLogMsgFmt(fp: Option<Channel>, prefix: string, text: string, measured: nat, allocOk: bool, allocErrno: i32)
      requires measured <= sizeMax
      requires fp.None? || allocOk
      modifies this`stdout, this`stderr, this`live, this`errno
      ensures live == old(live)
      ensures errno == if allocOk then 0 else allocErrno
      ensures stdout == old(stdout)
                        + Lines(streamError, Stdout, DupReports(measured, allocOk, allocErrno))
                        + Lines(fp, Stdout, if allocOk then [MsgLine(prefix, FormattedMessage(text, measured, sizeMax))] else [])
      ensures stderr == old(stderr)
                        + Lines(streamError, Stderr, DupReports(measured, allocOk, allocErrno))
                        + Lines(fp, Stderr, if allocOk then [MsgLine(prefix, FormattedMessage(text, measured, sizeMax))] else [])
    {
      var buffer := VsprintfDup(text, measured, allocOk, allocErrno);
      var errmsg := None;
      if buffer != null {
        ReadBack(buffer, Stored(text, ClampLength(measured, sizeMax)));
        errmsg := Some(buffer[..]);
      }
      WriteLogMsg(fp, prefix, errmsg);
      Free(buffer);
    }

    /** `write_log_code_fmt`. */
    method WriteLogCodeFmt(fp: Option<Channel>, prefix: string, errnum: i32, text: string, measured: nat, allocOk: bool, allocErrno: i32)
      requires measured <= sizeMax
      requires fp.None? || allocOk
      modifies this`stdout, this`stderr, this`live, this`errno
      ensures live == old(live)
      ensures errno == if allocOk then 0 else allocErrno
      ensures stdout == old(stdout)
                        + Lines(streamError, Stdout, DupReports(measured, allocOk, allocErrno))
                        + Lines(fp, Stdout, if allocOk then [CodeLine(prefix, errnum, FormattedMessage(text, measured, sizeMax))] else [])
      ensures stderr == old(stderr)
                        + Lines(streamError, Stderr, DupReports(measured, allocOk, allocErrno))
                        + Lines(fp, Stderr, if allocOk then [CodeLine(prefix, errnum, FormattedMessage(text, measured, sizeMax))] else [])
    {
      var buffer := VsprintfDup(text, measured, allocOk, allocErrno);
      var errmsg := None;
      if buffer != null {
        ReadBack(buffer, Stored(text, ClampLength(measured, sizeMax)));
        errmsg := Some(buffer[..]);
      }
      WriteLogCode(fp, prefix, errnum, errmsg);
      Free(buffer);
    }

    /** `<family>_msg_fmt`. */
    method MsgFmt(s: Severity, text: string, measured: nat, allocOk: bool, allocErrno: i32)
      requires measured <= sizeMax
      requires Slot(s).None? || allocOk
      modifies this`stdout, this`stderr, this`live, this`errno
      ensures live == old(live)
      ensures errno == if allocOk then 0 else allocErrno
      ensures stdout == old(stdout)
                        + Lines(streamError, Stdout, DupReports(measured, allocOk, allocErrno))
                        + Lines(Slot(s), Stdout, if allocOk then [MsgLine(Label(s), FormattedMessage(text, measured, sizeMax))] else [])
      ensures stderr == old(stderr)
                        + Lines(streamError, Stderr, DupReports(measured, allocOk, allocErrno))
                        + Lines(Slot(s), Stderr, if allocOk then [MsgLine(Label(s), FormattedMessage(text, measured, sizeMax))] else [])
    {
      WriteLogMsgFmt(Slot(s), Label(s), text, measured, allocOk, allocErrno);
    }

    /** `<family>_code_fmt`. */
    method CodeFmt(s: Severity, errnum: i32, text: string, measured: nat, allocOk: bool, allocErrno: i32)
      requires measured <= sizeMax
      requires Slot(s).None? || allocOk
      modifies this`stdout, this`stderr, this`live, this`errno
      ensures live == old(live)
      ensures errno == if allocOk then 0 else allocErrno
      ensures stdout == old(stdout)
                        + Lines(streamError, Stdout, DupReports(measured, allocOk, allocErrno))
                        + Lines(Slot(s), Stdout, if allocOk then [CodeLine(Label(s), errnum, FormattedMessage(text, measured, sizeMax))] else [])
      ensures stderr == old(stderr)
                        + Lines(streamError, Stderr, DupReports(measured, allocOk, allocErrno))
                        + Lines(Slot(s), Stderr, if allocOk then [CodeLine(Label(s), errnum, FormattedMessage(text, measured, sizeMax))] else [])
    {
      WriteLogCodeFmt(Slot(s), Label(s), errnum, text, measured, allocOk, allocErrno);
    }
  }
}
