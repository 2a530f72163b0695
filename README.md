# Leveled logging facility of opengl-test-2024, modelled in Dafny

The program's diagnostic log (`src/error.c`, `src/error.h`) keeps five
process-wide routing slots, one per severity (error, warning, info, verbose,
debug). Each slot is NULL (the severity is disabled) or bound to stdout or
stderr. `error_init(flags)` clears every slot with `error_quit` and then binds
each severity whose bit is set in `flags` to its fixed stream: info, verbose
and debug to stdout, warning and error to stderr. Twenty entry points
(`<family>_msg`, `_code`, `_msg_fmt`, `_code_fmt` for the families error,
warn, info, verbose and debug) write one line, `<label>: <msg>` or
`<label>: <code>: <msg>`, to the bound stream, or nothing when the slot is
NULL. The formatted entry points build their message with `vsprintf_dup`.
This routine measures the message, clamps the length so that `length + 1`
cannot overflow `size_t`, allocates, writes, and reports its own failures
through `error_errno`. The caller then frees the buffer.

Files:

- `flags.dfy`: module `Wrappers` (an `Option` for NULL pointers) and module
  `ErrorFlags`, which holds the `error_flags` bits and the `LOG_MODE_*`
  presets of `error.h` as `bv32` constants, with lemmas about which
  severities each mask enables.
- `text.dfy`: module `LogText`, the pure side of the line format. It holds
  the two line shapes, `%d` rendering of a C `int` (`i32`), and what `%s`
  reads from a NUL-terminated buffer. Each rendering has a reader beside it,
  and round-trip lemmas show that label, code and message can be read back.
- `log.dfy`: module `ErrorLog` with the class `Logger`. Its fields are the
  five slots, the lines written to stdout and stderr, and `live`, the
  formatted-message buffers allocated and not yet freed. Its methods are
  `error_quit`, `error_init`, the write primitives, `vsprintf_dup` (it
  allocates a real `array<char>` and overwrites `errno`, also a field), the
  `_fmt` wrappers, the entry points and `error_errno`.
- `scenarios.dfy`: module `ErrorTest`. These are client runs: the call
  sequence of `src/error_test.c`, reconfiguration, repeated quit, a terse
  configuration, and the clamp path. The reconfiguration and quit runs state
  the routing they leave, the silent-family helpers state that the streams
  are unchanged, and the other runs state the exact contents of both
  streams afterwards.

The twenty entry points are modelled as four methods that take the severity
as a parameter (`Msg`, `Code`, `MsgFmt`, `CodeFmt`). The `NEW_LOG_TYPE`
instances differ only in the slot they read and the label they print, and
`Slot` and `Label` give those.

Some members are plain definitions of the source's tables and are used by
the contracts of others: `DefaultChannel` is the `default_stream_*` table of
`error_init` (stderr for error and warning, stdout for the rest), `Routes`
lists the five slots, and `ErrnoText` is the description `error_errno`
prints ("Unknown error" for 0, otherwise the platform's `strerror` text up
to its NUL).

`write_log_msg` passes a NULL message to `fprintf("%s")` unguarded, so the
model requires a message whenever the stream is open (see "Left out").
`%s` prints a `char *` up to its first NUL, so the model prints
`CString(msg)`, the characters before the first NUL of the message.

## Model

| member | source | states |
|---|---|---|
| `ErrorFlags.Flag` | src/error.h:9-16 | each severity's flag is a non-zero single bit that lies inside `LOG_MODE_EVERYTHING` |
| `ErrorFlags.IsSet` | src/error.c:10 | definition: `FLAG_SET`, the severity's bit is set in the mask |
| `ErrorFlags.FlagsDistinct` | src/error.h:11-15 | a flag selects its own severity and no other; the bits of distinct severities are disjoint |
| `ErrorFlags.IsSetFlagsOf` | src/error.c:10 | `FLAG_SET` on a mask OR-ed together from a list of severities holds exactly for the listed ones |
| `ErrorFlags.PresetsAreUnions` | src/error.h:18-22 | `LOG_MODE_EVERYTHING` is the union of all five flags and `LOG_MODE_DEBUG` equals it; `LOG_MODE_VERBOSE` is every flag but debug; `LOG_MODE_TERSE` is error and info; `LOG_MODE_NOTHING` is 0 |
| `ErrorFlags.PresetMembership` | src/error.h:18-22 | which severities each preset enables: all of them, all but debug, only error and info, none |
| `ErrorFlags.UnknownBitsIgnored` | src/error.c:108-112 | bits of `flags` outside the five flags never enable a severity |
| `LogText.NatDecimal` | src/error.c:69 | the digits `%d` prints for a magnitude are non-empty decimal digits with no leading zero |
| `LogText.Decimal` | src/error.c:69 | `%d` of a code is non-empty, contains no colon, and starts with a minus sign exactly when the code is negative |
| `LogText.NatDecimalRoundTrip` | src/error.c:69 | reading the digits of a magnitude back gives the magnitude |
| `LogText.DecimalRoundTrip` | src/error.c:69 | the `%d` text of every code reads back as that code |
| `LogText.MsgLine` | src/error.c:61 | definition: the line `"%s: %s\n"` prints, `<prefix>: <msg>` and a newline |
| `LogText.CodeLine` | src/error.c:69 | definition: the line `"%s: %d: %s\n"` prints, `<prefix>: <code>: <msg>` and a newline |
| `LogText.IndexOf` | src/error.c:61 | the position found is the first occurrence of the character, or the end when there is none (used to split a line at its first separator) |
| `LogText.FirstSeparator` | src/error.c:61 | in `<label>: <rest>`, with no colon in the label, the first colon ends the label |
| `LogText.MsgLineRoundTrip` | src/error.c:61 | the plain line `"<label>: <msg>\n"` reads back as its label and message, for every message |
| `LogText.CodeLineRoundTrip` | src/error.c:69 | the code line `"<label>: <code>: <msg>\n"` reads back as its label, code and message, whatever the message contains |
| `LogText.CString` | src/error.c:61 | what `%s` reads from a buffer is a prefix of it with no NUL, ending at the first NUL when there is one |
| `LogText.CStringTerminated` | src/error.c:51 | characters after a terminator never reach the output |
| `LogText.CStringPlain` | src/error.c:61 | text without NUL characters is read back whole |
| `ErrorLog.Label` | src/error.c:162-166 | each family's label is non-empty, colon-free and NUL-free: error, warning, debug, verbose, info |
| `ErrorLog.Routing` | src/error.c:100-112 | definition: what a slot holds after `error_init(flags)`, its fixed stream when the bit is set and NULL otherwise |
| `ErrorLog.RoutingStreams` | src/error.c:100-112 | after `error_init(flags)` a slot is on stderr exactly when its bit is set and it is error or warning, on stdout exactly when its bit is set and it is info, verbose or debug, and NULL exactly when its bit is clear |
| `ErrorLog.RoutingOfList` | src/error.c:106-112 | after `error_init` with a mask built from a list, a slot is bound, to its severity's fixed stream, exactly when the severity is listed |
| `ErrorLog.RoutingOfPresets` | src/error.c:106-112 | the routing each preset produces; `LOG_MODE_NOTHING` leaves every slot NULL, as `error_quit` does |
| `ErrorLog.ClampLength` | src/error.c:30-36 | the length used never exceeds the measured one, is lowered only to `SIZE_MAX - 1`, and `length + 1` never exceeds `SIZE_MAX` |
| `ErrorLog.Stored` | src/error.c:51 | the write stores at most `length` characters, a prefix of the text, and the whole text when it fits |
| `ErrorLog.FormattedMessage` | src/error.c:51 | definition: the message a formatted entry point prints, the stored prefix of the text read up to its first NUL |
| `ErrorLog.FormattedMessageExact` | src/error.c:28-53 | when the dry run measured the text and it fits, the printed message is the substituted text exactly |
| `ErrorLog.ReadBack` | src/error.c:51 | a buffer holding a string and its terminator reads back as that string |
| `ErrorLog.Logger.Slot` | src/error.c:162-166 | definition: the `stream` argument each `NEW_LOG_TYPE` instance writes through |
| `ErrorLog.Logger.constructor` | src/error.c:14-18 | at process start every slot is NULL, nothing has been written, no buffer is allocated and `errno` is 0 |
| `ErrorLog.Logger.Quit` | src/error.c:117-125 | every slot becomes NULL; nothing is written and no buffer changes (frame) |
| `ErrorLog.Logger.Init` | src/error.c:97-115 | every slot is bound exactly when its bit is set, to its fixed stream, whatever the slots held before; streams and buffers unchanged (frame) |
| `ErrorLog.Logger.WriteLogMsg` | src/error.c:57-62 | a NULL stream gets nothing; an open one gets exactly `"<prefix>: <msg>\n"` appended, the message cut at its first NUL; the other stream is unchanged |
| `ErrorLog.Logger.WriteLogCode` | src/error.c:65-70 | as above with `"<prefix>: <code>: <msg>\n"` |
| `ErrorLog.Logger.Msg` | src/error.c:137-141 | `<family>_msg` appends the family's plain line to the stream its slot is bound to, and nothing when the slot is NULL |
| `ErrorLog.Logger.Code` | src/error.c:130-134 | `<family>_code` appends the family's code line to its bound stream, and nothing when the slot is NULL |
| `ErrorLog.Logger.ErrnoLine` | src/error.c:185 | definition: the code line `error_code` prints for `error_errno(errnum)` |
| `ErrorLog.Logger.ErrnoLineReadsBack` | src/error.c:179-186 | the line `error_errno` prints reads back as the label `error`, the code, and "Unknown error" for code 0 or the platform's description otherwise |
| `ErrorLog.Logger.ErrorErrno` | src/error.c:179-186 | `error_errno` writes `"error: <code>: <description>\n"` to the error slot's stream, and nothing when error is disabled |
| `ErrorLog.Logger.DupReports` | src/error.c:31-47 | the builder reports nothing exactly when the length fits and allocation succeeds; a clamp reports ERANGE first; a failed allocation reports errno last |
| `ErrorLog.Logger.VsprintfDup` | src/error.c:21-54 | NULL is returned exactly when allocation fails. Otherwise the buffer is fresh, is recorded as live, has `length + 1 <= SIZE_MAX` cells and holds the stored text and a terminator within bounds. The ERANGE and errno reports reach the error stream; `errno` is left at 0 on success and at the allocation's error on failure |
| `ErrorLog.Logger.Free` | src/error.c:80 | `free` accepts NULL or a live buffer, and only those (no double free); the buffer stops being live |
| `ErrorLog.Logger.WriteLogMsgFmt` | src/error.c:73-82 | the builder's reports, then the plain line of the formatted message, reach the streams; the buffer is freed, so the live set is unchanged; `errno` is as the builder leaves it |
| `ErrorLog.Logger.WriteLogCodeFmt` | src/error.c:84-94 | as above with the code line |
| `ErrorLog.Logger.MsgFmt` | src/error.c:153-159 | `<family>_msg_fmt`: the builder's reports through error, then the family's line when its slot is bound; no buffer leaks; `errno` is as the builder leaves it |
| `ErrorLog.Logger.CodeFmt` | src/error.c:144-150 | `<family>_code_fmt`: as above with the code line |
| `ErrorTest.FamilySilent` | src/error.c:129-159 | when a family and error are disabled, its four entry points, each with its own message and allocation outcome, leave both streams and the live buffers unchanged |
| `ErrorTest.MsgSilent` | src/error.c:137-141 | `<family>_msg` on a disabled family writes nothing |
| `ErrorTest.ErrnoSilent` | src/error.c:179-186 | `error_errno` writes nothing while error is disabled |
| `ErrorTest.EveryEntryPointSilent` | src/error_test.c:18-43 | under `LOG_MODE_NOTHING`, the twenty entry-point calls of the test, with its own arguments and any allocation outcome per call, and both `error_errno` calls leave both streams and the live buffers unchanged |
| `ErrorTest.ReinitLeavesNoResidue` | src/error_test.c:15-16 | `error_init(a)` then `error_init(b)` gives the same routing as `error_init(b)` alone |
| `ErrorTest.QuitIdempotent` | src/error.c:117-125 | a second `error_quit` leaves the same routing as one; every slot is NULL |
| `ErrorTest.ErrorTestRun` | src/error_test.c:13-87 | writes before init, after `error_init(LOG_MODE_NOTHING)` (every entry point of every family and both `error_errno` calls) and after `error_quit` produce no output on either stream |
| `ErrorTest.TerseTexts` | src/error.c:61-69 | the exact text of the terse run's info and error-code lines |
| `ErrorTest.UnknownErrorText` | src/error.c:182-185 | `error_errno(0)` prints exactly `"error: 0: Unknown error\n"` |
| `ErrorTest.TerseRun` | src/error.h:21 | under `LOG_MODE_TERSE` a warning is dropped, info reaches stdout, and error codes and `error_errno(0)` reach stderr, with the exact text |
| `ErrorTest.TerseFormattedTexts` | src/error.c:61 | the exact text of the formatted info line: the substituted message unchanged |
| `ErrorTest.ReportTexts` | src/error.c:179-186 | the exact ERANGE and ENOMEM report lines |
| `ErrorTest.TerseFormattedRun` | src/error.c:73-82 | a formatted info line is printed exactly; a disabled family prints nothing of its own, but its failed allocation is still reported through error and leaves ENOMEM in `errno` |
| `ErrorTest.ClampTexts` | src/error.c:51 | with SIZE_MAX = 4 a five-character message is printed as its first three characters |
| `ErrorTest.ClampRun` | src/error.c:31-38 | a measured length of SIZE_MAX is reported as ERANGE; in the enabled info family the message is cut to SIZE_MAX - 1 characters; in the disabled verbose family the allocation fails, errno is reported too and nothing else is printed |

## Left out

- printf-style substitution (`vsnprintf`) is C library behaviour. The formatted entry points take the substituted text, plus the length the dry run returned, already converted to `size_t`. A negative return `r` becomes `SIZE_MAX + 1 + r` as a `size_t`: only `r = -1` gives SIZE_MAX and takes the clamp; any other negative `r` is passed on as a very large length, and the allocation input decides what happens to it.
- One Dafny `char` stands for one C byte. `measured`, `Stored` and the clamp count characters where `vsnprintf` counts bytes, so the model cannot show a multi-byte sequence being cut at the clamp.
- `strerror` is a platform table. The model takes it as a constructor parameter, a function from codes to text. SIZE_MAX is also a constructor parameter. ERANGE (34) and ENOMEM (12) take their Linux values.
- `malloc` is an oracle: the formatted entry points take whether it succeeds and the errno it leaves when it fails.
- `errno` is changed only where `vsprintf_dup` assigns it (src/error.c:34 and 41) and where a failed `malloc` sets it. Whatever `fprintf`, `strerror` or a successful `malloc` may do to it is not modelled.
- `va_list` / `va_copy` handling, the missing `va_end` and the unused `args_copy` at src/error.c:147 are calling-convention details with no effect on the model.
- `fatal` (src/error.c:171-175) only calls `exit`, a process effect.
- Streams are modelled as lists of complete lines. Real `FILE` writes, buffering and write failures are not modelled.
- Concurrency: the facility is single-threaded and so is the model.
- The allocation experiment of src/error_test.c:47-83 is platform behaviour. It is not modelled.
- Cells of a formatted buffer after the terminator are not specified. They are only reached when the measured length exceeds the text.
- The `prefix` of the write primitives is printed whole. Every caller passes a `Label`, which holds no NUL, so cutting it at a NUL would change nothing.
- `ErrorLog.Logger.WriteLogMsg` and `ErrorLog.Logger.WriteLogCode` require a message when the stream is open. In C, `%s` of a NULL pointer is undefined behaviour, and the code does not guard against it.
- `ErrorLog.Logger.WriteLogMsgFmt`, `ErrorLog.Logger.WriteLogCodeFmt`, `ErrorLog.Logger.MsgFmt` and `ErrorLog.Logger.CodeFmt` require allocation to succeed when the slot is bound. A failed `vsprintf_dup` hands NULL to the write primitive, which is the undefined case above.
- `ErrorLog.Logger.Msg` and `ErrorLog.Logger.Code` take a non-NULL message. A caller passing NULL to an enabled family is the same undefined case.
