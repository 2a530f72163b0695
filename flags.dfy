/** Optional values: a C pointer that may be NULL. */
module Wrappers {
  datatype Option<+T> = None | Some(value: T)
}

/**
 * The severity flags of error.h and the preset masks built from them.
 * `error_init` receives a `uint32_t` made of these bits, so masks are `bv32`.
 */
module ErrorFlags {

  /** The five severities a caller can enable independently. */
  datatype Severity = Error | Warning | Info | Verbose | Debug

  const LOG_NONE: bv32 := 0
  const LOG_ERROR: bv32 := 1
  const LOG_WARNING: bv32 := 2
  const LOG_INFO: bv32 := 4
  const LOG_VERBOSE: bv32 := 8
  const LOG_DEBUG: bv32 := 16

  const LOG_MODE_EVERYTHING: bv32 := LOG_ERROR | LOG_INFO | LOG_WARNING | LOG_VERBOSE | LOG_DEBUG
  const LOG_MODE_DEBUG: bv32 := LOG_MODE_EVERYTHING
  const LOG_MODE_VERBOSE: bv32 := LOG_ERROR | LOG_INFO | LOG_WARNING | LOG_VERBOSE
  const LOG_MODE_TERSE: bv32 := LOG_ERROR | LOG_INFO
  const LOG_MODE_NOTHING: bv32 := LOG_NONE

  /** The enumerator of `error_flags` that stands for a severity: a single bit, inside LOG_MODE_EVERYTHING. */
  function Flag(s: Severity): (f: bv32)
    ensures f != 0 && f & (f - 1) == 0
    ensures f & LOG_MODE_EVERYTHING == f
  {
    match s
    case Error => LOG_ERROR
    case Warning => LOG_WARNING
    case Info => LOG_INFO
    case Verbose => LOG_VERBOSE
    case Debug => LOG_DEBUG
  }

  /** `FLAG_SET(flags, flag)`: the severity's bit is set in the mask. */
  predicate IsSet(flags: bv32, s: Severity) {
    flags & Flag(s) != 0
  }

  /** The mask a caller builds by OR-ing the flags of the listed severities. */
  function FlagsOf(ss: seq<Severity>): bv32 {
    if ss == [] then LOG_NONE else Flag(ss[0]) | FlagsOf(ss[1..])
  }

  /** Distinct severities have disjoint bits: a flag selects its own severity and no other. */
  lemma FlagsDistinct(s: Severity, t: Severity)
    ensures IsSet(Flag(t), s) <==> s == t
    ensures s != t ==> Flag(s) & Flag(t) == 0
  {
  }

  /** A mask built from a list of severities sets exactly the listed ones. */
  lemma {:induction false} IsSetFlagsOf(ss: seq<Severity>, s: Severity)
    ensures IsSet(FlagsOf(ss), s) <==> s in ss
  {
    if ss != [] {
      IsSetFlagsOf(ss[1..], s);
      FlagsDistinct(s, ss[0]);
      var a, b := Flag(ss[0]), FlagsOf(ss[1..]);
      assert (a | b) & Flag(s) == (a & Flag(s)) | (b & Flag(s));
      assert ss == [ss[0]] + ss[1..];
    }
  }

  /** The presets are the unions the header spells out. */
  lemma PresetsAreUnions()
    ensures LOG_MODE_EVERYTHING == FlagsOf([Error, Warning, Info, Verbose, Debug])
    ensures LOG_MODE_DEBUG == LOG_MODE_EVERYTHING
    ensures LOG_MODE_VERBOSE == FlagsOf([Error, Warning, Info, Verbose])
    ensures LOG_MODE_TERSE == FlagsOf([Error, Info])
    ensures LOG_MODE_NOTHING == FlagsOf([]) == 0
  {
  }

  /** Which severities each preset enables. */
  lemma PresetMembership(s: Severity)
    ensures IsSet(LOG_MODE_EVERYTHING, s) && IsSet(LOG_MODE_DEBUG, s)
    ensures IsSet(LOG_MODE_VERBOSE, s) <==> s != Debug
    ensures IsSet(LOG_MODE_TERSE, s) <==> s == Error || s == Info
    ensures !IsSet(LOG_MODE_NOTHING, s)
  {
  }

  /** Bits outside the five flags never enable anything. */
  lemma UnknownBitsIgnored(flags: bv32, s: Severity)
    ensures IsSet(flags, s) == IsSet(flags & LOG_MODE_EVERYTHING, s)
  {
  }
}
