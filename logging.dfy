/** utils/logger.py: the `Logger` class. Its class attributes `_loggers` and
    `_initialized` become the fields of a `LoggerRegistry` object; handler
    and formatter set-up is not modelled. */
module Logging {

  // ---------------------------------------------------------------------
  // Filtering the parameters of a logged call.

  /** Lower-casing of one character, for ASCII letters. */
  function LowerChar(c: char): char
  {
    if 'A' <= c <= 'Z' then (c as int + 32) as char else c
  }

  /** `str.lower()` on ASCII text. */
  function Lower(s: string): (r: string)
    ensures |r| == |s|
    ensures forall i :: 0 <= i < |s| ==> r[i] == LowerChar(s[i])
  {
    if s == [] then [] else [LowerChar(s[0])] + Lower(s[1..])
  }

  /** `w in s` for strings: `w` occurs in `s` starting at some position. */
  function Contains(s: string, w: string): (found: bool)
    ensures found ==> |w| <= |s|
    ensures |w| <= |s| && s[..|w|] == w ==> found
    decreases |s|
  {
    if |s| < |w| then false
    else s[..|w|] == w || Contains(s[1..], w)
  }

  /** `w` occurs in `s` at position `i`. */
  predicate OccursAt(s: string, w: string, i: int)
  {
    0 <= i <= |s| - |w| && s[i..i + |w|] == w
  }

  /** `w` occurs somewhere in `s`. */
  predicate OccursIn(s: string, w: string)
  {
    exists i :: 0 <= i <= |s| - |w| && OccursAt(s, w, i)
  }

  /** `Contains` finds exactly the positions where `w` occurs. */
  lemma {:induction false} ContainsIffOccurs(s: string, w: string)
    ensures Contains(s, w) <==> OccursIn(s, w)
  {
    if |s| < |w| {
    } else if s[..|w|] == w {
      assert OccursAt(s, w, 0);
    } else {
      ContainsIffOccurs(s[1..], w);
      if Contains(s[1..], w) {
        var i :| 0 <= i <= |s[1..]| - |w| && OccursAt(s[1..], w, i);
        assert s[i + 1..i + 1 + |w|] == s[1..][i..i + |w|];
        assert OccursAt(s, w, i + 1);
      }
      if OccursIn(s, w) {
        var i :| 0 <= i <= |s| - |w| && OccursAt(s, w, i);
        assert i != 0;
        assert s[1..][i - 1..i - 1 + |w|] == s[i..i + |w|];
        assert OccursAt(s[1..], w, i - 1);
      }
    }
  }

  const SensitiveWords: seq<string> := ["key", "token", "secret", "password"]

  /** A parameter name is sensitive when its lower-cased form contains one
      of the sensitive words. */
  predicate IsSensitive(name: string)
    ensures IsSensitive(name) <==> exists k :: 0 <= k < |SensitiveWords| && OccursIn(Lower(name), SensitiveWords[k])
  {
    var low := Lower(name);
    ContainsIffOccurs(low, SensitiveWords[0]);
    ContainsIffOccurs(low, SensitiveWords[1]);
    ContainsIffOccurs(low, SensitiveWords[2]);
    ContainsIffOccurs(low, SensitiveWords[3]);
    exists k :: 0 <= k < |SensitiveWords| && Contains(low, SensitiveWords[k])
  }

  /** The parameters `Logger.log_function_call` writes out: exactly those
      whose names are not sensitive, with their values unchanged. */
  function SafeKwargs<V>(kwargs: map<string, V>): (r: map<string, V>)
    ensures forall k :: k in r <==> k in kwargs && !IsSensitive(k)
    ensures forall k :: k in r ==> r[k] == kwargs[k]
  {
    map k | k in kwargs && !IsSensitive(k) :: kwargs[k]
  }

  /** Filtering twice is filtering once, and the result is part of the
      input. */
  lemma SafeKwargsIdempotent<V>(kwargs: map<string, V>)
    ensures SafeKwargs(SafeKwargs(kwargs)) == SafeKwargs(kwargs)
    ensures SafeKwargs(kwargs).Keys <= kwargs.Keys
  {
  }

  /** A word found in a name's lower-cased form makes the name sensitive. */
  lemma SensitiveByOccurrence(name: string, k: nat, i: int)
    requires k < |SensitiveWords| && OccursAt(Lower(name), SensitiveWords[k], i)
    ensures IsSensitive(name)
  {
    ContainsIffOccurs(Lower(name), SensitiveWords[k]);
  }

  /** The match ignores case: "API_Key" is dropped. */
  lemma {:induction false} MixedCaseKeyIsSensitive()
    ensures IsSensitive("API_Key")
  {
    var low := Lower("API_Key");
    assert low[4] == LowerChar('K') == 'k';
    assert low[5] == 'e' && low[6] == 'y';
    assert low[4..7] == "key";
    SensitiveByOccurrence("API_Key", 0, 4);
  }

  /** The match looks for substrings: "monkey" is dropped too. */
  lemma {:induction false} SubstringIsSensitive()
    ensures IsSensitive("monkey")
  {
    var low := Lower("monkey");
    assert low[3] == 'k' && low[4] == 'e' && low[5] == 'y';
    assert low[3..6] == "key";
    SensitiveByOccurrence("monkey", 0, 3);
  }

  /** A name that contains none of the words, such as "model", is kept. */
  lemma {:induction false} ModelIsKept()
    ensures !IsSensitive("model")
  {
    assert Lower("model") == "model";
    assert !Contains("model", "key") by {
      assert "model"[1..] == "odel" && "odel"[1..] == "del" && "del"[1..] == "el";
      assert !Contains("el", "key");
      assert "del"[..3] != "key";
      assert "odel"[..3] != "key";
      assert "model"[..3] != "key";
    }
    assert !Contains("model", "token") by {
      assert "model"[1..] == "odel";
      assert !Contains("odel", "token");
      assert "model"[..5] != "token";
    }
    assert !Contains("model", "secret");
    assert !Contains("model", "password");
  }

  // ---------------------------------------------------------------------
  // The registry of loggers.

  /** What `logging.getLogger(name)` hands out: an object carrying its name. */
  class LogChannel {
    const name: string

    constructor (name: string)
      ensures this.name == name
    {
      this.name := name;
    }
  }

  /** The name utils/logger.py asks for when it announces that logging is
      set up (`__name__` of the module). */
  const ModuleLoggerName: string := "utils.logger"

  /** `Logger`'s class-level state: the cache of loggers by name and the
      flag saying the logging set-up has run. `setups` counts the runs of
      the handler configuration. */
  class LoggerRegistry {
    var loggers: map<string, LogChannel>
    var initialized: bool
    ghost var setups: nat

    ghost predicate Valid()
      reads this
    {
      && (forall n :: n in loggers ==> loggers[n].name == n)
      && (initialized <==> setups == 1)
      && setups <= 1
    }

    constructor ()
      ensures Valid() && loggers == map[] && !initialized && setups == 0
    {
      loggers := map[];
      initialized := false;
      setups := 0;
    }

    /** The body of `get_logger` after the set-up check: the cached logger,
        created and remembered on first use of the name. */
    method Lookup(name: string) returns (logger: LogChannel)
      requires Valid()
      modifies this`loggers
      ensures Valid()
      ensures name in loggers && logger == loggers[name] && logger.name == name
      ensures name in old(loggers) ==> loggers == old(loggers)
      ensures name !in old(loggers) ==> loggers == old(loggers)[name := logger] && fresh(logger)
    {
      if name !in loggers {
        var created := new LogChannel(name);
        loggers := loggers[name := created];
      }
      logger := loggers[name];
    }

    /** `Logger.setup_logging`: does nothing once set up; otherwise
        configures the handlers once, sets the flag, and fetches its own
        module's logger (which enters the cache). */
    method SetupLogging()
      requires Valid()
      modifies this
      ensures Valid() && initialized && setups == 1
      ensures !old(initialized) ==> ModuleLoggerName in loggers
      ensures old(initialized) ==> loggers == old(loggers)
      ensures !old(initialized) && ModuleLoggerName in old(loggers) ==> loggers == old(loggers)
      ensures !old(initialized) && ModuleLoggerName !in old(loggers) ==>
                loggers.Keys == old(loggers).Keys + {ModuleLoggerName}
                && forall n :: n in old(loggers) ==> loggers[n] == old(loggers)[n]
    {
      if initialized {
        return;
      }
      // Handlers and formatters are configured here.
      setups := setups + 1;
      initialized := true;
      // `cls.get_logger(__name__)`: logging is initialised now, so this is a lookup.
      var _ := Lookup(ModuleLoggerName);
    }

    /** `Logger.get_logger`: runs the set-up first if it has not run, then
        returns the logger cached for the name. Repeated calls with one name
        return the same object; the cache only grows, and only by new
        names. */
    method GetLogger(name: string) returns (logger: LogChannel)
      requires Valid()
      modifies this
      ensures Valid() && initialized && setups == 1
      ensures name in loggers && logger == loggers[name] && logger.name == name
      ensures name in old(loggers) ==> logger == old(loggers)[name]
      ensures forall n :: n in old(loggers) ==> n in loggers && loggers[n] == old(loggers)[n]
      ensures loggers.Keys
              == old(loggers).Keys + {name} + (if old(initialized) then {} else {ModuleLoggerName})
    {
      if !initialized {
        SetupLogging();
      }
      logger := Lookup(name);
    }
  }

  /** A fresh registry answers two requests for one name with one object,
      and configures logging once. */
  method SameNameSameLogger(name: string) returns (first: LogChannel, second: LogChannel, ghost setups: nat)
    ensures first == second && first.name == name
    ensures setups == 1
  {
    var registry := new LoggerRegistry();
    first := registry.GetLogger(name);
    second := registry.GetLogger(name);
    setups := registry.setups;
  }
}
