/** lib/BlackPearl/server/core/logger.py: the replacement for `print` that drops log messages
    below the configured level or from disabled modules. The clock and the caller's frame are
    parameters of each call. */
module Logger {
  import opened PyStr
  import opened Wrappers

  const NONE := 0
  const DEBUG := 1
  const FINER := 2
  const FINE := 3
  const INFO := 4
  const WARNING := 5
  const ERROR := 6
  const SEVERE := 7

  /** The message prefix a level is tagged with. */
  function Tag(level: int): string
    requires DEBUG <= level <= SEVERE
  {
    if level == DEBUG then "DEBUG:"
    else if level == FINER then "FINER:"
    else if level == FINE then "FINE:"
    else if level == INFO then "INFO:"
    else if level == WARNING then "WARNING:"
    else if level == ERROR then "ERROR:"
    else "SEVERE:"
  }

  /** The level of a tagged message, trying the tags in the order `_can_print` does. */
  function TagLevel(msg: string): (r: int)
    ensures r == 0 || DEBUG <= r <= SEVERE
    ensures r != 0 ==> StartsWith(msg, Tag(r))
  {
    if StartsWith(msg, Tag(DEBUG)) then DEBUG
    else if StartsWith(msg, Tag(FINER)) then FINER
    else if StartsWith(msg, Tag(FINE)) then FINE
    else if StartsWith(msg, Tag(INFO)) then INFO
    else if StartsWith(msg, Tag(WARNING)) then WARNING
    else if StartsWith(msg, Tag(ERROR)) then ERROR
    else if StartsWith(msg, Tag(SEVERE)) then SEVERE
    else 0
  }

  /** What `_can_print` does: return True or False, or raise ValueError for an untagged message. */
  datatype Verdict = Print | Drop | NotALog

  function CanPrint(mode: int, msg: string): (r: Verdict)
    ensures mode == NONE ==> r == Drop
    ensures mode != NONE && TagLevel(msg) == 0 ==> r == NotALog
    ensures mode != NONE && TagLevel(msg) != 0 ==> (r == Print <==> TagLevel(msg) >= mode)
  {
    if mode == NONE then Drop
    else if TagLevel(msg) == 0 then NotALog
    else if TagLevel(msg) >= mode then Print
    else Drop
  }

  /** No tag is a prefix of a message tagged with another one, so a tagged message gets its own
      tag's level. */
  lemma TagLevelOfTagged(level: int, rest: string)
    requires DEBUG <= level <= SEVERE
    ensures TagLevel(Tag(level) + rest) == level
  {
    var msg := Tag(level) + rest;
    assert msg[..|Tag(level)|] == Tag(level);
    assert msg[0] == Tag(level)[0];
    if |Tag(level)| > 4 {
      assert msg[4] == Tag(level)[4];
    }
  }

  /** A message tagged with level L passes exactly when L is at least the mode. */
  lemma TaggedPassesIff(mode: int, level: int, rest: string)
    requires mode != NONE && DEBUG <= level <= SEVERE
    ensures CanPrint(mode, Tag(level) + rest) == if level >= mode then Print else Drop
  {
    TagLevelOfTagged(level, rest);
  }

  /** The arguments of a call as `print` sees them, already passed through `str`. */
  datatype Call = Call(args: seq<string>, sep: Option<string>, hasFile: bool)

  /** The text `_can_print` judges: the arguments joined by `sep` if given, else by `''`. */
  function Message(c: Call): string
  {
    Join(if c.sep.Some? then c.sep.value else "", c.args)
  }

  /** What reaches the original `print`: the call untouched (`file` given), or the call behind
      a header naming the time, the calling module and the line. */
  datatype Emitted = Untouched(call: Call) | WithHeader(header: string, call: Call)

  function Header(time: string, fromModule: string, lineNo: string): string
  {
    Join(" ", ["[", time, "Module:", fromModule, "Line: " + lineNo, "] "])
  }

  function DisabledFor(disabled: seq<string>, fromModule: string): bool
  {
    exists i :: 0 <= i < |disabled| && StartsWith(fromModule, disabled[i])
  }

  /** What one call to the new `print` emits, if anything. */
  function Filter(mode: int, disabled: seq<string>, c: Call, time: string, fromModule: string, lineNo: string): (r: seq<Emitted>)
    ensures c.hasFile ==> r == [Untouched(c)]
    ensures !c.hasFile && mode == NONE ==> r == []
    ensures !c.hasFile && CanPrint(mode, Message(c)) == Drop ==> r == []
    ensures !c.hasFile && CanPrint(mode, Message(c)) == NotALog ==> r == [WithHeader(Header(time, fromModule, lineNo), c)]
    ensures !c.hasFile && CanPrint(mode, Message(c)) == Print ==>
      r == if DisabledFor(disabled, fromModule) then [] else [WithHeader(Header(time, fromModule, lineNo), c)]
    ensures |r| <= 1
  {
    if c.hasFile then [Untouched(c)]
    else
      var v := CanPrint(mode, Message(c));
      if v == Drop then []
      else if v == Print && DisabledFor(disabled, fromModule) then []
      else [WithHeader(Header(time, fromModule, lineNo), c)]
  }

  class Logger {
    const mode: int
    var disabledList: seq<string>
    var installed: bool
    var output: seq<Emitted>

    constructor (mode: int)
      ensures this.mode == mode && disabledList == [] && !installed && output == []
    {
      this.mode := mode;
      disabledList := [];
      installed := false;
      output := [];
    }

    method DisableForModule(modulePath: string)
      modifies this`disabledList
      ensures disabledList == old(disabledList) + [modulePath]
    {
      disabledList := disabledList + [modulePath];
    }

    /** `initialize`: the new `print` replaces the built-in one. */
    method Initialize()
      modifies this`installed
      ensures installed
    {
      installed := true;
    }

    /** `_new_print`. */
    method NewPrint(c: Call, time: string, fromModule: string, lineNo: string)
      modifies this`output
      ensures output == old(output) + Filter(mode, disabledList, c, time, fromModule, lineNo)
    {
      if c.hasFile {
        output := output + [Untouched(c)];
        return;
      }
      var msg := Message(c);
      var v := CanPrint(mode, msg);
      if v == Drop {
        return;
      }
      if v == Print {
        var i := 0;
        while i < |disabledList|
          invariant 0 <= i <= |disabledList|
          invariant forall j :: 0 <= j < i ==> !StartsWith(fromModule, disabledList[j])
        {
          if StartsWith(fromModule, disabledList[i]) {
            return;
          }
          i := i + 1;
        }
      }
      output := output + [WithHeader(Header(time, fromModule, lineNo), c)];
    }
  }

  /** Disabling a module suppresses its tagged messages but not its untagged ones. */
  lemma DisabledModuleKeepsUntagged(mode: int, disabled: seq<string>, c: Call, time: string, fromModule: string, lineNo: string)
    requires !c.hasFile && mode != NONE && TagLevel(Message(c)) == 0
    ensures |Filter(mode, disabled, c, time, fromModule, lineNo)| == 1
  {
  }
}

/** lib/server/logger.py: the older logger, with four levels, no module filter, untagged
    messages always printed, and output redirected to the configured log file. */
module LegacyLogger {
  import opened PyStr
  import opened Wrappers

  const NONE := 0
  const DEBUG := 1
  const INFO := 2
  const ERROR := 3
  const SEVERE := 4

  function Tag(level: int): string
    requires DEBUG <= level <= SEVERE
  {
    if level == DEBUG then "DEBUG:" else if level == INFO then "INFO:" else if level == ERROR then "ERROR:" else "SEVERE:"
  }

  function TagLevel(msg: string): (r: int)
    ensures r == 0 || DEBUG <= r <= SEVERE
  {
    if StartsWith(msg, Tag(DEBUG)) then DEBUG
    else if StartsWith(msg, Tag(INFO)) then INFO
    else if StartsWith(msg, Tag(ERROR)) then ERROR
    else if StartsWith(msg, Tag(SEVERE)) then SEVERE
    else 0
  }

  /** `_can_print`. */
  function CanPrint(mode: int, msg: string): (r: bool)
    ensures mode == NONE ==> !r
    ensures mode != NONE && TagLevel(msg) == 0 ==> r
    ensures mode != NONE && TagLevel(msg) != 0 ==> (r <==> TagLevel(msg) >= mode)
  {
    if mode == NONE then false
    else if TagLevel(msg) == 0 then true
    else TagLevel(msg) >= mode
  }

  lemma TagLevelOfTagged(level: int, rest: string)
    requires DEBUG <= level <= SEVERE
    ensures TagLevel(Tag(level) + rest) == level
  {
    var msg := Tag(level) + rest;
    assert msg[..|Tag(level)|] == Tag(level);
    assert msg[0] == Tag(level)[0];
  }

  lemma TaggedPassesIff(mode: int, level: int, rest: string)
    requires mode != NONE && DEBUG <= level <= SEVERE
    ensures CanPrint(mode, Tag(level) + rest) <==> level >= mode
  {
    TagLevelOfTagged(level, rest);
  }

  datatype Call = Call(args: seq<string>, sep: Option<string>, file: Option<string>)

  /** What reaches the original `print`: the call as given (`file` given), or the call behind a
      header and sent to the log file, its `sep` passed on. */
  datatype Emitted = Untouched(call: Call) | ToLogFile(logFile: Option<string>, header: string, args: seq<string>, sep: Option<string>)

  function Message(c: Call): string
  {
    Join(if c.sep.Some? then c.sep.value else "", c.args)
  }

  function Header(time: string, fromModule: string, lineNo: string): string
  {
    Join(" ", ["[", time, "Module: " + fromModule, "Line: " + lineNo + " ] "])
  }

  function Filter(mode: int, logFile: Option<string>, c: Call, time: string, fromModule: string, lineNo: string): (r: seq<Emitted>)
    ensures c.file.Some? ==> r == [Untouched(c)]
    ensures c.file.None? ==> (r != [] <==> CanPrint(mode, Message(c)))
    ensures c.file.None? && r != [] ==> r == [ToLogFile(logFile, Header(time, fromModule, lineNo), c.args, c.sep)]
  {
    if c.file.Some? then [Untouched(c)]
    else if !CanPrint(mode, Message(c)) then []
    else [ToLogFile(logFile, Header(time, fromModule, lineNo), c.args, c.sep)]
  }

  class Logger {
    const mode: int
    var logFile: Option<string>
    /** Whether `builtins.print` is the logger's `_new_print`. */
    var installed: bool
    var output: seq<Emitted>

    constructor (mode: int)
      ensures this.mode == mode && logFile == None && !installed && output == []
    {
      this.mode := mode;
      logFile := None;
      installed := false;
      output := [];
    }

    /** `initialize(log_file)`: remember the file and install the new `print`. */
    method Initialize(file: string)
      modifies this`logFile, this`installed
      ensures logFile == Some(file) && installed
    {
      logFile := Some(file);
      installed := true;
    }

    method NewPrint(c: Call, time: string, fromModule: string, lineNo: string)
      modifies this`output
      ensures output == old(output) + Filter(mode, logFile, c, time, fromModule, lineNo)
    {
      if c.file.Some? {
        output := output + [Untouched(c)];
      } else if CanPrint(mode, Message(c)) {
        output := output + [ToLogFile(logFile, Header(time, fromModule, lineNo), c.args, c.sep)];
      }
    }
  }
}
