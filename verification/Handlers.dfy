/**
 * The daemon's start, stop and status handlers (internal/daemon/handlers.go): which error code a
 * client gets, given that the code is chosen by searching the error text for a phrase.
 */
module Handlers {
  import opened Prelude
  import opened Text
  import opened ManagerMemory
  import opened ErrorText
  import Config
  import opened ManagerMachine
  import opened ManagerInvariant
  import opened ManagerTheorems
  import opened ManagerLifecycle

  const INTERNAL := -32603
  const INVALID_PARAMS := -32602
  const TUNNEL_NOT_FOUND := 1001
  const TUNNEL_ACTIVE := 1002
  const TUNNEL_INACTIVE := 1003
  const AUTH_REQUIRED := 1004

  datatype Outcome = Success | Fail(code: int)

  // -------------------------------------------------------------- stop

  function StopCode(e: OpError, printable: char -> bool): int {
    var text := ErrorMessage(e, printable);
    if Contains(text, "not found") then TUNNEL_NOT_FOUND
    else if Contains(text, "not running") then TUNNEL_INACTIVE
    else INTERNAL
  }

  /** `handleTunnelStop`; no name stands for parameters that do not decode. */
  function HandleStop(m: Memory, name: Option<string>, printable: char -> bool): Outcome
    requires Sound(m)
  {
    if name == None || name.value == "" then Fail(INVALID_PARAMS)
    else match StopError(m, name.value)
      case None => Success
      case Some(e) => Fail(StopCode(e, printable))
  }

  /** Only the letter n and the newline are written so that they end in the letter n. */
  lemma EndsInN(c: char, printable: char -> bool)
    ensures var e := EscapeChar(c, printable); e != "" && (e[|e| - 1] == 'n' <==> c == 'n' || c == '\n')
  {
  }

  const NOT_FOUND := "not found"
  const NEWLINE_OT_FOUND := "\not found"

  /** A name whose quoted form reads as "not found" somewhere. */
  predicate Misleading(name: string) {
    Contains(name, NOT_FOUND) || Contains(name, NEWLINE_OT_FOUND)
  }

  lemma OccursUnfolds(s: string, p: string, i: nat)
    requires p != "" && i < |s|
    ensures OccursAt(s, p, i) <==> s[i] == p[0] && p[1..] <= s[i + 1..]
  {
    if s[i] == p[0] && p[1..] <= s[i + 1..] {
      assert s[i..i + |p|] == [p[0]] + s[i + 1..][..|p| - 1];
      assert p == [p[0]] + p[1..];
    }
    if OccursAt(s, p, i) {
      assert s[i] == s[i..i + |p|][0];
      assert p[1..] == s[i..i + |p|][1..];
      assert s[i + 1..][..|p| - 1] == s[i..i + |p|][1..];
    }
  }

  lemma HitAt(name: string, printable: char -> bool, i: nat)
    requires i < |name|
    ensures Hit(name, NOT_FOUND, printable, i) <==>
            OccursAt(name, NOT_FOUND, i) || OccursAt(name, NEWLINE_OT_FOUND, i)
  {
    EndsInN(name[i], printable);
    OccursUnfolds(name, NOT_FOUND, i);
    OccursUnfolds(name, NEWLINE_OT_FOUND, i);
    assert NOT_FOUND[1..] == NEWLINE_OT_FOUND[1..];
  }

  /** The quoted form of a name contains "not found" exactly when the name is misleading. */
  lemma QuotedNotFound(name: string, printable: char -> bool)
    ensures Contains(Escape(name, printable), NOT_FOUND) <==> Misleading(name)
  {
    EscapedContains(name, NOT_FOUND, printable);
    if exists i :: Hit(name, NOT_FOUND, printable, i) {
      var i :| Hit(name, NOT_FOUND, printable, i);
      HitAt(name, printable, i);
    }
    if Contains(name, NOT_FOUND) {
      var i :| 0 <= i <= |name| - |NOT_FOUND| && OccursAt(name, NOT_FOUND, i);
      HitAt(name, printable, i);
    }
    if Contains(name, NEWLINE_OT_FOUND) {
      var i :| 0 <= i <= |name| - |NEWLINE_OT_FOUND| && OccursAt(name, NEWLINE_OT_FOUND, i);
      HitAt(name, printable, i);
    }
  }

  lemma NotFoundCode(name: string, printable: char -> bool)
    ensures StopCode(NotFound(name), printable) == TUNNEL_NOT_FOUND
  {
    ContainsMiddle(" ", NOT_FOUND, "");
    assert " " + NOT_FOUND + "" == " not found";
    MessageContains(NotFound(name), printable, NOT_FOUND);
  }

  lemma NotRunningReadsNotFound(name: string, printable: char -> bool)
    ensures Contains(ErrorMessage(NotRunning(name), printable), NOT_FOUND) <==> Misleading(name)
  {
    MissingCharacter("tunnel ", NOT_FOUND, 'd');
    MissingCharacter(" is not running", NOT_FOUND, 'd');
    MessageContains(NotRunning(name), printable, NOT_FOUND);
    QuotedNotFound(name, printable);
  }

  lemma NotRunningReadsNotRunning(name: string, printable: char -> bool)
    ensures Contains(ErrorMessage(NotRunning(name), printable), "not running")
  {
    ContainsMiddle(" is ", "not running", "");
    assert " is " + "not running" + "" == " is not running";
    MessageContains(NotRunning(name), printable, "not running");
  }

  lemma NotRunningCode(name: string, printable: char -> bool)
    ensures StopCode(NotRunning(name), printable) == if Misleading(name) then TUNNEL_NOT_FOUND else TUNNEL_INACTIVE
  {
    NotRunningReadsNotFound(name, printable);
    NotRunningReadsNotRunning(name, printable);
  }

  /**
   * Stop answers TunnelNotFound for every absent name; for a tunnel that is present but idle it
   * answers TunnelInactive exactly when the name contains neither "not found" nor a newline
   * followed by "ot found".
   */
  lemma StopCodesExact(m: Memory, name: string, printable: char -> bool)
    requires Sound(m) && name != ""
    ensures name !in m.index ==> HandleStop(m, Some(name), printable) == Fail(1001)
    ensures name in m.index && IsActive(m.objs[m.index[name]].status) ==> HandleStop(m, Some(name), printable) == Success
    ensures name in m.index && !IsActive(m.objs[m.index[name]].status) ==>
              HandleStop(m, Some(name), printable) == Fail(if Misleading(name) then 1001 else 1003)
  {
    NotFoundCode(name, printable);
    NotRunningCode(name, printable);
  }

  lemma NewlineHidesIt()
    ensures !Contains(NEWLINE_OT_FOUND, NOT_FOUND) && Misleading(NEWLINE_OT_FOUND)
  {
    assert OccursAt(NEWLINE_OT_FOUND, NEWLINE_OT_FOUND, 0);
    assert !OccursAt(NEWLINE_OT_FOUND, NOT_FOUND, 0) by {
      assert NEWLINE_OT_FOUND[0..|NOT_FOUND|][0] != NOT_FOUND[0];
    }
  }

  /** The wrong code is reachable: a configured, idle tunnel is reported as not found. */
  lemma WrongStopCode(printable: char -> bool)
    ensures var m := NewMemory([MisleadingConfig()]);
            && Sound(m) && NEWLINE_OT_FOUND in m.index
            && HandleStop(m, Some(NEWLINE_OT_FOUND), printable) == Fail(TUNNEL_NOT_FOUND)
            && !Contains(NEWLINE_OT_FOUND, NOT_FOUND)
  {
    var cfg := [MisleadingConfig()];
    InitInv(cfg);
    InvShape(Init(cfg), cfg);
    NewlineHidesIt();
    StopCodesExact(NewMemory(cfg), NEWLINE_OT_FOUND, printable);
  }

  function MisleadingConfig(): TunnelConfig {
    Config.TunnelConfig(NEWLINE_OT_FOUND, "h", "r", "l")
  }

  // -------------------------------------------------------------- start

  function StartCode(e: OpError, printable: char -> bool): int {
    if Contains(ErrorMessage(e, printable), "already") then TUNNEL_ACTIVE else INTERNAL
  }

  /**
   * `handleTunnelStart`: the lookup and the start are separate locked regions, so they may see
   * different memories; `authorised` is whether authentication methods were found.
   */
  ghost function HandleStart(cfg: seq<TunnelConfig>, lookup: Memory, start: Memory, name: Option<string>,
                             authorised: bool, printable: char -> bool): Outcome
    requires Sound(lookup) && Sound(start)
  {
    if name == None || name.value == "" then Fail(INVALID_PARAMS)
    else if ConfigOf(lookup, name.value) == None && !(exists i | 0 <= i < |cfg| :: cfg[i].name == name.value)
      then Fail(TUNNEL_NOT_FOUND)
    else if !authorised then Fail(AUTH_REQUIRED)
    else match StartError(start, name.value)
      case None => Success
      case Some(e) => Fail(StartCode(e, printable))
  }

  const ALREADY := "already"

  lemma AlreadyCode(name: string, status: Status, printable: char -> bool)
    ensures StartCode(AlreadyActive(name, status), printable) == TUNNEL_ACTIVE
  {
    ContainsMiddle(" is ", ALREADY, " " + StatusText(status));
    assert " is " + ALREADY + (" " + StatusText(status)) == " is already " + StatusText(status);
    MessageContains(AlreadyActive(name, status), printable, ALREADY);
  }

  /** The characters written so that they end in the letter a: three in ASCII, and escapes like \u008a. */
  predicate ReadsAsA(c: char, printable: char -> bool) {
    c == 'a' || c as int == 7 || c as int == 0x1a || (c as int >= 0x80 && c as int % 16 == 10 && !printable(c))
  }

  lemma HexEndsInA(n: nat, width: nat)
    requires width > 0
    ensures Hex(n, width)[width - 1] == 'a' <==> n % 16 == 10
  {
    HexDigitIsA(n % 16);
  }

  lemma HexDigitIsA(d: nat)
    requires d < 16
    ensures HEX[d] == 'a' <==> d == 10
  {
  }

  lemma EndsInA(c: char, printable: char -> bool)
    ensures var e := EscapeChar(c, printable); e != "" && (e[|e| - 1] == 'a' <==> ReadsAsA(c, printable))
  {
    if c as int < 0x80 {
      AsciiEndsInA(c, printable);
    } else if !printable(c) {
      HexEndsInA(c as int, if c as int < 0x10000 then 4 else 8);
    }
  }

  lemma AsciiEndsInA(c: char, printable: char -> bool)
    requires c as int < 0x80
    ensures var e := EscapeChar(c, printable); e != "" && (e[|e| - 1] == 'a' <==> ReadsAsA(c, printable))
  {
    if !(' ' <= c <= '~') {
      HexEndsInA(c as int, 2);
    }
  }

  const LREADY := "lready"

  /** A name whose quoted form reads as "already" somewhere. */
  ghost predicate ReadsAlready(name: string, printable: char -> bool) {
    exists i | 0 <= i < |name| :: ReadsAsA(name[i], printable) && LREADY <= name[i + 1..]
  }

  lemma AlreadyHitAt(name: string, printable: char -> bool, i: nat)
    requires i < |name|
    ensures Hit(name, ALREADY, printable, i) <==> ReadsAsA(name[i], printable) && LREADY <= name[i + 1..]
  {
    EndsInA(name[i], printable);
    assert ALREADY[1..] == LREADY;
  }

  lemma QuotedAlready(name: string, printable: char -> bool)
    ensures Contains(Escape(name, printable), ALREADY) <==> ReadsAlready(name, printable)
  {
    EscapedContains(name, ALREADY, printable);
    forall i: nat | i < |name|
      ensures Hit(name, ALREADY, printable, i) <==> ReadsAsA(name[i], printable) && LREADY <= name[i + 1..]
    {
      AlreadyHitAt(name, printable, i);
    }
  }

  /** A tunnel that vanished between lookup and start is an internal error unless its quoted name reads "already". */
  lemma VanishedCode(name: string, printable: char -> bool)
    ensures StartCode(NotFound(name), printable) == if ReadsAlready(name, printable) then TUNNEL_ACTIVE else INTERNAL
  {
    MissingCharacter("tunnel ", ALREADY, 'y');
    MissingCharacter(" not found", ALREADY, 'y');
    MessageContains(NotFound(name), printable, ALREADY);
    QuotedAlready(name, printable);
  }

  /** What the start handler answers, by what the two regions find. */
  function StartOutcome(known: bool, authorised: bool, found: Option<Status>, misread: bool): Outcome {
    if !known then Fail(1001)
    else if !authorised then Fail(1004)
    else if found == None then Fail(if misread then 1002 else -32603)
    else if IsActive(found.value) then Fail(1002)
    else Success
  }

  function FoundStatus(m: Memory, name: string): Option<Status>
    requires Sound(m)
  {
    if name in m.index then Some(m.objs[m.index[name]].status) else None
  }

  lemma StartCodes(cfg: seq<TunnelConfig>, lookup: Memory, start: Memory, name: string, authorised: bool,
                   printable: char -> bool)
    requires Sound(lookup) && Sound(start) && name != ""
    requires forall i | 0 <= i < |cfg| :: cfg[i].name in lookup.index
    ensures HandleStart(cfg, lookup, start, Some(name), authorised, printable)
            == StartOutcome(name in lookup.index, authorised, FoundStatus(start, name), ReadsAlready(name, printable))
  {
    if name in start.index {
      AlreadyCode(name, start.objs[start.index[name]].status, printable);
    } else {
      VanishedCode(name, printable);
    }
  }

  /**
   * The start handler in full: it looks the name up at step `j` and `Start` finds the memory of
   * step `k`.  It answers TunnelNotFound exactly for names absent from the index at `j` (its
   * fallback to the configuration finds nothing more), then AuthRequired without authentication
   * methods, then by the status `Start` finds.  A tunnel that has vanished in between was not
   * configured, its name was drawn by the name generator, and the answer is an internal error
   * unless the quoted name reads "already".
   */
  lemma StartCodesExact(cfg: seq<TunnelConfig>, states: seq<Machine>, steps: seq<Step>, j: nat, k: nat, name: string,
                        authorised: bool, printable: char -> bool)
    requires Execution(cfg, states, steps) && j <= k < |states| && name != ""
    ensures Sound(states[j].mem) && Sound(states[k].mem)
    ensures HandleStart(cfg, states[j].mem, states[k].mem, Some(name), authorised, printable)
            == StartOutcome(name in states[j].mem.index, authorised, FoundStatus(states[k].mem, name), ReadsAlready(name, printable))
    ensures name in states[j].mem.index && name !in states[k].mem.index ==> !IsConfigured(cfg, name) && Drawn(steps, j, name)
  {
    forall i | 0 <= i < |cfg|
      ensures cfg[i].name in states[j].mem.index
    {
      ConfiguredIsIndexed(cfg, states, steps, j, cfg[i].name);
    }
    SoundAt(cfg, states, steps, j);
    SoundAt(cfg, states, steps, k);
    StartCodes(cfg, states[j].mem, states[k].mem, name, authorised, printable);
    if name in states[j].mem.index && name !in states[k].mem.index {
      VanishedWasDrawn(cfg, states, steps, j, k, name);
    }
  }

  lemma SoundAt(cfg: seq<TunnelConfig>, states: seq<Machine>, steps: seq<Step>, k: nat)
    requires Execution(cfg, states, steps) && k < |states|
    ensures Sound(states[k].mem)
  {
    Safety(cfg, states, steps, k);
  }

  /** No name the generator has drawn reads as "already". */
  ghost predicate HarmlessDraws(steps: seq<Step>, j: nat, printable: char -> bool) {
    forall name | Drawn(steps, j, name) :: !ReadsAlready(name, printable)
  }

  /**
   * As long as the name generator draws no name that reads as "already", the start handler
   * answers TunnelActive exactly for a tunnel that `Start` finds active.
   */
  lemma ActiveCodeExact(cfg: seq<TunnelConfig>, states: seq<Machine>, steps: seq<Step>, j: nat, k: nat, name: string,
                        authorised: bool, printable: char -> bool)
    requires Execution(cfg, states, steps) && j <= k < |states| && name != "" && HarmlessDraws(steps, j, printable)
    ensures Sound(states[j].mem) && Sound(states[k].mem)
    ensures HandleStart(cfg, states[j].mem, states[k].mem, Some(name), authorised, printable) == Fail(TUNNEL_ACTIVE) <==>
            && name in states[j].mem.index && authorised
            && FoundStatus(states[k].mem, name).Some? && IsActive(FoundStatus(states[k].mem, name).value)
  {
    StartCodesExact(cfg, states, steps, j, k, name, authorised, printable);
  }

  /** The condition on the generator is needed: had it drawn "already", a vanished tunnel would be reported as active. */
  lemma WrongStartCode(printable: char -> bool) returns (states: seq<Machine>, steps: seq<Step>)
    ensures Execution([], states, steps) && |steps| == 2
    ensures Sound(states[1].mem) && Sound(states[2].mem)
    ensures ALREADY in states[1].mem.index && ALREADY !in states[2].mem.index
    ensures HandleStart([], states[1].mem, states[2].mem, Some(ALREADY), true, printable) == Fail(TUNNEL_ACTIVE)
  {
    states, steps := RegisteredAndGone(ALREADY);
    assert ReadsAsA(ALREADY[0], printable) && LREADY <= ALREADY[1..];
    StartCodesExact([], states, steps, 1, 2, ALREADY, true, printable);
  }

  lemma RegisteredAndGone(name: string) returns (states: seq<Machine>, steps: seq<Step>)
    ensures Execution([], states, steps) && |steps| == 2
    ensures name in states[1].mem.index && name !in states[2].mem.index
  {
    states, steps := Registered(name, Config.TunnelConfig("", "h", "r", "l"));
    states, steps := Extend([], states, steps, UnregisterCalled(name));
  }

  lemma Registered(name: string, config: TunnelConfig) returns (states: seq<Machine>, steps: seq<Step>)
    ensures Execution([], states, steps) && |steps| == 1 && Shape(states[1])
    ensures name in states[1].mem.index
    ensures var t := states[1].mem.objs[states[1].mem.index[name]];
            t.config == config.(name := name) && t.ephemeral && !IsActive(t.status)
  {
    InitReachable([]);
    var register := RegisterCalled(config, seq(NAME_ATTEMPTS, i => name));
    assert Execution([], [Init([])], []);
    states, steps := Extend([], [Init([])], [], register);
    ReachNext([], Init([]), register);
  }

  lemma ShapeAt(cfg: seq<TunnelConfig>, states: seq<Machine>, steps: seq<Step>, k: nat)
    requires Execution(cfg, states, steps) && k < |states|
    ensures Shape(states[k])
  {
    Safety(cfg, states, steps, k);
  }

  /** All three handlers reject a request without a usable name, and the rejection means nothing else. */
  lemma NamelessIsRejected(cfg: seq<TunnelConfig>, m: Memory, start: Memory, name: Option<string>, authorised: bool,
                           printable: char -> bool)
    requires Sound(m) && Sound(start)
    ensures var nameless := name == None || name == Some("");
            && (HandleStop(m, name, printable) == Fail(-32602) <==> nameless)
            && (HandleStart(cfg, m, start, name, authorised, printable) == Fail(-32602) <==> nameless)
            && (HandleStatus(m, name) == Fail(-32602) <==> nameless)
  {
  }

  // -------------------------------------------------------------- status

  /** `handleTunnelStatus`, which recognises an absent tunnel by its error text. */
  function HandleStatus(m: Memory, name: Option<string>): Outcome
    requires Sound(m)
  {
    if name == None || name.value == "" then Fail(INVALID_PARAMS)
    else if StatusOf(m, name.value).1 == NOT_FOUND_TEXT then Fail(TUNNEL_NOT_FOUND)
    else Success
  }

  /** In any reachable state no tunnel's own error text is mistaken for the not-found sentinel. */
  lemma StatusCodesExact(cfg: seq<TunnelConfig>, s: Machine, name: string)
    requires Reachable(cfg, s) && name != ""
    ensures Sound(s.mem)
    ensures HandleStatus(s.mem, Some(name)) == if name !in s.mem.index then Fail(1001) else Success
    ensures name in s.mem.index ==> (StatusOf(s.mem, name).1 != "" <==> StatusOf(s.mem, name).0 == Error)
  {
    ReachableIsSafe(cfg, s);
    if name in s.mem.index {
      assert TextOk(s.mem.objs[s.mem.index[name]]);
    }
  }
}
