/** The container's first process: it feeds the database CLI its startup commands through a
    pipe, waits for a termination request or for the CLI's end, and shuts the CLI down. */
module Launcher {
  import opened Wrappers

  datatype Ending = Exited(code: nat) | Killed(signal: nat)

  datatype Cli = Running | Ended(ending: Ending) | Reaped(ending: Ending)

  datatype Signal = Term | Int | Chld

  /** `Arrive(Chld)` is the signal of a CLI that was only stopped or continued. */
  datatype Event = Arrive(signal: Signal) | CliEnds(ending: Ending)

  /** What happens during one system call, and how many bytes the pipe takes in it. */
  datatype Turn = Turn(events: seq<Event>, room: nat)

  /** What a stream call belongs to. */
  datatype Part = Load | Setting | StartupSql | Terminator | Locks | PgListener | FlightListener | Ready | Quit

  /** One call on the unbuffered command stream, and how much of its text got through. */
  datatype Entry = Entry(part: Part, text: string, written: nat)

  datatype Startup = Startup(chunks: seq<string>, readFails: bool)

  /** The program's fixed texts. What a run does does not depend on what they say. */
  datatype Texts = Texts(load: string, locks: string, pg: string, flight: string, ready: string, quit: string)

  const ALLOWED_CONFIGS := "set allowed_configs=['TimeZone'];\n"
  const NO_EXTERNAL_ACCESS := "set enable_external_access=false;\n"
  const LOCKED := "set lock_configuration=true;\n"

  const TEXTS := Texts(
    "load '/opt/duckflight/duckflight.duckdb_extension';\n"
    + "select case when loaded then 'DuckFlight core loaded' else error(detail) end "
    + "from duckflight_core_status();\n",
    ALLOWED_CONFIGS + NO_EXTERNAL_ACCESS + LOCKED,
    "select 'DuckFlight pgwire listening on ' || address from duckflight_pg_serve(",
    "select 'DuckFlight flight listening on ' || address from duckflight_flight_serve(",
    ".print DuckFlight ready\n",
    ".quit\n")

  datatype Config = Config(memoryLimit: string, threads: string, tempDirectory: string,
                           startup: Option<Startup>, pg: string, flight: string, path: string)

  predicate ReadFails(config: Config) { config.startup.Some? && config.startup.value.readFails }

  /** No settings and no startup SQL in front of a read error. */
  predicate Bare(config: Config) {
    && config.memoryLimit == config.threads == config.tempDirectory == ""
    && (config.startup.Some? ==> config.startup.value.chunks == [])
  }

  /** Where a run has got to: it waits for a signal, it waits for the CLI after closing its
      input, it has returned the CLI's status, or it has returned after a read error. */
  datatype Outcome = Waiting | Closing | Done(status: nat) | ReadFailed

  function Min(a: nat, b: nat): nat { if a < b then a else b }

  function ExitStatus(ending: Ending): nat {
    match ending
    case Exited(code) => code
    case Killed(signal) => 128 + signal
  }

  /** The status tells a signal from an exit with a code up to 128, and is zero only for an
      exit with zero. */
  lemma StatusTellsApart(a: Ending, b: Ending)
    requires a.Exited? ==> a.code <= 128
    requires b.Exited? ==> b.code <= 128
    requires (a.Killed? ==> a.signal > 0) && (b.Killed? ==> b.signal > 0)
    ensures ExitStatus(a) == ExitStatus(b) <==> a == b
    ensures ExitStatus(a) == 0 <==> a == Exited(0)
  {
  }

  // ---------- the text of the commands ----------

  /** The inside of an SQL string literal. */
  function Doubled(value: string): string {
    if value == "" then ""
    else Doubled(value[..|value| - 1]) + (if value[|value| - 1] == '\'' then "''" else [value[|value| - 1]])
  }

  function Quoted(value: string): string { "'" + Doubled(value) + "'" }

  /** SQL's reading of a literal, from behind its opening quote: the value and the rest. */
  function ReadLiteral(text: string): Option<(string, string)> {
    if text == "" then None
    else if text[0] != '\'' then
      var tail := ReadLiteral(text[1..]);
      if tail.None? then None else Some(([text[0]] + tail.value.0, tail.value.1))
    else if |text| > 1 && text[1] == '\'' then
      var tail := ReadLiteral(text[2..]);
      if tail.None? then None else Some(("'" + tail.value.0, tail.value.1))
    else Some(("", text[1..]))
  }

  function SettingText(name: string, value: string): string {
    if value == "" then "" else "set " + name + "=" + Quoted(value) + ";\n"
  }

  function ServeText(opening: string, address: string, path: string): string {
    if address == "" then "" else opening + Quoted(address) + "," + Quoted(path) + ");\n"
  }

  function Joined(chunks: seq<string>): string {
    if chunks == [] then "" else Joined(chunks[..|chunks| - 1]) + chunks[|chunks| - 1]
  }

  function SettingsText(config: Config): string {
    SettingText("memory_limit", config.memoryLimit) + SettingText("threads", config.threads)
    + SettingText("temp_directory", config.tempDirectory)
  }

  function StartupText(config: Config): string {
    if config.startup.None? then "" else Joined(config.startup.value.chunks) + "\n;\n"
  }

  function ListenersText(texts: Texts, config: Config): string {
    ServeText(texts.pg, config.pg, config.path) + ServeText(texts.flight, config.flight, config.path)
  }

  /** All that an undisturbed launch writes. */
  function Commands(texts: Texts, config: Config): string {
    texts.load + SettingsText(config) + StartupText(config) + texts.locks + ListenersText(texts, config) + texts.ready
  }

  lemma {:induction false} LiteralStep(c: char, rest: string)
    ensures (if c == '\'' then "''" else [c]) + rest != ""
    ensures ReadLiteral((if c == '\'' then "''" else [c]) + rest)
         == var tail := ReadLiteral(rest);
            if tail.None? then None else Some(([c] + tail.value.0, tail.value.1))
  {
    if c == '\'' {
      assert ("''" + rest)[2..] == rest;
    } else {
      assert ([c] + rest)[1..] == rest;
    }
  }

  lemma {:induction false} DoubledFront(value: string)
    requires value != ""
    ensures Doubled(value) == (if value[0] == '\'' then "''" else [value[0]]) + Doubled(value[1..])
  {
    if |value| > 1 {
      var front := value[..|value| - 1];
      DoubledFront(front);
      assert front[1..] == value[1..][..|value| - 2];
      assert Doubled(value[1..]) == Doubled(front[1..])
                                    + (if value[|value| - 1] == '\'' then "''" else [value[|value| - 1]]);
    }
  }

  lemma {:induction false} DoubledIsReadBack(value: string, rest: string)
    requires rest == "" || rest[0] != '\''
    ensures ReadLiteral(Doubled(value) + "'" + rest) == Some((value, rest))
  {
    if value == "" {
      assert (Doubled(value) + "'" + rest)[1..] == rest;
    } else {
      hide ReadLiteral, Doubled;
      DoubledIsReadBack(value[1..], rest);
      DoubledFront(value);
      LiteralStep(value[0], Doubled(value[1..]) + "'" + rest);
      assert Doubled(value) + "'" + rest
          == (if value[0] == '\'' then "''" else [value[0]]) + (Doubled(value[1..]) + "'" + rest);
      assert [value[0]] + value[1..] == value;
    }
  }

  lemma DoubledStep(value: string, i: nat)
    requires i < |value|
    ensures Doubled(value[..i + 1]) == Doubled(value[..i]) + (if value[i] == '\'' then "''" else [value[i]])
  {
    assert value[..i + 1][..i] == value[..i];
  }

  /** A quoted value is read back whole, whatever it contains, unless a quote follows it. */
  lemma QuotedIsReadBack(value: string, rest: string)
    requires rest == "" || rest[0] != '\''
    ensures (Quoted(value) + rest)[0] == '\''
    ensures ReadLiteral((Quoted(value) + rest)[1..]) == Some((value, rest))
  {
    DoubledIsReadBack(value, rest);
    assert (Quoted(value) + rest)[1..] == Doubled(value) + "'" + rest;
  }

  // ---------- what the stream carries ----------

  predicate Full(e: Entry) { e.written == |e.text| }

  predicate Sound(log: seq<Entry>) { forall e <- log :: e.written <= |e.text| }

  /** The parts the program starts to write only while no termination was requested. */
  predicate Guarded(part: Part) {
    part.Terminator? || part.Locks? || part.PgListener? || part.FlightListener? || part.Ready?
  }

  predicate Listening(part: Part) { part.PgListener? || part.FlightListener? }

  predicate Whole(log: seq<Entry>) { forall i | 0 <= i < |log| :: Full(log[i]) }

  /** All that was written for other purposes is complete. */
  predicate OthersWhole(log: seq<Entry>, part: Part) {
    forall i | 0 <= i < |log| && log[i].part != part :: Full(log[i])
  }

  predicate Locked(log: seq<Entry>, locks: string) {
    exists i | 0 <= i < |log| :: log[i] == Entry(Locks, locks, |locks|)
  }

  /** Every byte of a guarded command follows complete commands, and every byte of a
      listener's start follows the complete lock settings. */
  predicate InOrder(log: seq<Entry>, locks: string) {
    forall i | 0 <= i < |log| && log[i].written > 0 ::
      (Guarded(log[i].part) ==> OthersWhole(log[..i], log[i].part))
      && (Listening(log[i].part) ==> Locked(log[..i], locks))
  }

  function Text(log: seq<Entry>): string
    requires Sound(log)
  {
    if log == [] then ""
    else var e := log[|log| - 1];
         Text(log[..|log| - 1]) + e.text[..e.written]
  }

  lemma InOrderGrows(log: seq<Entry>, locks: string, e: Entry)
    requires InOrder(log, locks)
    requires e.written > 0 && Guarded(e.part) ==> OthersWhole(log, e.part)
    requires e.written > 0 && Listening(e.part) ==> Locked(log, locks)
    ensures InOrder(log + [e], locks)
  {
    var grown := log + [e];
    forall i | 0 <= i < |grown| && grown[i].written > 0
      ensures (Guarded(grown[i].part) ==> OthersWhole(grown[..i], grown[i].part))
           && (Listening(grown[i].part) ==> Locked(grown[..i], locks))
    {
      assert grown[..i] == if i == |log| then log else log[..i];
    }
  }

  lemma LogGrows(log: seq<Entry>, locks: string, e: Entry)
    requires Sound(log) && InOrder(log, locks) && e.written <= |e.text|
    requires e.written > 0 && Guarded(e.part) ==> OthersWhole(log, e.part)
    requires e.written > 0 && Listening(e.part) ==> Locked(log, locks)
    ensures Sound(log + [e]) && InOrder(log + [e], locks)
    ensures Whole(log) && Full(e) <==> Whole(log + [e])
    ensures Locked(log, locks) ==> Locked(log + [e], locks)
    ensures OthersWhole(log, e.part) ==> OthersWhole(log + [e], e.part)
  {
    var grown := log + [e];
    InOrderGrows(log, locks, e);
    assert forall i | 0 <= i < |log| :: grown[i] == log[i];
    assert grown[|log|] == e;
    if Locked(log, locks) {
      var i :| 0 <= i < |log| && log[i] == Entry(Locks, locks, |locks|);
      assert grown[i] == log[i];
    }
    if Whole(grown) {
      forall i | 0 <= i < |log| ensures Full(log[i]) { assert Full(grown[i]); }
    }
  }

  lemma {:induction false} TextGrows(log: seq<Entry>, k: nat) returns (more: string)
    requires Sound(log) && k <= |log|
    ensures Text(log) == Text(log[..k]) + more
    decreases |log|
  {
    if k == |log| {
      assert log[..k] == log;
      more := "";
    } else {
      var shorter := log[..|log| - 1];
      var e := log[|log| - 1];
      var between := TextGrows(shorter, k);
      assert shorter[..k] == log[..k];
      more := between + e.text[..e.written];
    }
  }

  lemma EmptyText(log: seq<Entry>)
    requires log == []
    ensures Sound(log) && Text(log) == ""
  {
  }

  lemma TextStep(log: seq<Entry>, e: Entry)
    requires Sound(log) && Sound(log + [e])
    ensures Full(e) ==> Text(log + [e]) == Text(log) + e.text
  {
    assert (log + [e])[..|log|] == log;
  }

  /** In the byte stream: before the first byte of a listener's start lie the complete lock
      settings, in one piece. */
  lemma LocksPrecedeListeners(log: seq<Entry>, locks: string, i: nat) returns (before: string, after: string)
    requires Sound(log) && InOrder(log, locks)
    requires i < |log| && Listening(log[i].part) && log[i].written > 0
    ensures Text(log[..i]) == before + locks + after
  {
    var j :| 0 <= j < i && log[..i][j] == Entry(Locks, locks, |locks|);
    before := Text(log[..j]);
    assert log[..j + 1][..j] == log[..j];
    assert log[j].text[..log[j].written] == locks;
    assert Text(log[..j + 1]) == before + locks;
    after := TextGrows(log[..i], j + 1);
    assert log[..i][..j + 1] == log[..j + 1];
  }

  /** With the program's own texts: each of the three settings is complete, in this order,
      before the first byte of a listener's start. */
  lemma SettingsPrecedeListeners(log: seq<Entry>, i: nat) returns (before: string, after: string)
    requires Sound(log) && InOrder(log, TEXTS.locks)
    requires i < |log| && Listening(log[i].part) && log[i].written > 0
    ensures Text(log[..i])
         == before + "set allowed_configs=['TimeZone'];\n" + "set enable_external_access=false;\n"
            + "set lock_configuration=true;\n" + after
  {
    hide Text, Sound, InOrder, ALLOWED_CONFIGS, NO_EXTERNAL_ACCESS, LOCKED;
    before, after := LocksPrecedeListeners(log, TEXTS.locks, i);
    Joining(before, ALLOWED_CONFIGS, NO_EXTERNAL_ACCESS, LOCKED, after);
    OwnTexts();
  }

  lemma OwnTexts()
    ensures ALLOWED_CONFIGS == "set allowed_configs=['TimeZone'];\n"
    ensures NO_EXTERNAL_ACCESS == "set enable_external_access=false;\n" && LOCKED == "set lock_configuration=true;\n"
  {
  }

  lemma Joining(a: string, b: string, c: string, d: string, e: string)
    ensures a + (b + c + d) + e == a + b + c + d + e
  {
  }

  // ---------- what a schedule holds ----------

  predicate Terminates(turn: Turn) {
    exists e :: e in turn.events && e.Arrive? && !e.signal.Chld?
  }

  predicate Ends(turn: Turn) {
    exists e :: e in turn.events && e.CliEnds?
  }

  predicate Requests(turns: seq<Turn>) {
    exists t :: t in turns && Terminates(t)
  }

  predicate EndsCli(turns: seq<Turn>) {
    exists t :: t in turns && Ends(t)
  }

  /** From turn `from` on a termination request arrives, in a turn before the CLI's end. */
  predicate RequestedFirst(schedule: seq<Turn>, from: nat) {
    exists n :: from <= n < |schedule| && Terminates(schedule[n]) && !EndsCli(schedule[..n + 1])
  }

  /** The pipe takes this much in every call. */
  predicate Roomy(turns: seq<Turn>, room: nat) {
    forall t | t in turns :: t.room >= room
  }

  /** In the first `n` turns neither a request nor the CLI's end arrives. */
  predicate Calm(schedule: seq<Turn>, n: nat) {
    n <= |schedule| && !Requests(schedule[..n]) && !EndsCli(schedule[..n])
  }

  /** All that is written is the loading of the extension, in two calm turns, before a read fails. */
  predicate OnlyReadError(texts: Texts, config: Config, schedule: seq<Turn>, future: seq<Turn>) {
    && ReadFails(config) && Bare(config) && Roomy(future, |texts.load|)
    && |future| <= |schedule| && Calm(schedule, |schedule| - |future| + 2)
  }

  lemma CalmBefore(schedule: seq<Turn>, passed: seq<Turn>, n: nat)
    requires Calm(schedule, n) && |passed| <= n && passed == schedule[..|passed|]
    ensures !Requests(passed) && !EndsCli(passed)
  {
    assert forall t | t in passed :: t in schedule[..n] by {
      assert passed == schedule[..n][..|passed|];
    }
  }

  lemma NoTurns()
    ensures !Requests([]) && !EndsCli([])
  {
  }

  lemma OneMoreTurn(turns: seq<Turn>, turn: Turn)
    ensures Requests(turns + [turn]) <==> Requests(turns) || Terminates(turn)
    ensures EndsCli(turns + [turn]) <==> EndsCli(turns) || Ends(turn)
  {
    assert forall t :: t in turns + [turn] <==> t in turns || t == turn;
  }

  /** Which turn decides a wait that ends with the CLI or with a handler. */
  lemma WaitDecided(schedule: seq<Turn>, from: nat, to: nat)
    requires from <= to <= |schedule| && !Requests(schedule[from..to]) && !EndsCli(schedule[..to])
    ensures to == |schedule| ==> !RequestedFirst(schedule, from)
    ensures to < |schedule| && Ends(schedule[to]) ==> !RequestedFirst(schedule, from)
    ensures to < |schedule| && !Ends(schedule[to]) && Terminates(schedule[to]) ==> RequestedFirst(schedule, from)
  {
    forall n | from <= n < to ensures !Terminates(schedule[n]) {
      assert schedule[from..to][n - from] == schedule[n];
    }
    if to < |schedule| {
      assert schedule[..to + 1] == schedule[..to] + [schedule[to]];
      OneMoreTurn(schedule[..to], schedule[to]);
      forall m | to < m <= |schedule| ensures Ends(schedule[to]) ==> EndsCli(schedule[..m]) {
        assert schedule[..m][to] == schedule[to];
      }
    }
  }

  lemma EndedBefore(schedule: seq<Turn>, from: nat)
    requires from <= |schedule| && EndsCli(schedule[..from])
    ensures !RequestedFirst(schedule, from)
  {
    var t :| t in schedule[..from] && Ends(t);
    var k :| 0 <= k < from && schedule[k] == t;
    forall m | from <= m <= |schedule| ensures EndsCli(schedule[..m]) {
      assert schedule[..m][k] == t;
    }
  }

  // ---------- the process ----------

  class Launcher {
    const texts: Texts
    /** What happens in each system call of the run, in order. */
    ghost const schedule: seq<Turn>
    var stopping: bool
    var failed: bool
    var log: seq<Entry>
    /** Whether the two termination signals are blocked; the CLI's signal always is. */
    var blocked: bool
    var termPending: bool
    var intPending: bool
    var chldPending: bool
    var cli: Cli
    var interrupts: nat
    var closed: bool
    var future: seq<Turn>
    /** A termination signal was sent to this process. */
    ghost var requested: bool
    /** A wait has taken one. */
    ghost var heard: bool
    /** A wait has taken the CLI's signal and the CLI has not been asked about since. */
    ghost var told: bool
    /** The part of the schedule that is over. */
    ghost var passed: seq<Turn>
    /** How much of it was over when the wait behind a failed read began. */
    ghost var lastWait: nat

    /** The state behind the pipe's creation, the fork and the blocking of the signals. */
    constructor (texts: Texts, future: seq<Turn>)
      ensures Valid() && blocked && !stopping && !failed && !requested && !heard && !told && !closed
      ensures log == [] && interrupts == 0 && cli == Running && this.future == future && this.texts == texts
      ensures schedule == future && passed == []
    {
      this.texts, schedule, passed, lastWait := texts, future, [], 0;
      stopping, failed, blocked, closed := false, false, true, false;
      termPending, intPending, chldPending := false, false, false;
      requested, heard, told := false, false, false;
      log, interrupts, cli, this.future := [], 0, Running, future;
    }

    /** Nothing that happened is forgotten. */
    ghost predicate NothingLost()
      reads this
    {
      && (requested ==> stopping || termPending || intPending || heard)
      && (cli.Ended? ==> chldPending || told)
      && (stopping ==> interrupts > 0)
      && (stopping || termPending || intPending || heard ==> requested)
      && (!blocked ==> !termPending && !intPending && !cli.Reaped?)
    }

    ghost predicate StreamOk()
      reads this
    {
      && StreamSound() && (Whole(log) || failed) && (failed ==> stopping || !cli.Running?)
    }

    ghost predicate StreamSound()
      reads this
    {
      Sound(log) && InOrder(log, texts.locks)
    }

    /** What has happened is what the schedule says. */
    ghost predicate Accounted()
      reads this
    {
      && schedule == passed + future
      && (cli.Running? <==> !EndsCli(passed)) && (requested <==> Requests(passed))
    }

    ghost predicate Valid()
      reads this
    {
      NothingLost() && StreamOk() && Accounted()
    }

    /** What never goes back. */
    twostate predicate Advanced()
      reads this
    {
      && (old(stopping) ==> stopping) && (old(failed) ==> failed) && (old(requested) ==> requested)
      && (!old(cli).Running? ==> !cli.Running?) && (cli.Reaped? ==> old(cli).Reaped?)
      && blocked == old(blocked) && told == old(told) && heard == old(heard) && closed == old(closed)
      && |future| <= |old(future)| && interrupts >= old(interrupts) && lastWait == old(lastWait)
      && (blocked ==> stopping == old(stopping))
      && (old(Locked(log, texts.locks)) ==> Locked(log, texts.locks))
    }

    method Kill()
      requires !cli.Reaped?
      modifies this`interrupts
      ensures interrupts == old(interrupts) + 1
    {
      interrupts := interrupts + 1;
    }

    method InterruptStartup()
      requires !cli.Reaped?
      modifies this`stopping, this`interrupts
      ensures stopping && interrupts == old(interrupts) + 1
    {
      stopping := true;
      Kill();
    }

    method Deliver(event: Event) returns (interrupted: bool)
      requires NothingLost() && StreamOk()
      modifies this
      ensures NothingLost() && StreamOk() && Advanced()
      ensures log == old(log) && future == old(future) && failed == old(failed) && passed == old(passed)
      ensures interrupted <==> !blocked && event.Arrive? && !event.signal.Chld?
      ensures blocked ==> (event == Arrive(Term) ==> termPending) && (event == Arrive(Signal.Int) ==> intPending)
      ensures requested <==> old(requested) || (event.Arrive? && !event.signal.Chld?)
      ensures cli.Running? <==> old(cli).Running? && !event.CliEnds?
      ensures interrupted ==> stopping
    {
      hide Sound, InOrder, Whole;
      interrupted := false;
      if event.CliEnds? {
        if cli.Running? {
          cli := Ended(event.ending);
          chldPending := true;
        }
      } else if event.signal.Chld? {
        chldPending := true;
      } else {
        requested := true;
        if !blocked {
          InterruptStartup();
          interrupted := true;
        } else if event.signal.Term? {
          termPending := true;
        } else {
          intPending := true;
        }
      }
    }

    /** The events of one system call. */
    method DeliverAll(events: seq<Event>) returns (interrupted: bool)
      requires NothingLost() && StreamOk()
      modifies this
      ensures NothingLost() && StreamOk() && Advanced()
      ensures log == old(log) && future == old(future) && failed == old(failed) && passed == old(passed)
      ensures interrupted <==> !blocked && exists e :: e in events && e.Arrive? && !e.signal.Chld?
      ensures requested <==> old(requested) || exists e :: e in events && e.Arrive? && !e.signal.Chld?
      ensures cli.Running? <==> old(cli).Running? && !exists e :: e in events && e.CliEnds?
      ensures interrupted ==> stopping
    {
      hide NothingLost, StreamOk;
      interrupted := false;
      for i := 0 to |events|
        invariant NothingLost() && StreamOk() && Advanced()
        invariant log == old(log) && future == old(future) && failed == old(failed) && passed == old(passed)
        invariant interrupted <==> !blocked && exists e :: e in events[..i] && e.Arrive? && !e.signal.Chld?
        invariant requested <==> old(requested) || exists e :: e in events[..i] && e.Arrive? && !e.signal.Chld?
        invariant cli.Running? <==> old(cli).Running? && !exists e :: e in events[..i] && e.CliEnds?
        invariant interrupted ==> stopping
      {
        var handled := Deliver(events[i]);
        interrupted := interrupted || handled;
        assert events[..i + 1] == events[..i] + [events[i]];
      }
      assert events[..|events|] == events;
    }

    method Happen() returns (interrupted: bool)
      requires Valid() && future != []
      modifies this
      ensures Valid() && Advanced() && log == old(log) && failed == old(failed)
      ensures future == old(future)[1..] && passed == old(passed) + [old(future)[0]]
      ensures interrupted <==> !blocked && Terminates(old(future)[0])
      ensures interrupted ==> stopping
    {
      hide Sound, InOrder, Whole, Requests, EndsCli;
      var turn := future[0];
      interrupted := DeliverAll(turn.events);
      OneMoreTurn(passed, turn);
      future, passed := future[1..], passed + [turn];
    }

    /** The time between two calls. */
    method Pass()
      requires Valid()
      modifies this
      ensures Valid() && Advanced() && log == old(log) && failed == old(failed)
      ensures |future| == |old(future)| ==> chldPending == old(chldPending)
      ensures |future| + 1 >= |old(future)| && (old(future) != [] ==> |future| + 1 == |old(future)|)
    {
      hide NothingLost, StreamOk, Accounted;
      if future != [] {
        var interrupted := Happen();
      }
    }

    /** A pending signal is handled at once when it is unblocked. */
    method Unblock()
      requires Valid() && blocked && !cli.Reaped?
      modifies this
      ensures Valid() && !blocked && log == old(log) && failed == old(failed) && cli == old(cli)
      ensures requested == old(requested) && future == old(future) && closed == old(closed)
      ensures told == old(told) && heard == old(heard) && passed == old(passed)
    {
      hide Sound, InOrder, Whole, Requests, EndsCli;
      while termPending || intPending
        invariant Valid() && blocked && cli == old(cli) && log == old(log) && failed == old(failed)
        invariant requested == old(requested) && future == old(future) && closed == old(closed)
        invariant told == old(told) && heard == old(heard) && passed == old(passed)
        decreases (if termPending then 1 else 0) + (if intPending then 1 else 0)
      {
        InterruptStartup();
        if termPending { termPending := false; } else { intPending := false; }
      }
      blocked := false;
    }

    /** Whether a call for this part may start now. */
    ghost predicate MayWrite(part: Part)
      reads this
    {
      cli.Running? ==> (Guarded(part) ==> OthersWhole(log, part)) && (Listening(part) ==> Locked(log, texts.locks))
    }

    /** The system calls of one stream call. Each takes what the pipe has room for, fails when
        the CLI is gone, and is given up when a handler ran while nothing was taken. When the
        script of the run is over nothing more happens and the pipe has room. */
    method Push(text: string) returns (n: nat)
      requires Valid() && !cli.Reaped?
      modifies this
      ensures Valid() && Advanced() && log == old(log)
      ensures n <= |text| && (n > 0 ==> old(cli).Running?)
      ensures n == |text| || (failed && (stopping || !cli.Running?))
      ensures Roomy(old(future), |text|) ==> |future| + 1 >= |old(future)|
    {
      hide Sound, InOrder, Whole, Requests, EndsCli;
      n := 0;
      while n < |text|
        invariant Valid() && Advanced() && log == old(log)
        invariant n <= |text| && (n > 0 ==> old(cli).Running?)
        invariant Roomy(old(future), |text|) ==>
                    (n == 0 && future == old(future)) || (n == |text| && |future| + 1 >= |old(future)|)
        decreases |future|, |text| - n
      {
        var room, interrupted := |text|, false;
        if future != [] {
          room := future[0].room;
          interrupted := Happen();
        }
        if !cli.Running? || (room == 0 && interrupted) {
          failed := true;
          break;
        }
        n := Min(n + room, |text|);
      }
    }

    /** If nothing is missing from the stream, this text came on top. */
    twostate predicate Wrote(text: string)
      reads this
    {
      Sound(log) && old(Sound(log))
      && (Whole(log) ==> old(Whole(log)) && Text(log) == old(Text(log)) + text)
    }

    method Put(part: Part, text: string) returns (full: bool)
      requires Valid() && !cli.Reaped? && MayWrite(part)
      modifies this
      ensures Valid() && Advanced() && MayWrite(part) && Wrote(text)
      ensures log != [] && log[|log| - 1].part == part && log[|log| - 1].text == text
      ensures full ==> log == old(log) + [Entry(part, text, |text|)]
      ensures !full ==> !Whole(log) && failed && (stopping || !cli.Running?)
      ensures Roomy(old(future), |text|) ==> |future| + 2 >= |old(future)|
    {
      hide Requests, EndsCli, Roomy;
      hide Sound, InOrder, Whole, OthersWhole, Locked, Text;
      var n := Push(text);
      var e := Entry(part, text, n);
      LogGrows(log, texts.locks, e);
      TextStep(log, e);
      log := log + [e];
      full := n == |text|;
      Pass();
    }

    method SqlString(part: Part, value: string)
      requires Valid() && !cli.Reaped? && MayWrite(part)
      modifies this
      ensures Valid() && Advanced() && MayWrite(part) && Wrote(Quoted(value))
    {
      hide Accounted, Sound, InOrder, Whole, OthersWhole, Locked, Text, NothingLost, StreamOk;
      var full := Put(part, "'");
      for i := 0 to |value|
        invariant Valid() && Advanced() && MayWrite(part) && Wrote("'" + Doubled(value[..i]))
      {
        DoubledStep(value, i);
        if value[i] == '\'' {
          full := Put(part, "'");
        }
        full := Put(part, [value[i]]);
      }
      assert value[..|value|] == value;
      full := Put(part, "'");
    }

    method Setting(name: string, value: string)
      requires Valid() && !cli.Reaped?
      modifies this
      ensures Valid() && Advanced() && Wrote(SettingText(name, value))
      ensures value == "" ==> future == old(future)
    {
      hide Accounted, Sound, InOrder, Whole, OthersWhole, Locked, Text, Quoted, NothingLost, StreamOk;
      if value == "" {
        StreamIsSound();
        assert Text(log) + "" == Text(log);
        return;
      }
      var full := Put(Part.Setting, "set " + name + "=");
      SqlString(Part.Setting, value);
      full := Put(Part.Setting, ";\n");
    }

    method Serve(part: Part, opening: string, address: string, path: string)
      requires Valid() && !cli.Reaped? && MayWrite(part)
      modifies this
      ensures Valid() && Advanced() && Wrote(ServeText(opening, address, path))
    {
      hide Accounted, Sound, InOrder, Whole, OthersWhole, Locked, Text, Quoted, NothingLost, StreamOk;
      if address == "" {
        StreamIsSound();
        assert Text(log) + "" == Text(log);
        return;
      }
      var full := Put(part, opening);
      SqlString(part, address);
      full := Put(part, ",");
      SqlString(part, path);
      full := Put(part, ");\n");
    }

    /** Copies the startup SQL until a termination is requested, a call falls short, or there
        is no more. The result tells whether the last read was made. */
    method CopyStartup(chunks: seq<string>) returns (readToEnd: bool)
      requires Valid() && !cli.Reaped?
      modifies this
      ensures Valid() && Advanced()
      ensures !stopping ==> Wrote(Joined(chunks))
      ensures if readToEnd then !stopping else stopping || !Whole(log)
      ensures chunks == [] ==> future == old(future) && (readToEnd <==> !stopping)
    {
      hide Sound, InOrder, Whole, OthersWhole, Locked, Text, NothingLost, Accounted;
      var i, full := 0, true;
      while i < |chunks| && !stopping && full
        invariant i <= |chunks| && Valid() && Advanced()
        invariant Wrote(Joined(chunks[..i])) && (!full ==> !Whole(log))
        invariant chunks == [] ==> future == old(future) && full
      {
        full := Put(StartupSql, chunks[i]);
        assert chunks[..i + 1][..i] == chunks[..i];
        i := i + 1;
      }
      assert chunks[..|chunks|] == chunks;
      readToEnd := full && !stopping;
    }

    /** While the schedule has been calm, nothing has gone wrong. */
    lemma Undisturbed(n: nat)
      requires Valid() && Calm(schedule, n) && |schedule| <= n + |future|
      ensures !requested && !stopping && cli.Running? && !failed
    {
      hide Sound, InOrder, Whole, Calm, Requests, EndsCli;
      CalmBefore(schedule, passed, n);
    }

    /** What has happened is in the schedule, and is all of it once the schedule is over. */
    lemma Scheduled()
      requires Accounted()
      ensures (requested ==> Requests(schedule)) && (!cli.Running? ==> EndsCli(schedule))
      ensures future == [] ==> (requested <==> Requests(schedule)) && (cli.Running? <==> !EndsCli(schedule))
    {
      assert forall t | t in passed :: t in schedule;
      assert future == [] ==> schedule == passed;
    }

    lemma StreamIsSound()
      requires Valid()
      ensures Sound(log) && (!failed ==> Whole(log))
    {
    }

    /** While no termination was requested, a guarded part may be started. */
    lemma MayStart(part: Part)
      requires Valid() && !stopping
      requires cli.Running? && Listening(part) ==> Locked(log, texts.locks)
      ensures MayWrite(part)
    {
    }

    method LoadAndConfigure(config: Config)
      requires Valid() && !cli.Reaped?
      modifies this
      ensures Valid() && Advanced() && Wrote(texts.load + SettingsText(config))
      ensures Bare(config) && Roomy(old(future), |texts.load|) ==> |future| + 2 >= |old(future)|
    {
      hide Accounted, Roomy, Sound, InOrder, Whole, OthersWhole, Locked, Text, SettingText, NothingLost, StreamOk;
      var full := Put(Load, texts.load);
      Setting("memory_limit", config.memoryLimit);
      Setting("threads", config.threads);
      Setting("temp_directory", config.tempDirectory);
    }

    /** The trusted commands: loading, settings and startup SQL. */
    method Prepare(config: Config) returns (readFailed: bool)
      requires Valid() && !cli.Reaped?
      modifies this
      ensures Valid() && Advanced()
      ensures readFailed ==> ReadFails(config) && !stopping
      ensures ReadFails(config) && !readFailed ==> stopping || failed
      ensures !readFailed && !stopping ==> Wrote(texts.load + SettingsText(config) + StartupText(config))
      ensures OnlyReadError(texts, config, schedule, old(future)) ==> readFailed && |future| + 2 >= |old(future)|
    {
      hide Accounted, Roomy, Sound, InOrder, Whole, OthersWhole, Locked, Text, SettingsText, NothingLost, StreamOk;
      hide Calm, Requests, EndsCli;
      readFailed := false;
      LoadAndConfigure(config);
      if config.startup.Some? {
        var readToEnd := CopyStartup(config.startup.value.chunks);
        if OnlyReadError(texts, config, schedule, old(future)) {
          Undisturbed(|schedule| - |old(future)| + 2);
        }
        if readToEnd && ReadFails(config) {
          return true;
        }
        StreamIsSound();
        if !stopping {
          MayStart(Terminator);
          var full := Put(Terminator, "\n;\n");
        }
      }
    }

    /** The lock settings and, behind them, the listeners. */
    method Open(config: Config)
      requires Valid() && !cli.Reaped?
      modifies this
      ensures Valid() && Advanced()
      ensures !stopping ==> Wrote(texts.locks + ListenersText(texts, config) + texts.ready)
    {
      hide Sound, InOrder, Whole, OthersWhole, Text, ServeText, NothingLost, StreamOk, Accounted;
      if !stopping {
        MayStart(Locks);
        var full := Put(Locks, texts.locks);
        assert full ==> log[|log| - 1] == Entry(Locks, texts.locks, |texts.locks|);
      }
      hide Locked;
      if !stopping {
        MayStart(PgListener);
        Serve(PgListener, texts.pg, config.pg, config.path);
      }
      if !stopping {
        MayStart(FlightListener);
        Serve(FlightListener, texts.flight, config.flight, config.path);
      }
      if !stopping {
        MayStart(Ready);
        var full := Put(Ready, texts.ready);
      }
    }

    /** The stream carries all commands and nothing else. */
    ghost predicate Launched(config: Config)
      reads this
    {
      Sound(log) && Text(log) == Commands(texts, config)
    }

    /** An undisturbed launch writes all commands and nothing else. */
    method Launch(config: Config) returns (readFailed: bool)
      requires Valid() && !cli.Reaped? && log == []
      modifies this
      ensures Valid() && Advanced()
      ensures readFailed ==> ReadFails(config) && !stopping
      ensures ReadFails(config) && !readFailed ==> stopping || failed
      ensures !readFailed && !stopping && !failed ==> Launched(config)
      ensures OnlyReadError(texts, config, schedule, old(future)) ==> readFailed && |future| + 2 >= |old(future)|
    {
      hide OnlyReadError;
      hide Sound, InOrder, Whole, OthersWhole, Locked, Text, SettingsText, StartupText, ListenersText;
      hide NothingLost, StreamOk, Accounted, Roomy;
      EmptyText(log);
      readFailed := Prepare(config);
      if !readFailed {
        Open(config);
        StreamIsSound();
      }
    }

    /** Waits for one of the three signals; `None` if the run's script ends first. */
    method SigWait() returns (signal: Option<Signal>)
      requires Valid() && blocked && !heard && !told && !cli.Reaped?
      modifies this
      ensures NothingLost() && StreamOk() && Accounted() && blocked && !cli.Reaped?
      ensures log == old(log) && failed == old(failed) && stopping == old(stopping) && closed == old(closed)
      ensures |future| <= |old(future)| && (requested ==> heard || termPending || intPending || stopping)
      ensures signal.None? ==> !termPending && !intPending && !chldPending && !heard && !told && future == []
      ensures signal.Some? ==> heard == !signal.value.Chld? && told == signal.value.Chld?
      ensures told && |future| == |old(future)| ==> old(chldPending) && !chldPending
    {
      hide Sound, InOrder, Whole, Text, Requests, EndsCli;
      while !termPending && !intPending && !chldPending && future != []
        invariant Valid() && Advanced() && log == old(log) && failed == old(failed)
        invariant |future| == |old(future)| ==> chldPending == old(chldPending)
        decreases |future|
      {
        var interrupted := Happen();
      }
      if {
        case termPending => termPending, heard := false, true; signal := Some(Term);
        case intPending => intPending, heard := false, true; signal := Some(Signal.Int);
        case chldPending => chldPending, told := false, true; signal := Some(Chld);
        case !termPending && !intPending && !chldPending => signal := None;
      }
    }

    /** Asks for the CLI's end without waiting. */
    method Reap() returns (ended: bool)
      requires Valid() && blocked && !cli.Reaped?
      modifies this`cli, this`told
      ensures Valid() && !told && ended == cli.Reaped? && ended == old(cli).Ended?
      ensures ended ==> cli == Reaped(old(cli).ending)
      ensures !ended ==> cli == old(cli)
    {
      ended := cli.Ended?;
      told := false;
      if ended {
        cli := Reaped(cli.ending);
      }
    }

    /** Waits for the CLI's end; false if the run's script ends first. */
    method ReapAtEnd() returns (ended: bool)
      requires Valid() && blocked
      modifies this
      ensures ended ==> cli.Reaped? && log == old(log) && closed == old(closed)
      ensures !ended ==> cli.Running? && log == old(log) && closed == old(closed)
      ensures interrupts >= old(interrupts) && failed == old(failed)
      ensures Accounted() && (!ended ==> future == []) && (old(requested) ==> requested)
    {
      hide Sound, InOrder, Whole, Text, Requests, EndsCli;
      while cli.Running? && future != []
        invariant Valid() && Advanced() && log == old(log) && failed == old(failed)
        decreases |future|
      {
        var interrupted := Happen();
      }
      ended := !cli.Running?;
      if cli.Ended? {
        cli := Reaped(cli.ending);
      }
    }

    /** A wait for the CLI that a handler interrupts; a CLI that has ended by then is seen. */
    method AwaitCliOrHandler() returns (interrupted: bool)
      requires Valid() && !blocked && lastWait == |passed|
      modifies this
      ensures Valid() && Advanced() && log == old(log) && (interrupted ==> stopping)
      ensures cli.Running? && !interrupted ==> future == []
      ensures old(cli).Running? ==> (cli.Running? && interrupted <==> RequestedFirst(schedule, lastWait))
    {
      hide Sound, InOrder, Whole, Requests, EndsCli, RequestedFirst, Ends, Terminates;
      ghost var to := |passed|;
      interrupted := false;
      assert schedule[lastWait..to] == [];
      NoTurns();
      while cli.Running? && !interrupted && future != []
        invariant Valid() && Advanced() && log == old(log) && (interrupted ==> stopping)
        invariant lastWait <= to <= |passed| <= to + 1 && passed == schedule[..|passed|]
        invariant old(cli).Running? ==> !Requests(schedule[lastWait..to]) && !EndsCli(schedule[..to])
        invariant |passed| == to ==> !interrupted && cli.Running? == old(cli).Running?
        invariant cli.Running? && !interrupted ==> |passed| == to
        invariant |passed| == to + 1 ==> (interrupted <==> Terminates(schedule[to]))
        invariant |passed| == to + 1 && old(cli).Running? ==> (cli.Running? <==> !Ends(schedule[to]))
        decreases |future|
      {
        OneMoreTurn(passed, future[0]);
        interrupted := Happen();
        assert passed == schedule[..|passed|];
        if cli.Running? && !interrupted {
          OneMoreTurn(schedule[lastWait..to], schedule[to]);
          assert schedule[lastWait..to + 1] == schedule[lastWait..to] + [schedule[to]];
          to := |passed|;
        }
      }
      if old(cli).Running? {
        WaitDecided(schedule, lastWait, to);
        if cli.Running? && !interrupted {
          assert to == |schedule|;
        }
      }
    }

    /** After a failed read of the startup SQL the files are closed, and the wait for the CLI
        ends with the CLI or with the next handler: the CLI is left running exactly when a
        request arrives during that wait, before the CLI's end. */
    method GiveUp() returns (ended: bool)
      requires Valid() && !blocked
      modifies this
      ensures closed && log == old(log) && Accounted()
      ensures lastWait == |old(passed)| + if old(future) == [] then 0 else 1
      ensures !ended ==> cli.Running? && future == []
      ensures ended ==> cli.Reaped? || (cli.Running? && requested && stopping && interrupts > 0)
      ensures ended && cli.Running? <==> RequestedFirst(schedule, lastWait)
    {
      hide Sound, InOrder, Whole, Text, Requests, EndsCli, RequestedFirst;
      Pass();
      closed, lastWait := true, |passed|;
      assert schedule[..lastWait] == passed;
      if !cli.Running? {
        EndedBefore(schedule, lastWait);
      }
      var interrupted := AwaitCliOrHandler();
      ended := interrupted || !cli.Running?;
      if cli.Ended? {
        cli := Reaped(cli.ending);
      }
    }

    /** The waiting loop: either the whole run is over, or nothing is left to do but to wait
        for a signal, or a request was heard and passed on to the CLI. */
    method Wait() returns (over: Option<Outcome>)
      requires Valid() && blocked && !stopping && !failed && !heard && !told && !cli.Reaped?
      modifies this
      ensures log == old(log) && failed == old(failed) && StreamOk()
      ensures over.None? ==> Valid() && blocked && !cli.Reaped? && requested && interrupts > 0
      ensures over.Some? ==> over.value.Waiting? || over.value.Done?
      ensures Accounted() && (over == Some(Waiting) ==> cli.Running? && !requested && future == [])
      ensures over.Some? && over.value.Done? ==> cli.Reaped? && over.value.status == ExitStatus(cli.ending)
    {
      hide Sound, InOrder, Whole, Text, Requests, EndsCli;
      while true
        invariant Valid() && blocked && !stopping && !failed && !heard && !cli.Reaped?
        invariant log == old(log)
        decreases |future|, chldPending
      {
        Pass();
        var ended := Reap();
        if ended {
          return Some(Done(ExitStatus(cli.ending)));
        }
        var signal := SigWait();
        if signal.None? {
          return Some(Waiting);
        }
        if !signal.value.Chld? {
          Kill();
          return None;
        }
      }
    }

    /** Behind a launch whose reads went well: the wait, and the shutdown after it. */
    method Attend() returns (outcome: Outcome)
      requires Valid() && !heard && !told && !cli.Reaped?
      modifies this
      ensures Accounted() && StreamSound()
      ensures !outcome.ReadFailed? && (!outcome.Waiting? ==> closed)
      ensures outcome.Waiting? ==> !requested && cli.Running? && future == []
      ensures outcome.Waiting? ==> log == old(log) && !old(failed) && !old(stopping)
      ensures !outcome.Waiting? && !old(failed) && !old(stopping) ==> requested || !cli.Running?
      ensures outcome.Closing? ==> cli.Running? && future == [] && (interrupts > 0 || failed)
      ensures outcome.Closing? ==> log != [] && log[|log| - 1].part.Quit? && log[|log| - 1].text == texts.quit
      ensures outcome.Done? ==> cli.Reaped? && outcome.status == ExitStatus(cli.ending)
    {
      hide Sound, InOrder, Whole, Text, Requests, EndsCli;
      blocked := true;
      if !stopping && !failed {
        var over := Wait();
        if over.Some? {
          closed := over.value.Done?;
          return over.value;
        }
      }
      var full := Put(Quit, texts.quit);
      closed := true;
      var ended := ReapAtEnd();
      return if ended then Done(ExitStatus(cli.ending)) else Closing;
    }

    /** A whole run. It is left waiting exactly when no termination is requested, the CLI goes
        on and the startup SQL can be read, and then behind a complete launch; every other way
        out closes the CLI's input. Only a read error can leave the CLI running, and does so
        exactly when a request interrupts its last wait. */
    method Run(config: Config) returns (outcome: Outcome)
      requires Valid() && blocked && !heard && !told && log == [] && passed == [] && cli.Running?
      modifies this
      ensures Accounted() && StreamSound()
      ensures outcome.Waiting? <==> !Requests(schedule) && !EndsCli(schedule) && !ReadFails(config)
      ensures outcome.Waiting? ==> cli.Running? && Launched(config)
      ensures !outcome.Waiting? ==> closed
      ensures outcome.Closing? ==> cli.Running? && !EndsCli(schedule)
                                   && (interrupts > 0 || failed || ReadFails(config))
      ensures outcome.Closing? && !ReadFails(config) ==>
                log != [] && log[|log| - 1].part.Quit? && log[|log| - 1].text == texts.quit
      ensures outcome.Done? ==> cli.Reaped? && (cli.ending.Exited? ==> outcome.status == cli.ending.code)
                                && (cli.ending.Killed? ==> outcome.status == 128 + cli.ending.signal)
      ensures outcome.ReadFailed? ==> ReadFails(config)
                                      && (cli.Reaped? || (cli.Running? && requested && interrupts > 0))
      ensures outcome.ReadFailed? ==> (cli.Running? <==> RequestedFirst(schedule, lastWait))
      ensures outcome.ReadFailed? && LastWaitInterrupted(texts, config, schedule) ==> cli.Running?
      ensures LastWaitInterrupted(texts, config, schedule) ==> outcome.ReadFailed?
    {
      hide Sound, InOrder, Whole, Text, Commands, Requests, EndsCli, OnlyReadError, RequestedFirst;
      Pass();
      Unblock();
      InterruptedIsOnly(texts, config, schedule, future);
      var readFailed := Launch(config);
      if Calm(schedule, |schedule|) {
        Undisturbed(|schedule|);
      }
      assert schedule[..|schedule|] == schedule;
      if readFailed {
        var ended := GiveUp();
        Scheduled();
        return if ended then ReadFailed else Closing;
      }
      outcome := Attend();
      Scheduled();
    }
  }

  /** A read fails behind the bare launch, and a request follows before the CLI's end. */
  predicate LastWaitInterrupted(texts: Texts, config: Config, schedule: seq<Turn>) {
    && ReadFails(config) && Bare(config) && Roomy(schedule, |texts.load|)
    && Calm(schedule, 4) && RequestedFirst(schedule, 4)
  }

  lemma InterruptedIsOnly(texts: Texts, config: Config, schedule: seq<Turn>, future: seq<Turn>)
    requires |future| <= |schedule| <= |future| + 1 && future == schedule[|schedule| - |future|..]
    ensures LastWaitInterrupted(texts, config, schedule) ==> OnlyReadError(texts, config, schedule, future)
    ensures LastWaitInterrupted(texts, config, schedule) ==>
              forall k | 0 <= k <= 4 :: RequestedFirst(schedule, k)
  {
    if LastWaitInterrupted(texts, config, schedule) {
      var n := |schedule| - |future| + 2;
      CalmBefore(schedule, schedule[..n], 4);
      assert forall t | t in future :: t in schedule;
    }
  }

  /** Four calm turns, and a request in the fifth. */
  function InterruptedSchedule(room: nat): seq<Turn> {
    [Turn([], room), Turn([], room), Turn([], room), Turn([], room), Turn([Arrive(Term)], room)]
  }

  lemma InterruptsLastWait(texts: Texts, config: Config)
    requires ReadFails(config) && Bare(config)
    ensures LastWaitInterrupted(texts, config, InterruptedSchedule(|texts.load|))
  {
    var schedule := InterruptedSchedule(|texts.load|);
    assert schedule[4].events[0] == Arrive(Term);
    assert Terminates(schedule[4]);
    assert forall t | t in schedule :: !Ends(t);
    assert forall t | t in schedule[..4] :: t == Turn([], |texts.load|);
    assert !EndsCli(schedule[..5]);
  }

  /** A read error can leave the CLI running. */
  method ReadErrorCanLeaveCli(texts: Texts) returns (process: Launcher, outcome: Outcome)
    ensures outcome.ReadFailed? && process.cli.Running? && process.requested
  {
    hide LastWaitInterrupted, RequestedFirst, InterruptedSchedule;
    var config := Config("", "", "", Some(Startup([], true)), "", "", "");
    InterruptsLastWait(texts, config);
    process := new Launcher(texts, InterruptedSchedule(|texts.load|));
    outcome := process.Run(config);
  }
}
