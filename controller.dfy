/**
 The TV controller: the CEC command executor and the two device operations
 built on it. The adapter subprocess and the clock are a `Host` object: a
 fixed script says how the k-th launched process ends, and every launch and
 every sleep is appended to an event trace.
 */
module Controller {
  import opened Cec

  /** One observable step of the controller. */
  datatype Event =
    | Launched(line: string, outcome: Outcome)  // a subprocess ran this shell line and ended so
    | Slept(seconds: nat)                       // the controller blocked for this long

  /** The launches in a trace, in order. */
  function Launches(events: seq<Event>): (r: seq<Event>)
    ensures |r| <= |events|
    ensures forall e :: e in r ==> e.Launched? && e in events
  {
    if events == [] then []
    else if events[|events| - 1].Launched?
    then Launches(events[..|events| - 1]) + [events[|events| - 1]]
    else Launches(events[..|events| - 1])
  }

  /** Adding one event to a trace adds it to the launches exactly when it is one. */
  lemma LaunchesSnoc(events: seq<Event>, e: Event)
    ensures Launches(events + [e]) == if e.Launched? then Launches(events) + [e] else Launches(events)
  {
  }

  /** The subprocess and clock environment of the controller. */
  class Host {
    /** How the k-th process launched (counting from 0) ends. */
    const script: nat -> Outcome
    /** How many processes have been launched so far. */
    var launched: nat
    /** Everything that happened, oldest first. */
    var events: seq<Event>

    /** The outcomes are handed out in order: the k-th launch in the trace got
        the k-th scripted outcome, and nothing was launched beyond the trace. */
    ghost predicate Valid()
      reads this
    {
      && |Launches(events)| == launched
      && forall k :: 0 <= k < launched ==> Launches(events)[k].outcome == script(k)
    }

    constructor (script: nat -> Outcome)
      ensures Valid()
      ensures this.script == script && launched == 0 && events == []
    {
      this.script := script;
      launched := 0;
      events := [];
    }

    /** Runs one shell line as a subprocess and reports how it ended. */
    method Run(line: string) returns (outcome: Outcome)
      requires Valid()
      modifies this
      ensures Valid()
      ensures outcome == script(old(launched))
      ensures launched == old(launched) + 1
      ensures events == old(events) + [Launched(line, outcome)]
    {
      outcome := script(launched);
      LaunchesSnoc(events, Launched(line, outcome));
      events := events + [Launched(line, outcome)];
      launched := launched + 1;
    }

    /** Blocks for `seconds`; launches nothing. */
    method Sleep(seconds: nat)
      requires Valid()
      modifies this
      ensures Valid()
      ensures launched == old(launched)
      ensures events == old(events) + [Slept(seconds)]
    {
      LaunchesSnoc(events, Slept(seconds));
      events := events + [Slept(seconds)];
    }
  }

  /** The HDMI-CEC frame sent after power-on to select the input; it is not interpreted here. */
  const InputSwitchFrame: string := "tx 1F:82:10:00"

  /** The time, in seconds, the TV is given to finish powering on. */
  const SettleSeconds: nat := 15

  class TVController {
    /** The logical address of the TV on the bus. */
    const deviceId: string
    /** The adapter program the shell line pipes into. */
    const cecClient: string

    constructor ()
      ensures deviceId == "0" && cecClient == "cec-client"
    {
      deviceId := "0";
      cecClient := "cec-client";
    }

    /** Runs one CEC command through the adapter; true exactly when the
        process exits with status 0, false on any other outcome. */
    method ExecuteCecCommand(host: Host, command: string) returns (ok: bool)
      requires host.Valid()
      modifies host
      ensures host.Valid()
      ensures host.launched == old(host.launched) + 1
      ensures host.events == old(host.events) + [Launched(ShellLine(cecClient, command), host.script(old(host.launched)))]
      ensures ok <==> host.script(old(host.launched)) == Exited(0)
    {
      var line := ShellLine(cecClient, command);
      var outcome := host.Run(line);
      ok := Succeeded(outcome);
    }

    /** Powers the TV on and then switches its input. Stops after the first
        command when that fails; otherwise waits for the TV to settle, always
        sends the input-switch frame, and reports that frame's result. */
    method TurnOnTv(host: Host) returns (ok: bool)
      requires host.Valid()
      modifies host
      ensures host.Valid()
      ensures var k := old(host.launched);
              var powerOn := Launched(ShellLine(cecClient, "on " + deviceId), host.script(k));
              if Succeeded(host.script(k)) then
                && host.launched == k + 2
                && host.events == old(host.events) + [powerOn, Slept(SettleSeconds),
                                                      Launched(ShellLine(cecClient, InputSwitchFrame), host.script(k + 1))]
                && ok == Succeeded(host.script(k + 1))
              else
                && host.launched == k + 1
                && host.events == old(host.events) + [powerOn]
                && !ok
    {
      var powered := ExecuteCecCommand(host, "on " + deviceId);
      if !powered {
        return false;
      }
      host.Sleep(SettleSeconds);
      var switched := ExecuteCecCommand(host, InputSwitchFrame);
      if !switched {
        return false;
      }
      return true;
    }

    /** Puts the TV in standby with one command and reports its result unchanged. */
    method TurnOffTv(host: Host) returns (ok: bool)
      requires host.Valid()
      modifies host
      ensures host.Valid()
      ensures host.launched == old(host.launched) + 1
      ensures host.events == old(host.events) + [Launched(ShellLine(cecClient, "standby " + deviceId), host.script(old(host.launched)))]
      ensures ok == Succeeded(host.script(old(host.launched)))
    {
      ok := ExecuteCecCommand(host, "standby " + deviceId);
      if !ok {
        return false;
      }
      return true;
    }
  }
}
