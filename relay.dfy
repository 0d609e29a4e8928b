/**
 * The Tasmota relay a door is wired to, as the verification handlers use it:
 * `toggleDoorLock` reads the power state and sets the opposite one. The two
 * HTTP round trips are parameters: what the status read answered (None when
 * it threw) and whether the set command succeeded.
 */
module Tasmota {
  import opened Model

  /** One `Power On` / `Power Off` command sent to a device. */
  datatype Command = Command(ip: string, apiKey: string, on: bool)

  /** What the relay answered to the network's status read and set command. */
  datatype RelayAnswer = RelayAnswer(reading: ReadAnswer, setOk: bool)
  datatype ReadAnswer = ReadFailed | PowerIs(on: bool)

  /** The value `toggleDoorLock` resolves to: the device's reply, or the swallowed set error. */
  datatype SwitchResult = Switched(on: bool) | SwitchError

  /** The relay side of the system: every power command sent, in order. */
  class Relay {
    var commands: seq<Command>

    constructor ()
      ensures commands == []
    {
      commands := [];
    }

    /**
     * `toggleDoorLock(door)`: a failed status read propagates (None, nothing
     * sent); otherwise the opposite state is sent, and a failed set is
     * swallowed into `SwitchError`.
     */
    method Toggle(ip: string, apiKey: string, answer: RelayAnswer) returns (r: Option<SwitchResult>)
      modifies this
      ensures commands == old(commands) + ToggleCommands(ip, apiKey, answer)
      ensures r == ToggleResult(answer)
    {
      if answer.reading.ReadFailed? {
        return None;
      }
      var target := !answer.reading.on;
      commands := commands + [Command(ip, apiKey, target)];
      r := Some(if answer.setOk then Switched(target) else SwitchError);
    }
  }

  /** What a toggle resolves to: None when the status read threw. */
  function ToggleResult(answer: RelayAnswer): (r: Option<SwitchResult>)
    ensures r.None? <==> answer.reading.ReadFailed?
    ensures r == Some(Switched(true)) ==> answer.reading == PowerIs(false) && answer.setOk
    ensures r == Some(Switched(false)) ==> answer.reading == PowerIs(true) && answer.setOk
    ensures answer.reading.PowerIs? && answer.setOk ==> r == Some(Switched(!answer.reading.on))
    ensures answer.reading.PowerIs? && !answer.setOk ==> r == Some(SwitchError)
  {
    match answer.reading
    case ReadFailed => None
    case PowerIs(on) => Some(if answer.setOk then Switched(!on) else SwitchError)
  }

  /** The commands a toggle sends, as a value: none when the read fails, else the opposite state. */
  function ToggleCommands(ip: string, apiKey: string, answer: RelayAnswer): (sent: seq<Command>)
    ensures |sent| <= 1
    ensures |sent| == 1 <==> answer.reading.PowerIs?
    ensures |sent| == 1 ==> sent[0].on != answer.reading.on
  {
    if answer.reading.ReadFailed? then [] else [Command(ip, apiKey, !answer.reading.on)]
  }
}
