/** Shared vocabulary of the controller (background.js) and the control panel
    (popup.js): the configuration record, tones, the messages the controller
    broadcasts and the status it answers with. Times are integer milliseconds
    since the epoch; intervals are whole minutes. */
module Schedule {

  datatype Option<+T> = None | Some(value: T)

  /** Milliseconds in one minute: both files write `interval * 60 * 1000`. */
  const MsPerMinute: int := 60000

  /** The configuration record {frequency, duration, interval}. */
  datatype Config = Config(frequency: int, duration: int, interval: int)

  /** The initial value of the module-level `config` in both files. */
  const DefaultConfig: Config := Config(20000, 200, 4)

  /** The schedule period of a configuration, in milliseconds. */
  function IntervalMs(c: Config): int {
    c.interval * MsPerMinute
  }

  /** One PLAY_TONE request sent to the tone renderer. */
  datatype Tone = Tone(frequency: int, duration: int)

  /** The audible test tone of PLAY_TEST: 1 kHz for one second. */
  const TestTone: Tone := Tone(1000, 1000)

  /** The tone a configuration asks for. */
  function ToneOf(c: Config): Tone {
    Tone(c.frequency, c.duration)
  }

  /** The events the controller broadcasts to the panel. */
  datatype Notice =
    | StatusChanged(isRunning: bool, nextPingTime: Option<int>)
    | TonePlayed(lastPingTime: int)

  /** The answer to GET_STATUS. */
  datatype Status = Status(isRunning: bool, config: Config, nextPing: Option<int>, lastPing: int)

  /** JavaScript truthiness of a number that may be null: null and 0 are falsy. */
  predicate Truthy(t: Option<int>) {
    t.Some? && t.value != 0
  }
}
