/** The values the dashboard receives from the backend, shared by every other module.

    A decoded status frame is kept as it arrived: its optional `type`
    discriminator, and the `gpus` and `services` lists, each of which may be
    missing from the frame. */
module Telemetry {

  datatype Option<+T> = None | Some(value: T) {
    function GetOr(default: T): T {
      match this
      case Some(v) => v
      case None => default
    }
  }

  /** One accelerator as the backend reports it. */
  datatype Gpu = Gpu(
    index: int,
    name: string,
    temp: real,
    util: real,
    memoryUsed: real,
    memoryTotal: real)

  /** One running workload; `gpus` lists the device indices it occupies. */
  datatype Service = Service(
    port: int,
    model: Option<string>,
    kind: Option<string>,
    health: Option<string>,
    gpus: Option<seq<int>>,
    maxTokens: Option<int>)

  /** A decoded frame: the whole latest status, replacing any earlier one. */
  datatype Snapshot = Snapshot(
    kind: Option<string>,
    gpus: Option<seq<Gpu>>,
    services: Option<seq<Service>>)

  /** The three values of the connection indicator. */
  datatype ConnState = Connecting | Connected | Disconnected
}
