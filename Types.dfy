/** The configuration data the presence daemon reads from config.json, and the
    small wrapper types the rest of the model shares. */
module Types {

  /** Rust's `u64`: the type of `duration_seconds`. Zero is a legal value. */
  newtype u64 = x: int | 0 <= x < 0x1_0000_0000_0000_0000

  datatype Option<+T> = None | Some(value: T)

  /** One link button shown under the presence (`ButtonConfig`). */
  datatype ButtonConfig = ButtonConfig(text: string, url: string)

  /** One entry of the rotation (`ActivityConfig`). */
  datatype ActivityConfig = ActivityConfig(
    name: string,
    details: string,
    state: string,
    largeImage: Option<string>,
    largeText: Option<string>,
    smallImage: Option<string>,
    smallText: Option<string>,
    durationSeconds: u64,
    buttons: Option<seq<ButtonConfig>>)

  /** The `discord` object of the config file: application id and activity list. */
  datatype DiscordConfig = DiscordConfig(appId: string, activities: seq<ActivityConfig>)

  /** What `load_config` hands back: a parsed file, or the message of the
      directory, read or parse error that stopped it. */
  datatype LoadResult = Loaded(config: DiscordConfig) | LoadFailed(message: string)
}
