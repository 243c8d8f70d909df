/**
 Environment settings the poll cycle consults, and the messages it hands to
 the Telegram alert channel.
 */
module Telegram {

  datatype Option<+T> = None | Some(value: T)

  /** The environment variables read by the cycle; `None` is an unset variable. */
  datatype Config = Config(
    enableBuy: Option<string>,    // ENABLE_BUY
    enableSell: Option<string>,   // ENABLE_SELL
    botToken: Option<string>,     // TELEGRAM_BOT_TOKEN
    chatId: Option<string>)       // TELEGRAM_CHAT_ID

  /** JavaScript truthiness of an environment value: set and not empty. */
  predicate Truthy(v: Option<string>) {
    v.Some? && v.value != ""
  }

  /** `process.env.ENABLE_X === "true"`: only this exact text enables a direction. */
  predicate IsTrue(v: Option<string>) {
    v == Some("true")
  }

  /** Alerts go out only when both the bot token and the chat id are truthy. */
  predicate Configured(cfg: Config) {
    Truthy(cfg.botToken) && Truthy(cfg.chatId)
  }

  /**
   The alerts of the source. The amounts are the raw swap amounts the
   sizing arithmetic produced; their decimal rendering is not modelled.
   */
  datatype Notification =
    | MirroringBuy(eth: int)       // "Mirroring BUY with <eth> ETH"
    | MirroringSell(tokens: int)   // "Mirroring SELL of <tokens> tokens"
    | BotError(message: string)    // "Bot error: <err.message>"

  /** What reaches the channel when `msgs` are handed to `sendTelegram` in order. */
  function Delivered(cfg: Config, msgs: seq<Notification>): seq<Notification>
  {
    if Configured(cfg) then msgs else []
  }
}
