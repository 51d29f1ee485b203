/** The Qwen chat command: the shared text pipeline with the price written
    into the code as 1 point; its configuration has no price. */
module Qwen {
  import opened Denylist
  import opened Tokenise
  import opened Ledger
  import opened Messages
  import TextCommand

  /** The settings `__init__` loads that the pipeline reads. */
  datatype Config = Config(commandFormatMenu: string, admins: set<UserId>, sensitiveWords: seq<string>)

  /** The fixed price of one question. */
  const Price: int := 1

  function SettingsOf(c: Config): TextCommand.Settings {
    TextCommand.Settings(c.commandFormatMenu, c.sensitiveWords, c.admins)
  }

  /** `qwen.run`, the provider's answer given as `outcome`. */
  function Run(c: Config, db: Db, req: Request, outcome: Outcome): (r: RunResult)
    // the balance gate is "at least 1 point", whatever is configured
    ensures !Flagged(c.sensitiveWords, Argument(req.content)) && GetWhitelist(db, req.sender) != 1
            && req.sender !in c.admins && GetPoints(db, req.sender) < 1 ==>
      r.actions == [Say(Rejected(InsufficientPoints(1)))] && r.db == db
    // a paid answer leaves one point less and says so
    ensures TextCommand.Admitted(SettingsOf(c), Price, db, req.sender, req.content)
            && GetWhitelist(db, req.sender) != 1 && req.sender !in c.admins && outcome.Ok? ==>
      && GetPoints(r.db, req.sender) == GetPoints(db, req.sender) - 1
      && r.actions == [Say(Received), Say(PaidAnswer(1, GetPoints(db, req.sender) - 1, outcome.text))]
    // a failed call is refunded with +1, so the net change is 0
    ensures outcome.Err? ==> GetPoints(r.db, req.sender) == GetPoints(db, req.sender)
    ensures TextCommand.Admitted(SettingsOf(c), Price, db, req.sender, req.content)
            && GetWhitelist(db, req.sender) != 1 && req.sender !in c.admins && outcome.Err? ==>
      r.adjustments == [-1, 1]
    // whitelist value 1 or an admin: the balance is left alone
    ensures GetWhitelist(db, req.sender) == 1 || req.sender in c.admins ==> r.db == db
  {
    TextCommand.Run(SettingsOf(c), Price, db, req, outcome)
  }
}
