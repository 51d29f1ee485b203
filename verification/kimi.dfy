/** The Kimi completion command: the shared text pipeline at the
    configured `kimi_point_price`. */
module Kimi {
  import opened Ledger
  import opened Messages
  import TextCommand

  /** The settings `__init__` loads that the pipeline reads. */
  datatype Config = Config(commandFormatMenu: string, kimiPointPrice: int, admins: set<UserId>, sensitiveWords: seq<string>)

  function SettingsOf(c: Config): TextCommand.Settings {
    TextCommand.Settings(c.commandFormatMenu, c.sensitiveWords, c.admins)
  }

  /** `kimi.run`, the provider's answer given as `outcome`. */
  function Run(c: Config, db: Db, req: Request, outcome: Outcome): (r: RunResult)
    // a paying sender who gets an answer is debited `kimi_point_price` once,
    // and the reply shows the balance after that debit
    ensures TextCommand.Admitted(SettingsOf(c), c.kimiPointPrice, db, req.sender, req.content)
            && GetWhitelist(db, req.sender) != 1 && req.sender !in c.admins && outcome.Ok? ==>
      && r.adjustments == [-c.kimiPointPrice]
      && r.actions == [Say(Received), Say(PaidAnswer(c.kimiPointPrice, GetPoints(db, req.sender) - c.kimiPointPrice, outcome.text))]
    // when the call fails the same amount is put back
    ensures TextCommand.Admitted(SettingsOf(c), c.kimiPointPrice, db, req.sender, req.content)
            && GetWhitelist(db, req.sender) != 1 && req.sender !in c.admins && outcome.Err? ==>
      && r.adjustments == [-c.kimiPointPrice, c.kimiPointPrice]
      && GetPoints(r.db, req.sender) == GetPoints(db, req.sender)
    // whitelist value 1 or an admin: no ledger call at all
    ensures GetWhitelist(db, req.sender) == 1 || req.sender in c.admins ==>
      r.adjustments == [] && r.db == db
  {
    TextCommand.Run(SettingsOf(c), c.kimiPointPrice, db, req, outcome)
  }
}
