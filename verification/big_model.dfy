/** The Zhipu big-model chat command: the shared text pipeline at the
    configured `point_price`. */
module BigModel {
  import opened Denylist
  import opened Tokenise
  import opened Ledger
  import opened Messages
  import TextCommand

  /** The settings `__init__` loads that the pipeline reads. */
  datatype Config = Config(commandFormatMenu: string, pointPrice: int, admins: set<UserId>, sensitiveWords: seq<string>)

  function SettingsOf(c: Config): TextCommand.Settings {
    TextCommand.Settings(c.commandFormatMenu, c.sensitiveWords, c.admins)
  }

  /** `big_model.run`, the provider's answer given as `outcome`. */
  function Run(c: Config, db: Db, req: Request, outcome: Outcome): (r: RunResult)
    // the sender loses `point_price` exactly when they pay and get an answer;
    // nobody else's balance moves
    ensures GetPoints(r.db, req.sender) == GetPoints(db, req.sender) -
      (if TextCommand.Admitted(SettingsOf(c), c.pointPrice, db, req.sender, req.content)
          && !TextCommand.Privileged(SettingsOf(c), db, req.sender) && outcome.Ok?
       then c.pointPrice else 0)
    ensures forall v :: v != req.sender ==> GetPoints(r.db, v) == GetPoints(db, v)
    // a sensitive word in the argument is what the sender is told, whatever else is wrong
    ensures Flagged(c.sensitiveWords, Argument(req.content)) ==> r.actions == [Say(Rejected(SensitiveContent))]
    // a clean argument from a sender who cannot pay: one error reply naming the price
    ensures !Flagged(c.sensitiveWords, Argument(req.content)) && GetWhitelist(db, req.sender) != 1
            && req.sender !in c.admins && GetPoints(db, req.sender) < c.pointPrice ==>
      r.actions == [Say(Rejected(InsufficientPoints(c.pointPrice)))] && r.adjustments == []
  {
    TextCommand.Run(SettingsOf(c), c.pointPrice, db, req, outcome)
  }
}
