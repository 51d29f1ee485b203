# XYBot credit-gated commands in Dafny

This project models the command pipeline that XYBot's paid AI plugins run for each chat message. That pipeline is the `run` method of `big_model`, `qwen`, `kimi` and `flux`. It covers five steps:

- split the message into a command word and an argument;
- decide whether the command is refused, and with which error;
- screen the argument against the sensitive-word list;
- move the sender's points around the provider call;
- address each reply to the sender when the chat is a group.

The model is purely functional. The user database is a value `Ledger.Db`, a map from user to points, whitelist value and nickname. It changes only through `AddPoints`, the model of `add_points`. A `run` is a function from the database, the request and the provider's outcome to a `RunResult`. That result holds:

- the database afterwards;
- the `add_points` deltas made on the sender, in order;
- the replies and images sent, in order;
- the prompt the provider was called with, if it was called.

The provider call itself is the parameter `Outcome = Ok(text) | Err(diag)`. Replies are tagged kinds (`Messages.Reply`). Their wording is the parameter `render` of `Messages.Deliver`.

Modules:

- `Tokenise`: `re.split(" |\u2005", …)` and `" ".join(tokens[1:])`.
- `Whitespace`: Python's `str.isspace` and `str.strip`.
- `Denylist`: `sensitive_word_check`.
- `Ledger`: the database reads and `add_points`.
- `Messages`: requests, outcomes, reply kinds, and `send_friend_or_group`.
- `TextCommand`: the pipeline shared by the three text plugins.
- `BigModel`, `Qwen`, `Kimi`: the text plugins. `Qwen` fixes the price at 1.
- `Flux`: the image plugin. Its admission chain and charging order are different.

Two behaviours of the text plugins that the model keeps as the code has them:

- Error precedence. In the text plugins the balance check comes first and the token count is only an `elif`, so a sender short of points gets the points error even when the argument is missing. The sensitive-word check then overwrites both. The net order is sensitive word, then points, then usage (`TextCommand.Admission`).
- Usage check. The text plugins only test `len(tokens) < 2`, so `"ask "` is admitted, and the provider gets the empty prompt at full price (`TextCommand.BlankArgumentIsCharged`). Only `flux` also checks the stripped prompt.

## Model

| member | source | states |
|---|---|---|
| Tokenise.Split | plugins/command/big_model.py:45 | splitting on each space or U+2005 gives one token more than there are separators, and no token holds a separator |
| Tokenise.FewTokensIffNoSeparator | plugins/command/big_model.py:54-57 | fewer than two tokens exactly when the message has no separator, and then the argument is empty |
| Tokenise.JoinSplit | plugins/command/big_model.py:45-57 | joining the tokens with one space gives back the message with every U+2005 turned into an ASCII space |
| Tokenise.ArgumentAfterFirstSeparator | plugins/command/big_model.py:57 | the argument is the text after the first separator, with every U+2005 turned into an ASCII space (same code at qwen.py:56, kimi.py:54, flux.py:65) |
| Whitespace.TrimStart | plugins/command/flux.py:76 | leading strip: a suffix of the text, everything dropped is whitespace, the rest does not start with whitespace |
| Whitespace.TrimEnd | plugins/command/flux.py:76 | trailing strip: a prefix of the text, everything dropped is whitespace, the rest does not end with whitespace |
| Whitespace.StripEmptyIffBlank | plugins/command/flux.py:76 | `prompt.strip()` is empty exactly when the prompt is made only of whitespace |
| Denylist.Occurs | plugins/command/big_model.py:111 | `word in message` holds exactly when the word occurs at some position of the message |
| Denylist.SensitiveWordCheck | plugins/command/big_model.py:109-113 | true exactly when no configured word is a literal substring of the message (same code at qwen.py:106-110, kimi.py:100-104, flux.py:130-134) |
| Denylist.EmptyWordRefusesAll | plugins/command/big_model.py:109-113 | an empty entry in the word list refuses every message |
| Denylist.FlaggedGrows | plugins/command/big_model.py:109-113 | a message that contains a refused message is refused too |
| Ledger.AddPoints | plugins/command/big_model.py:74 | `add_points` moves only the named user's balance, by exactly the delta |
| Ledger.ApplyAll | plugins/command/big_model.py:74-80 | a sequence of `add_points` calls moves the user's balance by their sum and nobody else's |
| Ledger.DebitThenRefund | plugins/command/big_model.py:74-80 | a debit followed by a refund of the same amount leaves every balance unchanged |
| Messages.SendFriendOrGroup | plugins/command/big_model.py:115-123 | in a group the text is `@`, the nickname the database holds for the sender (`get_nickname(recv.sender)`), a newline and the reply, and the mention target is the sender; in a private chat the reply goes out unchanged with no mention; both go to the originating chat (same code at qwen.py:112-120, kimi.py:106-113, flux.py:121-128) |
| Messages.UnmentionRecovers | plugins/command/big_model.py:117 | the reply can be read back from the group text by removing the line that names the sender |
| Messages.Deliver | plugins/command/flux.py:83-95 | every reply goes through `send_friend_or_group`, in order, and in a group names the sender by their database nickname; an image goes to the chat with no mention |
| TextCommand.Admission | plugins/command/big_model.py:49-59 | a sensitive word in the argument gives the sensitive-word error whatever the points or usage; otherwise a sender who is not privileged and cannot pay gets the points error; otherwise a message without a separator gets the usage error; otherwise the command is admitted |
| TextCommand.Run | plugins/command/big_model.py:44-83 | the balance moves only by the logged `add_points` calls. These are none, one debit of the price, or that debit and an equal refund. The net charge is the price exactly when a paying sender gets an answer. A refusal sends one error reply and calls neither the ledger nor the provider. An admitted command is acknowledged first and answered once, and the provider gets the argument. Privileged senders are never charged and get the answer marked free or the error without refund wording. A paid answer logs exactly one debit of the price, even at price 0, and reports the balance after it. A paid failure logs the debit and its equal refund and says the points were given back |
| TextCommand.AdmittedCanPay | plugins/command/big_model.py:61-73 | after admission either the privileged branch or the paid branch runs, never neither |
| TextCommand.FailureCostsNothing | plugins/command/big_model.py:65-80 | a failed provider call leaves every balance unchanged, for any sender |
| TextCommand.BlankArgumentIsCharged | plugins/command/big_model.py:54-77 | `"ask "` passes the usage check; a paying sender gets the empty prompt sent and is charged the price on success |
| TextCommand.PaidDownToZero | plugins/command/big_model.py:73-77 | price 5, balance 5, answer received: the balance becomes 0 and the reply reports 0 remaining |
| BigModel.Run | plugins/command/big_model.py:44-83 | the sender's balance drops by `point_price` exactly when they pay and get an answer, and nobody else's moves. A sensitive word is always the one error sent. A clean argument from a sender who cannot pay gets one points error naming the price and no ledger call |
| Qwen.Run | plugins/command/qwen.py:43-82 | the balance gate is the constant 1. A paid answer leaves one point less and reports it. A paid failure logs exactly `-1` then `+1`, so the net change is 0. Privileged senders' balances are untouched |
| Kimi.Run | plugins/command/kimi.py:44-80 | a paying sender with an answer is debited `kimi_point_price` once, and the reply shows the post-debit balance. A failed call puts the same amount back. Whitelist value 1 or an admin means no ledger call |
| Flux.Admission | plugins/command/flux.py:62-77 | the first failing check is reported, in the order usage, points (only for a sender who is not an admin and has whitelist value 0), sensitive word, blank prompt after strip; admitted exactly when all four pass |
| Flux.Run | plugins/command/flux.py:61-95 | the balance moves only by the logged calls, at most one debit of `price`. The debit happens exactly when a non-exempt sender's image was made, and leaves a balance of at least 0. A refusal sends one error reply and neither generates nor charges. A failed generation sends "generating" and the failure, and charges nothing. A made image gives exactly "generating", then the charge notice for a non-exempt sender only, then the image |
| Flux.BlankPromptRefused | plugins/command/flux.py:76-81 | once the sender can pay or is exempt and the prompt holds no sensitive word, a prompt that is empty or whitespace after the first separator is refused with the help text and the balance is untouched |

## Left out

- Configuration loading in every `__init__` is not modelled: YAML files, environment variables, `BotDatabase()`. Configuration is an immutable `Config` value per plugin.
- The vendor HTTP calls are not modelled: `big_model.big_model`, `qwen.qwen`, `kimi.kimi`. Each is the abstract `Outcome` parameter. Their JSON handling is network client code.
- `flux.generate_image` is not modelled. It uses the DashScope SDK, a download and file writes. Two of its paths therefore fall outside the model. If the vendor returns no results, it returns `None`, and `run` would charge the sender and send `None` as the image. An exception it raises would escape `run` with no reply.
- The user database (`utils.database`) is not part of this model. The model assumes that a user with no row reads as 0 points, whitelist value 0 and an empty nickname. If the real database returned `None` for the whitelist instead, `flux` (flux.py:71, 91, which test `get_whitelist(u) == 0`) would treat such a user as exempt, and the model does not cover that.
- The reply wording is not modelled: the exact Chinese text, model version strings and emoji. Replies are kinds. The failure reply of `big_model` and `qwen` prints the whole result tuple, while `kimi` prints only the diagnostic; both are `Failed` / `RefundedFailure` carrying the diagnostic.
- `run` first replaces `recv.content` with the token list (big_model.py:45, qwen.py:44, kimi.py:45, flux.py:62), so the caller's message object holds a list afterwards. This side effect is not modelled: `Messages.Request` is a value, it keeps the text, and `RunResult` does not record the change.
- Logging is not modelled. Sending is the `actions` sequence and `Deliver`.
- async/await and concurrent runs are not modelled. The model assumes no other run touches the sender's balance between the reads and the `add_points` calls of one `run`.
- Float parameters such as temperature and guidance, plus max tokens, size and seed, are not modelled. They only pass through to the vendors.
- The code has no ledger-failure handling and no call timeouts, so the model has neither.
