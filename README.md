# TagAll — a Dafny model

This project models `tagall.py`, a userbot plugin for Telegram. Its `tagall` command mentions every member of a chat:

- It builds one invisible HTML mention per member, `<a href="tg://user?id=ID">` followed by a soft hyphen and `</a>`.
- It groups the mentions five per message and prefixes each message with the HTML-escaped command arguments, or with the configured default message when there are none.
- It sends the messages one by one, from the user's own account or through the inline bot, pausing between them.
- It can delete each message right after sending it.
- It shows a status form with a "Cancel" button. The button's callback (`cancel`) stops a shared `StopEvent`, and the loop leaves after the current pause once the event is stopped.
- In bot mode it first invites the inline bot to the chat. The chat id is rewritten as `int(f"-100{id}")`. If the invite fails, the command answers with an error and ends.

The project has six modules:

- `Wrappers`: `Option`.
- `Decimal`: `str()` and `int()` on integers, as far as the command uses them.
- `Chunking`: `utils.chunks`.
- `Render`: the mention fragment, `"\xad".join`, the message text, and the bot-side chat id.
- `TagAll`: the command itself. It contains:
  - a functional specification `TagAllRun` of one invocation;
  - the class `StopEvent`;
  - the class `TagAllMod`, whose methods are the command and its steps. They append every call into the chat service to a `trace` field and are proved to leave exactly the trace `TagAllRun` describes.
- `TagAllProperties`: lemmas about `TagAllRun`.

The chat service and the user are not part of the model. What they answer is an input, a `World` value:

- the member ids in enumeration order;
- the chat id;
- whether inviting the bot succeeds;
- whether deleting the message of batch k succeeds;
- the HTML escaper;
- the batch during whose pause the cancel button is first pressed, if any. When there is at least one batch, a press before the first batch acts like a press during batch 0, since the flag is only read after a pause. With no members there is no batch, and such a press is not modelled (see "## Left out").

The command's calls to the service are `Effect` values in the trace. How the coroutine ends is an `Outcome`: it returns, raises `ValueError`, or raises `NameError` (at the final cleanup this is `UnboundLocalError`, a subclass of `NameError`).

### Behaviour as written

The model follows the code in two places where it does not do what its configuration documentation and form text suggest.

- **The watcher edits nothing.** The watcher task `_task` starts with `if not self.config["silent"]: return` (`tagall.py:164`).
  - With a status form, it returns at once, so the form is never edited to "cancelled".
  - In silent mode there is no form. The watcher would fail with `NameError` on the unbound `cancel` once the event is stopped, but with no button the event is never stopped, so the watcher only polls until it is cancelled.
  - `WatcherHasNoEffect` proves that the watcher leaves nothing in the trace of any run.
- **Silent mode raises `UnboundLocalError`.** In silent mode `cancel` is never assigned. So the final `await cancel.delete()` (`tagall.py:180`) raises `UnboundLocalError`, which is a `NameError`, after all batches are sent. `cancel` is a local of `tagall` that the watcher closes over.
  - The model's outcome for such a run is `RaisedNameError`.
  - `SilentRunRaisesAtCleanup` proves this, and that such a run never shows or deletes a form.

A negative chat id in bot mode makes the literal `-100-…`, which `int()` rejects. The model's outcome for that run is `RaisedValueError`, after the bot was invited and bound and before anything is sent.

## Model

| member | source | states |
|---|---|---|
| Decimal.NatToStringRoundTrip | tagall.py:144 | reading back the decimal digits of a natural number gives that number |
| Decimal.IntToStringRoundTrip | tagall.py:144 | `int(str(x)) == x` for every integer, the negative ones included |
| Decimal.NatToStringLength | tagall.py:125 | a number written with k digits is below 10^k, and at least 10^(k-1) when k > 1 (no leading zeros) |
| Decimal.DigitsValueAppend | tagall.py:125 | the value of a digit string a+b is value(a) * 10^len(b) + value(b) |
| Chunking.Chunks | tagall.py:142-148 | every group has exactly n items except the last, which has 1 to n; there are no groups exactly when the list is empty |
| Chunking.ChunksFlatten | tagall.py:142-148 | the groups laid end to end give back the list, in order |
| Chunking.ChunksCount | tagall.py:142-148 | there are ceil(len / n) groups |
| Render.FragmentRoundTrip | tagall.py:144 | a mention fragment names exactly the member id it was built from |
| Render.FragmentsIdentify | tagall.py:143-146 | the i-th fragment of the list names the i-th participant |
| Render.JoinContains | tagall.py:155 | every part appears unaltered at its offset in `sep.join(parts)` |
| Render.JoinSeparator | tagall.py:155 | between consecutive parts of `sep.join(parts)` there is exactly the separator, and the next part starts right after it |
| Render.JoinLength | tagall.py:155 | `sep.join(parts)` ends where its last part ends, so the string is exactly the parts and the separators between them |
| Render.MessageTextStartsWithCaption | tagall.py:155 | a batch text starts with the escaped arguments, or with the escaped default message when the arguments are empty |
| Render.MessageTextMentionsEach | tagall.py:155 | a batch text carries every mention of its batch, unaltered, at the offset after the caption where the join puts it |
| Render.BotChatIdOfNonNegative | tagall.py:125 | for a chat id x >= 0 with k digits, `int(f"-100{x}")` is -(100 * 10^k + x) |
| Render.BotChatIdOfNegative | tagall.py:125 | for a negative chat id, `int(f"-100{x}")` raises (no value) |
| TagAll.StopEvent.constructor | tagall.py:29-30 | a new event is running (state true) |
| TagAll.StopEvent.Stop | tagall.py:32-33 | after stop the state is false, and stopping a stopped event changes nothing |
| TagAll.TagAllMod.constructor | tagall.py:69-100 | the module holds the given configuration and strings and has made no call yet |
| TagAll.TagAllMod.Cancel | tagall.py:102-104 | the event is stopped, and the press is answered with the "cancel" string, once |
| TagAll.TagAllMod.Watch | tagall.py:162-172 | one poll of the watcher: nothing unless silent; in silent mode, if the event is stopped, the task fails with NameError on the unbound `cancel` (no form to edit), otherwise nothing |
| TagAll.TagAllMod.DeliverBatch | tagall.py:149-177 | one loop pass sends batch k's text to the chosen chat through the chosen identity, deletes it when configured, pauses for the timeout; the event ends stopped exactly when the button was pressed during this pause |
| TagAll.TagAllMod.SendBatches | tagall.py:142-178 | the loop makes exactly BatchesRun passes: all batches, or up to and including the batch whose pause saw the press; the event ends stopped exactly when such a press happened |
| TagAll.TagAllMod.ResolveDestination | tagall.py:113-127 | the bot-mode block: invite, then answer the error and return on failure, else bind the bot and remap the chat id (raising on a negative id); client mode keeps the chat id |
| TagAll.TagAllMod.Deliver | tagall.py:129-180 | from the new event on: the form unless silent, the loop, then the form deleted, or NameError in silent mode |
| TagAll.TagAllMod.TagAll | tagall.py:107-180 | the whole command leaves exactly the trace and the outcome of TagAllRun |
| TagAllProperties.BatchSends | tagall.py:149-156 | a loop pass sends exactly one message, the text of its own batch |
| TagAllProperties.BatchKinds | tagall.py:149-177 | a loop pass only sends, deletes a sent message, pauses and answers the button, and sends only to the destination through the configured identity |
| TagAllProperties.BatchAnswers | tagall.py:102-104 | a loop pass answers the button once if the press came during its pause, otherwise not at all |
| TagAllProperties.BatchDeletes | tagall.py:158-160 | with delete on, pass k sends one message and deletes exactly that message (number k), once, right after sending it |
| TagAllProperties.LoopSends | tagall.py:142-156 | the first n passes send the first n batch texts, each once, in order |
| TagAllProperties.LoopKinds | tagall.py:142-177 | the loop only sends, deletes, pauses and answers the button, and sends only to the destination |
| TagAllProperties.LoopAnswers | tagall.py:102-104 | the first n passes answer the button once if it was pressed during one of them, otherwise never |
| TagAllProperties.LoopDeletes | tagall.py:158-160 | with delete on, the k-th message the loop sends is deleted right after it, and every delete follows a send, so each message is deleted once |
| TagAllProperties.RunSends | tagall.py:142-178 | a whole run sends the first BatchesRun batch texts in order, each once, and nothing else |
| TagAllProperties.RunSendsTo | tagall.py:125-156 | every message goes to the resolved chat, through the inline bot in bot mode and the client otherwise |
| TagAllProperties.FormDeletedOnce | tagall.py:131-180 | the status form is deleted exactly once when it was shown, and never in silent mode |
| TagAllProperties.FormShownOnce | tagall.py:131-140 | without silent mode the status form is shown exactly once, as the last step before the loop, so before any send and before its deletion |
| TagAllProperties.FormDeletedLast | tagall.py:180 | with a form, deleting it is the last call of the command, which then returns normally |
| TagAllProperties.SilentRunRaisesAtCleanup | tagall.py:131-180 | silent mode shows and deletes no form and ends with NameError |
| TagAllProperties.NeverCancelledSendsAll | tagall.py:142-178 | without a press during the batches (or in silent mode) every batch is sent exactly once, in order |
| TagAllProperties.RunAnswers | tagall.py:102-104 | a run answers the cancel button once if it was pressed during a batch, and never otherwise |
| TagAllProperties.CancelStopsAfterBatch | tagall.py:174-178 | a press during the pause of batch j sends batches 0..j and none after, and answers the press once |
| TagAllProperties.SendsFirstBatch | tagall.py:142-156 | with members to tag, the first message sent is the text of the first five mentions |
| TagAllProperties.DeletesFollowEverySend | tagall.py:158-160 | with delete on, the k-th message of a run is deleted right after it is sent, by a delete naming message k, and no delete occurs anywhere else |
| TagAllProperties.LoopKeepsMessages | tagall.py:158 | with delete off, no loop pass deletes a message |
| TagAllProperties.KeepsMessagesWhenDeleteOff | tagall.py:158 | with delete off, a run deletes none of the messages it sends |
| TagAllProperties.DefaultConfigRun | tagall.py:69-100 | with the declared defaults (no bot, not silent) a run sends from the user's account to the chat it was called in, shows the form once, deletes it once and returns normally |
| TagAllProperties.DeletedOnce | tagall.py:158-160 | in a trace that follows that rule, two different deletes name different messages: no message is deleted twice |
| TagAllProperties.DeleteFailuresDoNotStopBatches | tagall.py:158-160 | whether deletes fail changes neither what is sent, nor the number of calls, nor how the command ends |
| TagAllProperties.LoopLengthIgnoresDeletes | tagall.py:158-160 | whether deletes fail does not change the number of calls the loop makes |
| TagAllProperties.WatcherHasNoEffect | tagall.py:162-172 | in no run does the watcher act: it never edits the form to "cancelled" and never reaches its NameError |
| TagAllProperties.BotInviteFailureAnswersOnce | tagall.py:113-120 | when inviting the bot fails, the error is answered once, nothing is sent, no form is shown or deleted, and the command returns |
| TagAllProperties.DestinationChat | tagall.py:113-127 | client mode sends to the chat id unchanged; bot mode sends to -(100 * 10^k + x); a negative id raises ValueError before anything is sent |
| TagAllProperties.BatchesCoverMembers | tagall.py:142-148 | there are ceil(N / 5) batches of five mentions (the last has 1 to 5), and laid end to end they name every member once, in enumeration order |

## Left out

- Telegram, Telethon and aiogram: every call is an `Effect` in the trace, and what the service answers is a field of `World`. `utils` is not part of this model. Its `get_args_raw`, `get_chat_id` and `escape_html` are inputs: the message's `args`, `World.chatId` and the function `World.escape`.
- `utils.chunks`: modelled as `[l[i:i + n] for i in range(0, len(l), n)]`, the usual definition of that helper.
- Asynchrony: the button callback, the watcher task and `asyncio.sleep` are not interleaved. A button press is placed in the pause of one batch (`World.cancelPressedDuring`). The watcher is one poll after that pause, which is all the code as written can do there (see "Behaviour as written"). `Sleep(timeout)` records the pause, and no clock is modelled.
- TagAllProperties.RunAnswers: only the first press of the cancel button is modelled. Each further press runs `cancel` again and would add another `AnswerCall`, since the button stays until `tagall.py:180`. So the "answered once" claims of RunAnswers, LoopAnswers, BatchAnswers and CancelStopsAfterBatch hold for runs with a single press.
- TagAllProperties.RunAnswers: a press while the members are fetched, in a chat with no members, is not modelled. The model's oracle only names a batch, so with no batch it answers no press, where the source would answer it once.
- TagAll.TagAllMod.Cancel: the `call` argument is not a parameter. Answering the press is the effect `AnswerCall`.
- Failures of the calls the code does not guard are not modelled: `message.delete()`, `utils.answer`, `call.answer`, `send_message`, the form, `iter_participants`, `cancel.delete`. Failures of the calls it suppresses (`Bot.set_instance`, `m.delete()`) have no effect on the run. Their outcome is recorded in the effect (`DeleteSent.succeeded`) or not at all (`BindBot`).
- `int()` accepts surrounding whitespace and `_` digit separators. `ParseInt` does not, and needs neither, since its input is always `-100` followed by `str()` of an integer.
- The configuration validators (`Boolean`, `Float(minimum=0)`) and the `loader` machinery: a `Config` value is taken as given. `DefaultConfig` holds the declared defaults, which `DefaultConfigRun` uses. `EnglishStrings` and `RussianStrings` are reference data: the lemmas hold for any `Strings` value.
- Strings: `EnglishStrings` and `RussianStrings` hold the texts the command uses. The `cancelled` text is kept, but no run shows it, because the watcher never edits the form. The `_cfg_doc_*`, `name` and `_cls_doc` entries are not used by the command and are not modelled.
- Logging: the module-level logger is never used by the command.
