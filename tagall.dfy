/**
 * The TagAll plugin command: tag every member of a chat in batches of five
 * mentions, optionally through the inline bot, with a cancel button.
 *
 * Every call into the chat service is recorded as an Effect appended to a
 * trace; what the service answers (the member list, whether inviting the bot
 * or deleting a message works, when the cancel button is pressed) comes in as
 * a World value.
 */
module TagAll {
  import opened Wrappers
  import opened Chunking
  import opened Render

  /** The five configuration values of the module. */
  datatype Config = Config(
    defaultMessage: string,
    delete: bool,
    useBot: bool,
    timeout: real,
    silent: bool)

  const DefaultConfig: Config := Config("@all", false, false, 0.1, false)

  /** The localized strings the command shows. */
  datatype Strings = Strings(botError: string, gathering: string, cancel: string, cancelled: string)

  const EnglishStrings: Strings := Strings(
    "\U{1F6AB} <b>Unable to invite inline bot to chat</b>",
    "\U{1F9DA}\U{200D}\U{2640}\U{FE0F} <b>Calling participants of this chat...</b>",
    "\U{1F6AB} Cancel",
    "\U{1F9DA}\U{200D}\U{2640}\U{FE0F} <b>TagAll cancelled!</b>")

  const RussianStrings: Strings := Strings(
    "\U{1F6AB} <b>Не получилось пригласить бота в чат</b>",
    "\U{1F9DA}\U{200D}\U{2640}\U{FE0F} <b>Отмечаю участников чата...</b>",
    "\U{1F6AB} Отмена",
    "\U{1F9DA}\U{200D}\U{2640}\U{FE0F} <b>Сбор участников отменен!</b>")

  /** Number of mentions per message. */
  const BatchSize: nat := 5

  /** The command message: whether it was sent by this account, its chat, and its raw arguments. */
  datatype Message = Message(out: bool, peer: int, args: string)

  /** Who sends the batch messages. */
  datatype Identity = Client | InlineBot

  /** One call into the chat service or the inline-form machinery. */
  datatype Effect =
    | DeleteCommand                          // the outgoing command message is deleted
    | InviteBot(peer: int)                   // InviteToChannelRequest for the inline bot
    | Answer(text: string)                   // utils.answer on the command message
    | BindBot                                // Bot.set_instance, failures suppressed
    | ShowForm(text: string, button: string) // the status form with its cancel button
    | Send(via: Identity, chat: int, text: string)
    | DeleteSent(batch: nat, succeeded: bool) // deleting batch message, failures suppressed
    | Sleep(seconds: real)
    | AnswerCall(text: string)               // the cancel button's callback answers the press
    | WatcherNameError                       // the watcher task reads the unbound `cancel`; nobody awaits it
    | DeleteForm

  /** How the coroutine ends: it returns, or it raises. */
  datatype Outcome =
    | Returned
    | RaisedValueError   // int(f"-100{...}") on a negative chat id
    | RaisedNameError    // UnboundLocalError, a NameError: `cancel` is unbound at the final cleanup in silent mode

  /** What the chat service and the user do during one invocation. */
  datatype World = World(
    escape: string -> string,          // utils.escape_html
    chatId: int,                       // utils.get_chat_id(message)
    members: seq<int>,                 // user ids from iter_participants, in order
    inviteSucceeds: bool,              // whether InviteToChannelRequest goes through
    deleteSucceeds: nat -> bool,       // whether deleting the message of batch k goes through
    cancelPressedDuring: Option<nat>)  // the batch during whose pause the cancel button is pressed

  datatype Run = Run(effects: seq<Effect>, outcome: Outcome)

  function Via(cfg: Config): Identity {
    if cfg.useBot then InlineBot else Client
  }

  /** The mention fragments of all members, grouped five by five. */
  function Batches(w: World): seq<seq<string>> {
    Chunks(Fragments(w.members), BatchSize)
  }

  function BatchText(cfg: Config, msg: Message, w: World, batch: seq<string>): string {
    MessageText(w.escape, msg.args, cfg.defaultMessage, batch)
  }

  /** The button exists only with the status form, so a press needs a form. */
  predicate PressedAt(cfg: Config, w: World, k: nat) {
    !cfg.silent && w.cancelPressedDuring == Some(k)
  }

  /** How many batches the loop runs through before it ends or breaks. */
  function BatchesRun(cfg: Config, w: World, count: nat): (n: nat)
    ensures n <= count
  {
    if !cfg.silent && w.cancelPressedDuring.Some? && w.cancelPressedDuring.value < count
    then w.cancelPressedDuring.value + 1
    else count
  }

  /**
   * The watcher task as written: it returns at once unless silent. In silent mode no form
   * was made, so a stopped event makes it fail on the unbound `cancel` instead of editing.
   */
  function WatcherEffects(cfg: Config, state: bool): seq<Effect> {
    if !cfg.silent then []
    else if !state then [WatcherNameError]
    else []
  }

  /** The text each batch is sent with, batch by batch. */
  function BatchTexts(cfg: Config, msg: Message, w: World, batches: seq<seq<string>>): (texts: seq<string>)
    ensures |texts| == |batches|
  {
    seq(|batches|, k requires 0 <= k < |batches| => BatchText(cfg, msg, w, batches[k]))
  }

  /** The texts of all the batches of an invocation, in enumeration order. */
  function RunTexts(cfg: Config, msg: Message, w: World): seq<string> {
    BatchTexts(cfg, msg, w, Batches(w))
  }

  /** The effects of one pass through the loop body, the one that sends texts[k]. */
  function BatchEffects(cfg: Config, strs: Strings, w: World, dest: int, texts: seq<string>, k: nat): seq<Effect>
    requires k < |texts|
  {
    [Send(Via(cfg), dest, texts[k])]
    + (if cfg.delete then [DeleteSent(k, w.deleteSucceeds(k))] else [])
    + [Sleep(cfg.timeout)]
    + (if PressedAt(cfg, w, k) then [AnswerCall(strs.cancel)] else [])
    + WatcherEffects(cfg, !PressedAt(cfg, w, k))
  }

  /** The effects of the first n passes through the loop body. */
  function LoopEffects(cfg: Config, strs: Strings, w: World, dest: int, texts: seq<string>, n: nat): seq<Effect>
    requires n <= |texts|
  {
    if n == 0 then []
    else LoopEffects(cfg, strs, w, dest, texts, n - 1) + BatchEffects(cfg, strs, w, dest, texts, n - 1)
  }

  /** The effects before the bot is invited. */
  function Opening(msg: Message): seq<Effect> {
    if msg.out then [DeleteCommand] else []
  }

  /** Everything from creating the stop event on, once the destination chat and the batch texts are known. */
  function DeliveryRun(cfg: Config, strs: Strings, w: World, dest: int, texts: seq<string>): Run {
    var form := if cfg.silent then [] else [ShowForm(strs.gathering, strs.cancel)];
    var loop := LoopEffects(cfg, strs, w, dest, texts, BatchesRun(cfg, w, |texts|));
    if cfg.silent then Run(form + loop, RaisedNameError)
    else Run(form + loop + [DeleteForm], Returned)
  }

  /** Where the bot-mode block (invite, bind, remap the chat id) leaves the command. */
  datatype Resolution =
    | Resolved(effects: seq<Effect>, dest: int)
    | Aborted(effects: seq<Effect>, outcome: Outcome)

  /** The destination chat: in bot mode the bot is invited first and the id is remapped. */
  function Resolve(cfg: Config, strs: Strings, msg: Message, w: World): Resolution {
    if !cfg.useBot then Resolved([], w.chatId)
    else if !w.inviteSucceeds then Aborted([InviteBot(msg.peer), Answer(strs.botError)], Returned)
    else match BotChatId(w.chatId)
      case None => Aborted([InviteBot(msg.peer), BindBot], RaisedValueError)
      case Some(id) => Resolved([InviteBot(msg.peer), BindBot], id)
  }

  /** The whole invocation of the command, as the trace it leaves and how it ends. */
  function TagAllRun(cfg: Config, strs: Strings, msg: Message, w: World): Run {
    match Resolve(cfg, strs, msg, w)
    case Aborted(effects, outcome) => Run(Opening(msg) + effects, outcome)
    case Resolved(effects, dest) =>
      var rest := DeliveryRun(cfg, strs, w, dest, RunTexts(cfg, msg, w));
      Run(Opening(msg) + effects + rest.effects, rest.outcome)
  }

  lemma AppendAssoc<T>(a: seq<T>, b: seq<T>, c: seq<T>)
    ensures (a + b) + c == a + (b + c)
  {
  }

  /** The shared stop flag: true until the cancel button stops it. */
  class StopEvent {
    var state: bool

    constructor ()
      ensures state
    {
      state := true;
    }

    /** Stopping is final: whatever the flag was, it is false afterwards. */
    method Stop()
      modifies this
      ensures !state
      ensures old(!state) ==> unchanged(this)
    {
      state := false;
    }
  }

  class TagAllMod {
    const config: Config
    const strings: Strings
    /** Every call the module has made so far, oldest first. */
    var trace: seq<Effect>

    constructor (config: Config, strings: Strings)
      ensures this.config == config && this.strings == strings && trace == []
    {
      this.config := config;
      this.strings := strings;
      trace := [];
    }

    method Emit(e: Effect)
      modifies this
      ensures trace == old(trace) + [e]
    {
      trace := trace + [e];
    }

    /** The cancel button's callback: stop the event, then answer the press. */
    method Cancel(event: StopEvent)
      modifies this, event
      ensures !event.state
      ensures trace == old(trace) + [AnswerCall(strings.cancel)]
    {
      event.Stop();
      Emit(AnswerCall(strings.cancel));
    }

    /** One poll of the watcher task `_task`, taken after any press during the pause. */
    method Watch(event: StopEvent)
      modifies this
      ensures trace == old(trace) + WatcherEffects(config, event.state)
    {
      if !config.silent {
        return;
      }
      if !event.state {
        Emit(WatcherNameError);
      }
    }

    /** One pass of the loop body: send batch k, maybe delete it, pause; the button may be pressed meanwhile. */
    method DeliverBatch(msg: Message, w: World, dest: int, batches: seq<seq<string>>, k: nat, event: StopEvent)
      requires k < |batches| && event.state
      modifies this, event
      ensures event.state == !PressedAt(config, w, k)
      ensures trace == old(trace) + BatchEffects(config, strings, w, dest, BatchTexts(config, msg, w, batches), k)
    {
      var text := BatchText(config, msg, w, batches[k]);
      Emit(Send(Via(config), dest, text));
      if config.delete {
        Emit(DeleteSent(k, w.deleteSucceeds(k)));
      }
      Emit(Sleep(config.timeout));
      if !config.silent && w.cancelPressedDuring == Some(k) {
        Cancel(event);
      }
      Watch(event);
    }

    /** The `tagall` command. */
    method TagAll(msg: Message, w: World) returns (outcome: Outcome)
      modifies this
      ensures trace == old(trace) + TagAllRun(config, strings, msg, w).effects
      ensures outcome == TagAllRun(config, strings, msg, w).outcome
    {
      if msg.out {
        Emit(DeleteCommand);
      }
      ghost var started := trace;
      var resolution := ResolveDestination(msg, w);
      if resolution.Aborted? {
        return resolution.outcome;
      }
      ghost var resolved := trace;
      outcome := Deliver(msg, w, resolution.dest);
      ghost var rest := DeliveryRun(config, strings, w, resolution.dest, RunTexts(config, msg, w)).effects;
      assert trace == resolved + rest;
      assert resolved == old(trace) + (Opening(msg) + resolution.effects) by {
        AppendAssoc(old(trace), Opening(msg), resolution.effects);
      }
      AppendAssoc(old(trace), Opening(msg) + resolution.effects, rest);
      assert TagAllRun(config, strings, msg, w).effects == Opening(msg) + resolution.effects + rest;
    }

    /** The `if self.config["use_bot"]` block and the chat id it leaves. */
    method ResolveDestination(msg: Message, w: World) returns (r: Resolution)
      modifies this
      ensures r == Resolve(config, strings, msg, w)
      ensures trace == old(trace) + r.effects
    {
      if config.useBot {
        Emit(InviteBot(msg.peer));
        if !w.inviteSucceeds {
          Emit(Answer(strings.botError));
          return Aborted([InviteBot(msg.peer), Answer(strings.botError)], Returned);
        }
        Emit(BindBot);
        var id := BotChatId(w.chatId);
        if id.None? {
          return Aborted([InviteBot(msg.peer), BindBot], RaisedValueError);
        }
        r := Resolved([InviteBot(msg.peer), BindBot], id.value);
      } else {
        r := Resolved([], w.chatId);
      }
    }

    /** The `for chunk in ...` loop: one pass per batch, leaving the loop once the event is stopped. */
    method SendBatches(msg: Message, w: World, dest: int, batches: seq<seq<string>>, event: StopEvent)
      requires event.state
      modifies this, event
      ensures event.state == !(!config.silent && w.cancelPressedDuring.Some? && w.cancelPressedDuring.value < |batches|)
      ensures trace == old(trace) + LoopEffects(config, strings, w, dest, BatchTexts(config, msg, w, batches),
                                                BatchesRun(config, w, |batches|))
    {
      ghost var beforeLoop := trace;
      ghost var texts := BatchTexts(config, msg, w, batches);
      var i := 0;
      while i < |batches|
        invariant 0 <= i <= |batches|
        invariant event.state
        invariant !config.silent && w.cancelPressedDuring.Some? ==> w.cancelPressedDuring.value >= i
        invariant trace == beforeLoop + LoopEffects(config, strings, w, dest, texts, i)
      {
        ghost var done := LoopEffects(config, strings, w, dest, texts, i);
        DeliverBatch(msg, w, dest, batches, i, event);
        AppendAssoc(beforeLoop, done, BatchEffects(config, strings, w, dest, texts, i));
        i := i + 1;
        if !event.state {
          break;
        }
      }
      assert i == BatchesRun(config, w, |batches|);
    }

    /** The command from `event = StopEvent()` to the end, sending to chat dest. */
    method Deliver(msg: Message, w: World, dest: int) returns (outcome: Outcome)
      modifies this
      ensures trace == old(trace) + DeliveryRun(config, strings, w, dest, RunTexts(config, msg, w)).effects
      ensures outcome == DeliveryRun(config, strings, w, dest, RunTexts(config, msg, w)).outcome
    {
      var event := new StopEvent();
      if !config.silent {
        Emit(ShowForm(strings.gathering, strings.cancel));
      }
      ghost var shown := trace;
      ghost var texts := RunTexts(config, msg, w);
      SendBatches(msg, w, dest, Batches(w), event);
      ghost var loop := LoopEffects(config, strings, w, dest, texts, BatchesRun(config, w, |texts|));
      assert trace == shown + loop;
      if config.silent {
        return RaisedNameError;
      }
      Emit(DeleteForm);
      AppendAssoc(old(trace), [ShowForm(strings.gathering, strings.cancel)], loop);
      AppendAssoc(old(trace), [ShowForm(strings.gathering, strings.cancel)] + loop, [DeleteForm]);
      return Returned;
    }
  }
}
