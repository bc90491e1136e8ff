/**
 * What one invocation of the tagall command does, stated over the trace
 * that TagAllRun describes and the TagAll method leaves behind.
 */
module TagAllProperties {
  import opened Wrappers
  import opened Decimal
  import opened Chunking
  import opened Render
  import opened TagAll

  /** The texts of the batch messages in a trace, in the order they were sent. */
  function SentTexts(es: seq<Effect>): seq<string> {
    if es == [] then []
    else (if es[0].Send? then [es[0].text] else []) + SentTexts(es[1..])
  }

  /** How many times e occurs in a trace. */
  function Count(es: seq<Effect>, e: Effect): nat {
    if es == [] then 0
    else (if es[0] == e then 1 else 0) + Count(es[1..], e)
  }

  /**
   * Each send is followed at once by the delete of that very message, and every delete
   * comes right after a send, so no message is deleted twice. Messages are numbered by
   * the order they were sent in, starting from base.
   */
  ghost predicate DeletesFollowSendsFrom(es: seq<Effect>, base: nat) {
    (forall p :: 0 <= p < |es| && es[p].Send? ==>
       p + 1 < |es| && es[p + 1].DeleteSent? && es[p + 1].batch == base + |SentTexts(es[..p])|) &&
    (forall p :: 0 <= p < |es| && es[p].DeleteSent? ==> 0 < p && es[p - 1].Send?)
  }

  /** When `delete` is set, the k-th message sent is deleted right after it is sent, and only then. */
  ghost predicate DeletesFollowSends(es: seq<Effect>) {
    DeletesFollowSendsFrom(es, 0)
  }

  lemma {:induction false} SentTextsAppend(a: seq<Effect>, b: seq<Effect>)
    ensures SentTexts(a + b) == SentTexts(a) + SentTexts(b)
  {
    if a != [] {
      assert (a + b)[1..] == a[1..] + b;
      SentTextsAppend(a[1..], b);
    } else {
      assert a + b == b;
    }
  }

  lemma {:induction false} CountAppend(a: seq<Effect>, b: seq<Effect>, e: Effect)
    ensures Count(a + b, e) == Count(a, e) + Count(b, e)
  {
    if a != [] {
      assert (a + b)[1..] == a[1..] + b;
      CountAppend(a[1..], b, e);
    } else {
      assert a + b == b;
    }
  }

  lemma {:induction false} NoSends(es: seq<Effect>)
    requires forall e :: e in es ==> !e.Send?
    ensures SentTexts(es) == []
  {
    if es != [] {
      assert es[0] in es;
      NoSends(es[1..]);
    }
  }

  lemma {:induction false} CountAbsent(es: seq<Effect>, e: Effect)
    requires e !in es
    ensures Count(es, e) == 0
  {
    if es != [] {
      CountAbsent(es[1..], e);
    }
  }

  lemma DeletesFollowSendsAppend(a: seq<Effect>, b: seq<Effect>, base: nat)
    requires DeletesFollowSendsFrom(a, base) && DeletesFollowSendsFrom(b, base + |SentTexts(a)|)
    ensures DeletesFollowSendsFrom(a + b, base)
  {
    var ab := a + b;
    forall p | 0 <= p < |ab| && ab[p].Send?
      ensures p + 1 < |ab| && ab[p + 1].DeleteSent? && ab[p + 1].batch == base + |SentTexts(ab[..p])|
    {
      if p < |a| {
        assert a[p].Send? && ab[..p] == a[..p];
      } else {
        var q := p - |a|;
        assert b[q].Send? && ab[..p] == a + b[..q];
        SentTextsAppend(a, b[..q]);
      }
    }
    forall p | 0 <= p < |ab| && ab[p].DeleteSent?
      ensures 0 < p && ab[p - 1].Send?
    {
      if p < |a| {
        assert a[p].DeleteSent?;
      } else {
        assert b[p - |a|].DeleteSent?;
      }
    }
  }

  lemma ExtendDeletes(done: seq<Effect>, pass: seq<Effect>, k: nat)
    requires DeletesFollowSends(done) && |SentTexts(done)| == k && DeletesFollowSendsFrom(pass, k)
    ensures DeletesFollowSends(done + pass)
  {
    DeletesFollowSendsAppend(done, pass, 0);
  }

  /** A trace that neither sends nor deletes sent messages satisfies the rule trivially. */
  lemma SendFreeDeletes(es: seq<Effect>, base: nat)
    requires forall e :: e in es ==> !e.Send? && !e.DeleteSent?
    ensures DeletesFollowSendsFrom(es, base)
  {
    assert forall p :: 0 <= p < |es| ==> es[p] in es;
  }

  lemma {:induction false} SentTextsPrefix(es: seq<Effect>, i: nat, j: nat)
    requires i <= j <= |es|
    ensures |SentTexts(es[..i])| + (if i < j && es[i].Send? then 1 else 0) <= |SentTexts(es[..j])|
  {
    if i < j {
      assert es[..j] == es[..i] + ([es[i]] + es[i + 1..j]);
      SentTextsAppend(es[..i], [es[i]] + es[i + 1..j]);
      SentTextsAppend([es[i]], es[i + 1..j]);
      assert [es[i]][1..] == [];
    }
  }

  /** Under the rule, no two deletes name the same message. */
  lemma DeletedOnce(es: seq<Effect>, base: nat, p: nat, q: nat)
    requires DeletesFollowSendsFrom(es, base)
    requires p < q < |es| && es[p].DeleteSent? && es[q].DeleteSent?
    ensures es[p].batch < es[q].batch
  {
    assert es[p - 1].Send? && es[q - 1].Send?;
    SentTextsPrefix(es, p - 1, q - 1);
  }

  /** What the loop body can do: send, delete a sent message, pause, answer the cancel button. */
  ghost predicate OnlyLoopEffects(es: seq<Effect>) {
    forall e :: e in es ==> e.Send? || e.DeleteSent? || e.Sleep? || e.AnswerCall?
  }

  /** Every send in es goes through via to chat. */
  ghost predicate SendsTo(es: seq<Effect>, via: Identity, chat: int) {
    forall e :: e in es && e.Send? ==> e.via == via && e.chat == chat
  }

  lemma BatchSends(cfg: Config, strs: Strings, w: World, dest: int, texts: seq<string>, k: nat)
    requires k < |texts|
    ensures SentTexts(BatchEffects(cfg, strs, w, dest, texts, k)) == [texts[k]]
  {
    var es := BatchEffects(cfg, strs, w, dest, texts, k);
    assert forall e :: e in es[1..] ==> !e.Send?;
    NoSends(es[1..]);
  }

  lemma BatchKinds(cfg: Config, strs: Strings, w: World, dest: int, texts: seq<string>, k: nat)
    requires k < |texts|
    ensures OnlyLoopEffects(BatchEffects(cfg, strs, w, dest, texts, k))
    ensures SendsTo(BatchEffects(cfg, strs, w, dest, texts, k), Via(cfg), dest)
  {
    assert WatcherEffects(cfg, !PressedAt(cfg, w, k)) == [];
  }

  lemma BatchAnswers(cfg: Config, strs: Strings, w: World, dest: int, texts: seq<string>, k: nat)
    requires k < |texts|
    ensures Count(BatchEffects(cfg, strs, w, dest, texts, k), AnswerCall(strs.cancel))
         == if PressedAt(cfg, w, k) then 1 else 0
  {
    var es := BatchEffects(cfg, strs, w, dest, texts, k);
    var lead := [Send(Via(cfg), dest, texts[k])]
                + (if cfg.delete then [DeleteSent(k, w.deleteSucceeds(k))] else []) + [Sleep(cfg.timeout)];
    var press := if PressedAt(cfg, w, k) then [AnswerCall(strs.cancel)] else [];
    assert WatcherEffects(cfg, !PressedAt(cfg, w, k)) == [];
    assert es == lead + press;
    CountAbsent(lead, AnswerCall(strs.cancel));
    CountAppend(lead, press, AnswerCall(strs.cancel));
  }

  /** With delete on, a pass deletes the message it has just sent, once, and it is message k. */
  lemma BatchDeletes(cfg: Config, strs: Strings, w: World, dest: int, texts: seq<string>, k: nat)
    requires k < |texts| && cfg.delete
    ensures DeletesFollowSendsFrom(BatchEffects(cfg, strs, w, dest, texts, k), k)
  {
    var es := BatchEffects(cfg, strs, w, dest, texts, k);
    assert es[1] == DeleteSent(k, w.deleteSucceeds(k)) && es[..0] == [];
    assert forall p :: 1 <= p < |es| ==> !es[p].Send?;
    assert forall p :: 2 <= p < |es| ==> !es[p].DeleteSent?;
  }

  /** The first n passes of the loop send texts[0..n-1], in order, each once. */
  lemma {:induction false} LoopSends(cfg: Config, strs: Strings, w: World, dest: int, texts: seq<string>, n: nat)
    requires n <= |texts|
    ensures SentTexts(LoopEffects(cfg, strs, w, dest, texts, n)) == texts[..n]
  {
    if n > 0 {
      LoopSends(cfg, strs, w, dest, texts, n - 1);
      BatchSends(cfg, strs, w, dest, texts, n - 1);
      SentTextsAppend(LoopEffects(cfg, strs, w, dest, texts, n - 1), BatchEffects(cfg, strs, w, dest, texts, n - 1));
      assert texts[..n] == texts[..n - 1] + [texts[n - 1]];
    }
  }

  /** The loop only sends, deletes sent messages, pauses and answers the button; it sends only to dest. */
  lemma {:induction false} LoopKinds(cfg: Config, strs: Strings, w: World, dest: int, texts: seq<string>, n: nat)
    requires n <= |texts|
    ensures OnlyLoopEffects(LoopEffects(cfg, strs, w, dest, texts, n))
    ensures SendsTo(LoopEffects(cfg, strs, w, dest, texts, n), Via(cfg), dest)
  {
    if n > 0 {
      LoopKinds(cfg, strs, w, dest, texts, n - 1);
      BatchKinds(cfg, strs, w, dest, texts, n - 1);
    }
  }

  /** The loop answers the cancel button once if it was pressed during one of its first n passes. */
  lemma {:induction false} LoopAnswers(cfg: Config, strs: Strings, w: World, dest: int, texts: seq<string>, n: nat)
    requires n <= |texts|
    ensures Count(LoopEffects(cfg, strs, w, dest, texts, n), AnswerCall(strs.cancel))
         == if !cfg.silent && w.cancelPressedDuring.Some? && w.cancelPressedDuring.value < n then 1 else 0
  {
    if n > 0 {
      LoopAnswers(cfg, strs, w, dest, texts, n - 1);
      BatchAnswers(cfg, strs, w, dest, texts, n - 1);
      CountAppend(LoopEffects(cfg, strs, w, dest, texts, n - 1), BatchEffects(cfg, strs, w, dest, texts, n - 1),
                  AnswerCall(strs.cancel));
    }
  }

  lemma {:induction false} LoopDeletes(cfg: Config, strs: Strings, w: World, dest: int, texts: seq<string>, n: nat)
    requires n <= |texts| && cfg.delete
    ensures DeletesFollowSends(LoopEffects(cfg, strs, w, dest, texts, n))
  {
    if n > 0 {
      var done, pass := LoopEffects(cfg, strs, w, dest, texts, n - 1), BatchEffects(cfg, strs, w, dest, texts, n - 1);
      assert LoopEffects(cfg, strs, w, dest, texts, n) == done + pass;
      LoopDeletes(cfg, strs, w, dest, texts, n - 1);
      LoopSends(cfg, strs, w, dest, texts, n - 1);
      BatchDeletes(cfg, strs, w, dest, texts, n - 1);
      ExtendDeletes(done, pass, n - 1);
    } else {
      SendFreeDeletes([], 0);
    }
  }

  /** The effects of a run that reaches the loop, before the loop starts. */
  function Preamble(cfg: Config, strs: Strings, msg: Message, w: World): seq<Effect>
    requires Resolve(cfg, strs, msg, w).Resolved?
  {
    Opening(msg) + Resolve(cfg, strs, msg, w).effects
    + (if cfg.silent then [] else [ShowForm(strs.gathering, strs.cancel)])
  }

  /** The passes the loop of a run that reaches it makes. */
  function Loop(cfg: Config, strs: Strings, msg: Message, w: World): seq<Effect>
    requires Resolve(cfg, strs, msg, w).Resolved?
  {
    var texts := RunTexts(cfg, msg, w);
    LoopEffects(cfg, strs, w, Resolve(cfg, strs, msg, w).dest, texts, BatchesRun(cfg, w, |texts|))
  }

  /** The final cleanup: the form is deleted, unless silent mode left it unbound. */
  function Cleanup(cfg: Config): seq<Effect> {
    if cfg.silent then [] else [DeleteForm]
  }

  /** A run that reaches the loop: the preamble, the loop, then the cleanup. */
  lemma RunEffects(cfg: Config, strs: Strings, msg: Message, w: World)
    requires Resolve(cfg, strs, msg, w).Resolved?
    ensures TagAllRun(cfg, strs, msg, w).effects == Preamble(cfg, strs, msg, w) + Loop(cfg, strs, msg, w) + Cleanup(cfg)
    ensures TagAllRun(cfg, strs, msg, w).outcome == if cfg.silent then RaisedNameError else Returned
  {
    var res := Resolve(cfg, strs, msg, w);
    var loop := Loop(cfg, strs, msg, w);
    var form := if cfg.silent then [] else [ShowForm(strs.gathering, strs.cancel)];
    var head := Opening(msg) + res.effects;
    var r := TagAllRun(cfg, strs, msg, w);
    assert r.effects == head + (form + loop + Cleanup(cfg));
    AppendAssoc(head, form + loop, Cleanup(cfg));
    AppendAssoc(head, form, loop);
  }

  /** Before the loop the run only deletes the command, invites and binds the bot, and shows the form. */
  lemma PreambleKinds(cfg: Config, strs: Strings, msg: Message, w: World)
    requires Resolve(cfg, strs, msg, w).Resolved?
    ensures forall e :: e in Preamble(cfg, strs, msg, w) ==> e.DeleteCommand? || e.InviteBot? || e.BindBot? || e.ShowForm?
    ensures cfg.silent ==> forall e :: e in Preamble(cfg, strs, msg, w) ==> !e.ShowForm?
  {
  }

  /**
   * A run that reaches the loop sends the texts of the first BatchesRun batches, in order,
   * each once.
   */
  lemma RunSends(cfg: Config, strs: Strings, msg: Message, w: World)
    requires Resolve(cfg, strs, msg, w).Resolved?
    ensures var texts := RunTexts(cfg, msg, w);
            SentTexts(TagAllRun(cfg, strs, msg, w).effects) == texts[..BatchesRun(cfg, w, |texts|)]
  {
    var texts := RunTexts(cfg, msg, w);
    var pre, loop := Preamble(cfg, strs, msg, w), Loop(cfg, strs, msg, w);
    RunEffects(cfg, strs, msg, w);
    PreambleKinds(cfg, strs, msg, w);
    LoopSends(cfg, strs, w, Resolve(cfg, strs, msg, w).dest, texts, BatchesRun(cfg, w, |texts|));
    NoSends(pre);
    NoSends(Cleanup(cfg));
    SentTextsAppend(pre, loop);
    SentTextsAppend(pre + loop, Cleanup(cfg));
  }

  /** Every batch message of a run goes through the configured identity to the resolved chat. */
  lemma RunSendsTo(cfg: Config, strs: Strings, msg: Message, w: World)
    requires Resolve(cfg, strs, msg, w).Resolved?
    ensures SendsTo(TagAllRun(cfg, strs, msg, w).effects, Via(cfg), Resolve(cfg, strs, msg, w).dest)
  {
    var texts := RunTexts(cfg, msg, w);
    RunEffects(cfg, strs, msg, w);
    PreambleKinds(cfg, strs, msg, w);
    LoopKinds(cfg, strs, w, Resolve(cfg, strs, msg, w).dest, texts, BatchesRun(cfg, w, |texts|));
  }

  /** The status form is deleted exactly once when it was created, and never in silent mode. */
  lemma FormDeletedOnce(cfg: Config, strs: Strings, msg: Message, w: World)
    requires Resolve(cfg, strs, msg, w).Resolved?
    ensures Count(TagAllRun(cfg, strs, msg, w).effects, DeleteForm) == if cfg.silent then 0 else 1
  {
    var texts := RunTexts(cfg, msg, w);
    var pre, loop := Preamble(cfg, strs, msg, w), Loop(cfg, strs, msg, w);
    RunEffects(cfg, strs, msg, w);
    PreambleKinds(cfg, strs, msg, w);
    LoopKinds(cfg, strs, w, Resolve(cfg, strs, msg, w).dest, texts, BatchesRun(cfg, w, |texts|));
    CountAbsent(pre, DeleteForm);
    CountAbsent(loop, DeleteForm);
    CountAppend(pre, loop, DeleteForm);
    CountAppend(pre + loop, Cleanup(cfg), DeleteForm);
  }

  /**
   * Without silent mode the status form is shown exactly once, as the last step before the
   * loop, so it exists before anything is sent and before it is deleted.
   */
  lemma FormShownOnce(cfg: Config, strs: Strings, msg: Message, w: World)
    requires Resolve(cfg, strs, msg, w).Resolved? && !cfg.silent
    ensures var r := TagAllRun(cfg, strs, msg, w);
            var pre := Preamble(cfg, strs, msg, w);
            Count(r.effects, ShowForm(strs.gathering, strs.cancel)) == 1 &&
            0 < |pre| < |r.effects| && r.effects[|pre| - 1] == ShowForm(strs.gathering, strs.cancel)
  {
    var form := ShowForm(strs.gathering, strs.cancel);
    var texts := RunTexts(cfg, msg, w);
    var head := Opening(msg) + Resolve(cfg, strs, msg, w).effects;
    var pre, loop := Preamble(cfg, strs, msg, w), Loop(cfg, strs, msg, w);
    assert pre == head + [form];
    RunEffects(cfg, strs, msg, w);
    LoopKinds(cfg, strs, w, Resolve(cfg, strs, msg, w).dest, texts, BatchesRun(cfg, w, |texts|));
    CountAbsent(head, form);
    assert [form][1..] == [];
    CountAppend(head, [form], form);
    CountAbsent(loop, form);
    CountAppend(pre, loop, form);
    CountAppend(pre + loop, Cleanup(cfg), form);
  }

  /** With `delete` off, no pass deletes its message. */
  lemma {:induction false} LoopKeepsMessages(cfg: Config, strs: Strings, w: World, dest: int, texts: seq<string>, n: nat)
    requires n <= |texts| && !cfg.delete
    ensures forall e :: e in LoopEffects(cfg, strs, w, dest, texts, n) ==> !e.DeleteSent?
  {
    if n > 0 {
      LoopKeepsMessages(cfg, strs, w, dest, texts, n - 1);
      assert WatcherEffects(cfg, !PressedAt(cfg, w, n - 1)) == [];
    }
  }

  /** With `delete` off, a run deletes none of the messages it sends. */
  lemma KeepsMessagesWhenDeleteOff(cfg: Config, strs: Strings, msg: Message, w: World)
    requires !cfg.delete
    ensures forall e :: e in TagAllRun(cfg, strs, msg, w).effects ==> !e.DeleteSent?
  {
    if Resolve(cfg, strs, msg, w).Resolved? {
      var texts := RunTexts(cfg, msg, w);
      var pre, loop := Preamble(cfg, strs, msg, w), Loop(cfg, strs, msg, w);
      RunEffects(cfg, strs, msg, w);
      PreambleKinds(cfg, strs, msg, w);
      LoopKeepsMessages(cfg, strs, w, Resolve(cfg, strs, msg, w).dest, texts, BatchesRun(cfg, w, |texts|));
      assert forall e: Effect :: e in pre + loop ==> !e.DeleteSent?;
    }
  }

  /**
   * With the declared defaults the command tags through the user's own account, in the
   * chat it was called in, shows the form, deletes it once, and returns normally.
   */
  lemma DefaultConfigRun(strs: Strings, msg: Message, w: World)
    ensures var r := TagAllRun(DefaultConfig, strs, msg, w);
            r.outcome == Returned && SendsTo(r.effects, Client, w.chatId) &&
            Count(r.effects, ShowForm(strs.gathering, strs.cancel)) == 1 && Count(r.effects, DeleteForm) == 1
  {
    RunEffects(DefaultConfig, strs, msg, w);
    RunSendsTo(DefaultConfig, strs, msg, w);
    FormShownOnce(DefaultConfig, strs, msg, w);
    FormDeletedOnce(DefaultConfig, strs, msg, w);
  }

  /** With the status form, deleting it is the last thing the command does. */
  lemma FormDeletedLast(cfg: Config, strs: Strings, msg: Message, w: World)
    requires Resolve(cfg, strs, msg, w).Resolved? && !cfg.silent
    ensures var r := TagAllRun(cfg, strs, msg, w);
            r.outcome == Returned && |r.effects| > 0 && r.effects[|r.effects| - 1] == DeleteForm
  {
    RunEffects(cfg, strs, msg, w);
  }

  /** Silent mode shows no form, so the final `cancel.delete()` raises NameError. */
  lemma SilentRunRaisesAtCleanup(cfg: Config, strs: Strings, msg: Message, w: World)
    requires Resolve(cfg, strs, msg, w).Resolved? && cfg.silent
    ensures var r := TagAllRun(cfg, strs, msg, w);
            r.outcome == RaisedNameError && forall e :: e in r.effects ==> !e.ShowForm? && !e.DeleteForm?
  {
    var texts := RunTexts(cfg, msg, w);
    RunEffects(cfg, strs, msg, w);
    PreambleKinds(cfg, strs, msg, w);
    LoopKinds(cfg, strs, w, Resolve(cfg, strs, msg, w).dest, texts, BatchesRun(cfg, w, |texts|));
  }

  /** Never cancelled: every batch is sent exactly once, in enumeration order. */
  lemma NeverCancelledSendsAll(cfg: Config, strs: Strings, msg: Message, w: World)
    requires Resolve(cfg, strs, msg, w).Resolved?
    requires cfg.silent || w.cancelPressedDuring.None? || w.cancelPressedDuring.value >= |Batches(w)|
    ensures SentTexts(TagAllRun(cfg, strs, msg, w).effects) == RunTexts(cfg, msg, w)
  {
    RunSends(cfg, strs, msg, w);
    var texts := RunTexts(cfg, msg, w);
    assert texts[..|texts|] == texts;
  }

  /** A run answers the cancel button once when it was pressed during one of the batches, and otherwise never. */
  lemma RunAnswers(cfg: Config, strs: Strings, msg: Message, w: World)
    requires Resolve(cfg, strs, msg, w).Resolved?
    ensures Count(TagAllRun(cfg, strs, msg, w).effects, AnswerCall(strs.cancel))
         == if !cfg.silent && w.cancelPressedDuring.Some? && w.cancelPressedDuring.value < |Batches(w)| then 1 else 0
  {
    var texts := RunTexts(cfg, msg, w);
    var pre, loop := Preamble(cfg, strs, msg, w), Loop(cfg, strs, msg, w);
    RunEffects(cfg, strs, msg, w);
    PreambleKinds(cfg, strs, msg, w);
    LoopAnswers(cfg, strs, w, Resolve(cfg, strs, msg, w).dest, texts, BatchesRun(cfg, w, |texts|));
    CountAbsent(pre, AnswerCall(strs.cancel));
    CountAbsent(Cleanup(cfg), AnswerCall(strs.cancel));
    CountAppend(pre, loop, AnswerCall(strs.cancel));
    CountAppend(pre + loop, Cleanup(cfg), AnswerCall(strs.cancel));
  }

  /**
   * Cancelled during the pause after batch j: batches 0..j are sent and none after,
   * and the button press is answered once.
   */
  lemma CancelStopsAfterBatch(cfg: Config, strs: Strings, msg: Message, w: World, j: nat)
    requires Resolve(cfg, strs, msg, w).Resolved?
    requires !cfg.silent && w.cancelPressedDuring == Some(j) && j < |Batches(w)|
    ensures var r := TagAllRun(cfg, strs, msg, w);
            SentTexts(r.effects) == RunTexts(cfg, msg, w)[..j + 1] &&
            Count(r.effects, AnswerCall(strs.cancel)) == 1
  {
    RunSends(cfg, strs, msg, w);
    RunAnswers(cfg, strs, msg, w);
  }

  /** With members to tag, a run that reaches the loop sends at least the first batch. */
  lemma SendsFirstBatch(cfg: Config, strs: Strings, msg: Message, w: World)
    requires Resolve(cfg, strs, msg, w).Resolved? && w.members != []
    ensures var sent := SentTexts(TagAllRun(cfg, strs, msg, w).effects);
            |sent| >= 1 && sent[0] == MessageText(w.escape, msg.args, cfg.defaultMessage, Batches(w)[0])
  {
    RunSends(cfg, strs, msg, w);
  }

  /** With `delete` set, every send is followed immediately by one delete attempt of that message. */
  lemma DeletesFollowEverySend(cfg: Config, strs: Strings, msg: Message, w: World)
    requires cfg.delete
    ensures DeletesFollowSends(TagAllRun(cfg, strs, msg, w).effects)
  {
    var res := Resolve(cfg, strs, msg, w);
    if res.Resolved? {
      var texts := RunTexts(cfg, msg, w);
      var pre, loop := Preamble(cfg, strs, msg, w), Loop(cfg, strs, msg, w);
      RunEffects(cfg, strs, msg, w);
      PreambleKinds(cfg, strs, msg, w);
      SendFreeDeletes(pre, 0);
      NoSends(pre);
      SendFreeDeletes(Cleanup(cfg), |SentTexts(pre + loop)|);
      LoopDeletes(cfg, strs, w, res.dest, texts, BatchesRun(cfg, w, |texts|));
      DeletesFollowSendsAppend(pre, loop, 0);
      DeletesFollowSendsAppend(pre + loop, Cleanup(cfg), 0);
    } else {
      SendFreeDeletes(TagAllRun(cfg, strs, msg, w).effects, 0);
    }
  }

  /** Whether deleting a sent message succeeds changes nothing about what is sent or how the run ends. */
  lemma DeleteFailuresDoNotStopBatches(cfg: Config, strs: Strings, msg: Message, w: World, deletes: nat -> bool)
    ensures var r := TagAllRun(cfg, strs, msg, w);
            var r' := TagAllRun(cfg, strs, msg, w.(deleteSucceeds := deletes));
            SentTexts(r'.effects) == SentTexts(r.effects) && r'.outcome == r.outcome &&
            |r'.effects| == |r.effects|
  {
    var w' := w.(deleteSucceeds := deletes);
    var res := Resolve(cfg, strs, msg, w);
    assert Resolve(cfg, strs, msg, w') == res;
    if res.Resolved? {
      var texts := RunTexts(cfg, msg, w);
      assert RunTexts(cfg, msg, w') == texts;
      RunSends(cfg, strs, msg, w);
      RunSends(cfg, strs, msg, w');
      LoopLengthIgnoresDeletes(cfg, strs, w, res.dest, texts, BatchesRun(cfg, w, |texts|), deletes);
      RunEffects(cfg, strs, msg, w);
      RunEffects(cfg, strs, msg, w');
    }
  }

  lemma {:induction false} LoopLengthIgnoresDeletes(cfg: Config, strs: Strings, w: World, dest: int,
                                                    texts: seq<string>, n: nat, deletes: nat -> bool)
    requires n <= |texts|
    ensures |LoopEffects(cfg, strs, w.(deleteSucceeds := deletes), dest, texts, n)|
         == |LoopEffects(cfg, strs, w, dest, texts, n)|
  {
    if n > 0 {
      LoopLengthIgnoresDeletes(cfg, strs, w, dest, texts, n - 1, deletes);
    }
  }

  /**
   * The watcher task leaves no trace in any run: it returns at once while the form exists,
   * and in silent mode, where it would fail on the unbound form, no button can stop the event.
   * In particular the form is never edited to "cancelled".
   */
  lemma WatcherHasNoEffect(cfg: Config, strs: Strings, msg: Message, w: World)
    ensures WatcherNameError !in TagAllRun(cfg, strs, msg, w).effects
  {
    if Resolve(cfg, strs, msg, w).Resolved? {
      var texts := RunTexts(cfg, msg, w);
      var pre, loop := Preamble(cfg, strs, msg, w), Loop(cfg, strs, msg, w);
      RunEffects(cfg, strs, msg, w);
      PreambleKinds(cfg, strs, msg, w);
      LoopKinds(cfg, strs, w, Resolve(cfg, strs, msg, w).dest, texts, BatchesRun(cfg, w, |texts|));
      assert WatcherNameError !in pre + loop;
    }
  }

  /** If the bot cannot be invited, the error is answered once and nothing is sent or shown. */
  lemma BotInviteFailureAnswersOnce(cfg: Config, strs: Strings, msg: Message, w: World)
    requires cfg.useBot && !w.inviteSucceeds
    ensures var r := TagAllRun(cfg, strs, msg, w);
            r.outcome == Returned && SentTexts(r.effects) == [] &&
            Count(r.effects, Answer(strs.botError)) == 1 &&
            forall e :: e in r.effects ==> !e.ShowForm? && !e.DeleteForm?
  {
    var r := TagAllRun(cfg, strs, msg, w);
    var tail := [InviteBot(msg.peer), Answer(strs.botError)];
    assert r.effects == Opening(msg) + tail;
    NoSends(r.effects);
    CountAbsent(Opening(msg), Answer(strs.botError));
    CountAppend(Opening(msg), tail, Answer(strs.botError));
    assert tail[1..] == [Answer(strs.botError)];
    assert tail[1..][1..] == [];
  }

  /**
   * The chat the batches go to: in client mode the chat id unchanged; in bot mode, for an id x
   * with k digits, -(100 * 10^k + x), and a negative id ends the command with ValueError.
   */
  lemma DestinationChat(cfg: Config, strs: Strings, msg: Message, w: World)
    ensures !cfg.useBot ==> Resolve(cfg, strs, msg, w) == Resolved([], w.chatId)
    ensures cfg.useBot && w.inviteSucceeds && w.chatId >= 0 ==>
              Resolve(cfg, strs, msg, w).Resolved? &&
              Resolve(cfg, strs, msg, w).dest == -(100 * Pow10(|IntToString(w.chatId)|) + w.chatId)
    ensures cfg.useBot && w.inviteSucceeds && w.chatId < 0 ==>
              TagAllRun(cfg, strs, msg, w).outcome == RaisedValueError &&
              SentTexts(TagAllRun(cfg, strs, msg, w).effects) == []
  {
    if w.chatId >= 0 {
      BotChatIdOfNonNegative(w.chatId);
    } else {
      BotChatIdOfNegative(w.chatId);
    }
    if cfg.useBot && w.inviteSucceeds && w.chatId < 0 {
      NoSends(TagAllRun(cfg, strs, msg, w).effects);
    }
  }

  /**
   * The batches hold every member's mention once, in enumeration order, five to a batch
   * except a last one of one to five; there are ceil(N / 5) of them.
   */
  lemma BatchesCoverMembers(w: World)
    ensures var batches := Batches(w);
            |batches| == (|w.members| + 4) / 5 && WellSized(batches, 5) &&
            Flatten(batches) == Fragments(w.members) &&
            forall i :: 0 <= i < |w.members| ==> FragmentId(Flatten(batches)[i]) == Some(w.members[i])
  {
    ChunksCount(Fragments(w.members), BatchSize);
    ChunksFlatten(Fragments(w.members), BatchSize);
    FragmentsIdentify(w.members);
  }
}
