/**
 * The strings the tagall command builds: one mention fragment per member,
 * the text of one batch message, and the chat id the inline bot sends to.
 */
module Render {
  import opened Wrappers
  import opened Decimal

  /** U+00AD SOFT HYPHEN, the invisible glyph inside and between mentions. */
  const SoftHyphen: string := "\U{AD}"

  const FragmentHead: string := "<a href=\"tg://user?id="
  const FragmentTail: string := "\">" + SoftHyphen + "</a>"

  /** `f'<a href="tg://user?id={user.id}">\xad</a>'` */
  function Fragment(id: int): string {
    FragmentHead + IntToString(id) + FragmentTail
  }

  /** Reads the member id back out of a mention fragment. */
  function FragmentId(f: string): Option<int> {
    if |f| >= |FragmentHead| + |FragmentTail|
       && f[..|FragmentHead|] == FragmentHead
       && f[|f| - |FragmentTail|..] == FragmentTail
    then ParseInt(f[|FragmentHead|..|f| - |FragmentTail|])
    else None
  }

  /** A fragment names exactly the member it was made for. */
  lemma FragmentRoundTrip(id: int)
    ensures FragmentId(Fragment(id)) == Some(id)
  {
    var digits := IntToString(id);
    var f := Fragment(id);
    assert f[..|FragmentHead|] == FragmentHead;
    assert f[|f| - |FragmentTail|..] == FragmentTail;
    assert f[|FragmentHead|..|f| - |FragmentTail|] == digits;
    IntToStringRoundTrip(id);
  }

  /** The list comprehension over the participants: one fragment per member, in order. */
  function Fragments(ids: seq<int>): (fs: seq<string>)
    ensures |fs| == |ids|
  {
    seq(|ids|, i requires 0 <= i < |ids| => Fragment(ids[i]))
  }

  /** Each fragment of the list names the member at the same position. */
  lemma FragmentsIdentify(ids: seq<int>)
    ensures forall i :: 0 <= i < |ids| ==> FragmentId(Fragments(ids)[i]) == Some(ids[i])
  {
    forall i | 0 <= i < |ids| {
      FragmentRoundTrip(ids[i]);
    }
  }

  /** Python's `sep.join(parts)`. */
  function Join(sep: string, parts: seq<string>): string {
    if |parts| == 0 then ""
    else if |parts| == 1 then parts[0]
    else parts[0] + sep + Join(sep, parts[1..])
  }

  /** Where part i starts inside `sep.join(parts)`. */
  function JoinOffset(sep: string, parts: seq<string>, i: nat): nat
    requires i < |parts|
  {
    if i == 0 then 0 else |parts[0]| + |sep| + JoinOffset(sep, parts[1..], i - 1)
  }

  /** Every part appears, unaltered, at its offset in the joined string. */
  lemma {:induction false} JoinContains(sep: string, parts: seq<string>, i: nat)
    requires i < |parts|
    ensures JoinOffset(sep, parts, i) + |parts[i]| <= |Join(sep, parts)|
    ensures Join(sep, parts)[JoinOffset(sep, parts, i)..JoinOffset(sep, parts, i) + |parts[i]|] == parts[i]
  {
    var j := Join(sep, parts);
    if i == 0 {
      if |parts| > 1 {
        assert j == parts[0] + (sep + Join(sep, parts[1..]));
      }
    } else {
      JoinContains(sep, parts[1..], i - 1);
      var head := parts[0] + sep;
      var rest := Join(sep, parts[1..]);
      assert j == head + rest;
      var k := JoinOffset(sep, parts[1..], i - 1);
      assert j[|head| + k..|head| + k + |parts[i]|] == rest[k..k + |parts[i]|];
    }
  }

  /** Between consecutive parts there is exactly one separator. */
  lemma {:induction false} JoinSeparator(sep: string, parts: seq<string>, i: nat)
    requires i + 1 < |parts|
    ensures JoinOffset(sep, parts, i + 1) == JoinOffset(sep, parts, i) + |parts[i]| + |sep|
    ensures JoinOffset(sep, parts, i + 1) <= |Join(sep, parts)|
    ensures Join(sep, parts)[JoinOffset(sep, parts, i) + |parts[i]|..JoinOffset(sep, parts, i + 1)] == sep
  {
    var head := parts[0] + sep;
    var rest := Join(sep, parts[1..]);
    assert Join(sep, parts) == head + rest;
    if i == 0 {
      assert (head + rest)[|parts[0]|..|head|] == sep;
    } else {
      JoinSeparator(sep, parts[1..], i - 1);
      var lo := JoinOffset(sep, parts[1..], i - 1) + |parts[i]|;
      SliceOfSuffix(head, rest, lo, lo + |sep|);
    }
  }

  /** The joined string ends where its last part ends: nothing comes after it. */
  lemma {:induction false} JoinLength(sep: string, parts: seq<string>)
    requires |parts| > 0
    ensures |Join(sep, parts)| == JoinOffset(sep, parts, |parts| - 1) + |parts[|parts| - 1]|
  {
    if |parts| > 1 {
      var rest := parts[1..];
      JoinLength(sep, rest);
      assert rest[|rest| - 1] == parts[|parts| - 1];
      assert JoinOffset(sep, parts, |parts| - 1) == |parts[0]| + |sep| + JoinOffset(sep, rest, |rest| - 1);
      assert |Join(sep, parts)| == |parts[0]| + |sep| + |Join(sep, rest)|;
    }
  }

  /** `args or default_message`: an empty argument string falls back to the default. */
  function Caption(args: string, defaultMessage: string): string {
    if args != "" then args else defaultMessage
  }

  /** `utils.escape_html(args or default_message) + "\xad".join(chunk)`; escape_html is a parameter. */
  function MessageText(escape: string -> string, args: string, defaultMessage: string, chunk: seq<string>): string {
    escape(Caption(args, defaultMessage)) + Join(SoftHyphen, chunk)
  }

  /**
   * A batch message starts with the escaped caption: the arguments when there are any,
   * the default message otherwise.
   */
  lemma MessageTextStartsWithCaption(escape: string -> string, args: string, defaultMessage: string,
                                     chunk: seq<string>)
    ensures var caption := escape(if args != "" then args else defaultMessage);
            var text := MessageText(escape, args, defaultMessage, chunk);
            |caption| <= |text| && text[..|caption|] == caption
  {
  }

  /** A batch message carries every mention of its batch, unaltered, at a known place, in batch order. */
  lemma MessageTextMentionsEach(escape: string -> string, args: string, defaultMessage: string,
                                chunk: seq<string>, i: nat)
    requires i < |chunk|
    ensures var at := |escape(Caption(args, defaultMessage))| + JoinOffset(SoftHyphen, chunk, i);
            var text := MessageText(escape, args, defaultMessage, chunk);
            at + |chunk[i]| <= |text| && text[at..at + |chunk[i]|] == chunk[i]
  {
    JoinContains(SoftHyphen, chunk, i);
    var at := JoinOffset(SoftHyphen, chunk, i);
    SliceOfSuffix(escape(Caption(args, defaultMessage)), Join(SoftHyphen, chunk), at, at + |chunk[i]|);
  }

  /** A slice taken past the end of a prefix is a slice of the suffix. */
  lemma SliceOfSuffix(a: string, b: string, lo: nat, hi: nat)
    requires lo <= hi <= |b|
    ensures (a + b)[|a| + lo..|a| + hi] == b[lo..hi]
  {
  }

  /** `int(f"-100{chat_id}")`: None where Python raises ValueError. */
  function BotChatId(chatId: int): Option<int> {
    ParseInt("-100" + IntToString(chatId))
  }

  lemma HundredValue()
    ensures AllDigits("100") && DigitsValue("100") == 100
  {
    assert "100"[..2] == "10" && "10"[..1] == "1" && "1"[..0] == "";
  }

  /** For a non-negative id x with k decimal digits the bot-side id is -(100 * 10^k + x). */
  lemma BotChatIdOfNonNegative(chatId: int)
    requires chatId >= 0
    ensures BotChatId(chatId) == Some(-(100 * Pow10(|IntToString(chatId)|) + chatId))
  {
    var digits := IntToString(chatId);
    var s := "-100" + digits;
    assert s[1..] == "100" + digits;
    HundredValue();
    DigitsValueAppend("100", digits);
    NatToStringRoundTrip(chatId);
  }

  /** A negative id makes the literal "-100-..." that int() rejects. */
  lemma BotChatIdOfNegative(chatId: int)
    requires chatId < 0
    ensures BotChatId(chatId) == None
  {
    var s := "-100" + IntToString(chatId);
    assert s[4] == '-' && s[1..][3] == '-';
    assert !AllDigits(s[1..]);
    assert !AllDigits(s);
  }
}
