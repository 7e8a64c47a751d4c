/** The idempotency keys the agent mints: `channel:sessionId:turn`. */
module SessionKeys {
  import opened Policy

  datatype Key = Key(channel: Channel, sessionId: string, turn: nat)

  function ChannelName(c: Channel): string {
    match c case Voice => "VOICE" case WhatsApp => "WHATSAPP" case Web => "WEB"
  }

  function Digit(d: nat): char
    requires d < 10
  {
    '0' + d as char
  }

  function Decimal(n: nat): string {
    if n < 10 then [Digit(n)] else Decimal(n / 10) + [Digit(n % 10)]
  }

  function KeyText(k: Key): string {
    ChannelName(k.channel) + ":" + k.sessionId + ":" + Decimal(k.turn)
  }

  // ---- reading a key back ---------------------------------------------------------------------------------

  function DigitsValue(s: string): int {
    if s == "" then 0 else 10 * DigitsValue(s[..|s| - 1]) + (s[|s| - 1] as int - '0' as int)
  }

  /** The position of the first colon, the length if there is none. */
  function FirstColon(s: string): (i: nat)
    ensures i <= |s|
  {
    if s == "" || s[0] == ':' then 0 else 1 + FirstColon(s[1..])
  }

  /** The position just after the last colon, 0 if there is none. */
  function AfterLastColon(s: string): (i: nat)
    ensures i <= |s|
  {
    if s == "" then 0 else if s[|s| - 1] == ':' then |s| else AfterLastColon(s[..|s| - 1])
  }

  /** Channel up to the first colon, turn after the last, the session is whatever lies between. */
  function ReadKey(s: string): (string, string, int) {
    Cut(s, FirstColon(s), AfterLastColon(s))
  }

  function Cut(s: string, i: nat, j: nat): (string, string, int)
    requires i <= |s| && j <= |s|
  {
    (s[..i], if i + 1 <= j - 1 then s[i + 1..j - 1] else "", DigitsValue(s[j..]))
  }

  lemma {:induction false} DecimalReads(n: nat)
    ensures DigitsValue(Decimal(n)) == n
    ensures ':' !in Decimal(n)
  {
    if n >= 10 {
      DecimalReads(n / 10);
    } else {
      assert DigitsValue([Digit(n)][..0]) == 0;
    }
  }

  lemma {:induction false} FirstColonAt(head: string, tail: string)
    requires ':' !in head
    ensures FirstColon(head + ":" + tail) == |head|
  {
    if head == "" {
      assert (head + ":" + tail)[0] == ':';
    } else {
      assert (head + ":" + tail)[1..] == head[1..] + ":" + tail;
      FirstColonAt(head[1..], tail);
    }
  }

  lemma {:induction false} LastColonAt(head: string, tail: string)
    requires ':' !in tail
    ensures AfterLastColon(head + ":" + tail) == |head| + 1
  {
    var s := head + ":" + tail;
    if tail == "" {
      assert s[|s| - 1] == ':';
    } else {
      assert s[..|s| - 1] == head + ":" + tail[..|tail| - 1];
      LastColonAt(head, tail[..|tail| - 1]);
    }
  }

  lemma KeyParts(c: string, id: string, t: string)
    ensures var s := c + ":" + id + ":" + t; var i, j := |c|, |c| + |id| + 2;
      && s == c + ":" + (id + ":" + t) && |s| == j + |t|
      && s[..i] == c && s[i + 1..j - 1] == id && s[j..] == t
  {
  }

  lemma ColonsOf(c: string, id: string, t: string)
    requires ':' !in c && ':' !in t
    ensures FirstColon(c + ":" + id + ":" + t) == |c|
    ensures AfterLastColon(c + ":" + id + ":" + t) == |c| + |id| + 2
  {
    KeyParts(c, id, t);
    FirstColonAt(c, id + ":" + t);
    LastColonAt(c + ":" + id, t);
  }

  lemma CutReads(s: string, i: nat, j: nat, c: string, id: string, t: string)
    requires i + 2 <= j <= |s| && s[..i] == c && s[i + 1..j - 1] == id && s[j..] == t
    ensures Cut(s, i, j) == (c, id, DigitsValue(t))
  {
  }

  lemma TextReadsBack(c: string, id: string, t: string)
    requires ':' !in c && ':' !in t
    ensures ReadKey(c + ":" + id + ":" + t) == (c, id, DigitsValue(t))
  {
    KeyParts(c, id, t);
    ColonsOf(c, id, t);
    CutReads(c + ":" + id + ":" + t, |c|, |c| + |id| + 2, c, id, t);
  }

  /** A key is read back exactly, whatever the session id holds. */
  lemma KeyReadsBack(k: Key)
    ensures ReadKey(KeyText(k)) == (ChannelName(k.channel), k.sessionId, k.turn)
  {
    DecimalReads(k.turn);
    TextReadsBack(ChannelName(k.channel), k.sessionId, Decimal(k.turn));
  }

  /** Different channel, session or turn, different key: also across sessions whose ids hold colons. */
  lemma KeysAreInjective(j: Key, k: Key)
    requires KeyText(j) == KeyText(k)
    ensures j == k
  {
    KeyReadsBack(j);
    KeyReadsBack(k);
  }
}
