/** Text spoken by the voice channel: escaped XML, and tokens read out digit by digit. */
module Speech {
  import opened Basics

  // ---- escaping ---------------------------------------------------------------------------------------------

  function Entity(c: char): string {
    match c
    case '<' => "&lt;"
    case '>' => "&gt;"
    case '&' => "&amp;"
    case '\'' => "&apos;"
    case '"' => "&quot;"
    case _ => [c]
  }

  predicate Special(c: char) {
    c == '<' || c == '>' || c == '&' || c == '\'' || c == '"'
  }

  function XmlEscape(s: string): string {
    if s == "" then "" else Entity(s[0]) + XmlEscape(s[1..])
  }

  /** The character an XML 1.0 predefined entity at the start of s stands for (section 4.6). */
  function EntityAt(s: string): Option<char> {
    if "&lt;" <= s then Some('<')
    else if "&gt;" <= s then Some('>')
    else if "&amp;" <= s then Some('&')
    else if "&apos;" <= s then Some('\'')
    else if "&quot;" <= s then Some('"')
    else None
  }

  /** What an XML reader makes of character data; a raw '<' or a bare '&' is an error (section 2.4). */
  function Unescape(s: string): Option<string>
    decreases |s|
  {
    if s == "" then Some("")
    else if s[0] == '<' then None
    else if s[0] != '&' then Prepend(s[0], Unescape(s[1..]))
    else match EntityAt(s)
      case None => None
      case Some(c) => Prepend(c, Unescape(s[|Entity(c)|..]))
  }

  function Prepend(c: char, rest: Option<string>): Option<string> {
    match rest case None => None case Some(s) => Some([c] + s)
  }

  lemma UnescapeEntity(c: char, rest: string)
    ensures Unescape(Entity(c) + rest) == Prepend(c, Unescape(rest))
  {
    var s := Entity(c) + rest;
    if Special(c) {
      EntityAtStart(c, rest);
    }
    assert s[|Entity(c)|..] == rest;
  }

  lemma EntityAtStart(c: char, rest: string)
    requires Special(c)
    ensures EntityAt(Entity(c) + rest) == Some(c) && (Entity(c) + rest)[0] == '&'
  {
    var s := Entity(c) + rest;
    assert s[1] == Entity(c)[1] && s[2] == Entity(c)[2];
  }

  /** Reading escaped text gives the text back, whatever it holds. */
  lemma {:induction false} EscapeReadsBack(s: string)
    ensures Unescape(XmlEscape(s)) == Some(s)
  {
    if s == "" {
    } else {
      UnescapeEntity(s[0], XmlEscape(s[1..]));
      EscapeReadsBack(s[1..]);
      assert s == [s[0]] + s[1..];
    }
  }

  /** Escaped text has no raw delimiter, and every '&' in it starts one of the five entities. */
  lemma {:induction false} EscapedIsClean(s: string, i: nat)
    requires i < |XmlEscape(s)|
    ensures var c := XmlEscape(s)[i]; Special(c) ==> c == '&' && EntityAt(XmlEscape(s)[i..]).Some?
  {
    var n, rest := |Entity(s[0])|, XmlEscape(s[1..]);
    if i >= n {
      EscapedIsClean(s[1..], i - n);
      assert XmlEscape(s)[i..] == rest[i - n..];
    } else if Special(s[0]) && i == 0 {
      EntityAtStart(s[0], rest);
      assert XmlEscape(s)[0..] == Entity(s[0]) + rest;
    }
  }

  // ---- spoken documents --------------------------------------------------------------------------------------

  datatype Spoken = Spoken(voice: string, text: string)

  const OPEN := "<Say voice=\""
  const MIDDLE := "\" playBeep=\"false\">"
  const CLOSE := "</Say>"
  const HEADER := "<?xml version=\"1.0\" encoding=\"UTF-8\"?><Response>"
  const FOOTER := "</Response>"

  function Say(s: Spoken): string {
    OPEN + XmlEscape(s.voice) + MIDDLE + XmlEscape(s.text) + CLOSE
  }

  function Says(ss: seq<Spoken>): string {
    if ss == [] then "" else Say(ss[0]) + Says(ss[1..])
  }

  function Response(ss: seq<Spoken>): string {
    HEADER + Says(ss) + FOOTER
  }

  /** The text up to the first stop character, and what follows from it on. */
  function Until(s: string, stop: char): (parts: (string, string))
    ensures parts.0 + parts.1 == s
  {
    if s == "" || s[0] == stop then ("", s) else var (a, b) := Until(s[1..], stop); ([s[0]] + a, b)
  }

  function Strip(prefix: string, s: string): Option<string> {
    if prefix <= s then Some(s[|prefix|..]) else None
  }

  /** One escaped field of s: the opening, the text up to the stop character, and the closing; with what follows. */
  function ReadField(s: string, opening: string, stop: char, closing: string): (r: Option<(string, string)>)
    ensures r.Some? ==> |r.value.1| + |opening| + |closing| <= |s|
  {
    match Strip(opening, s)
    case None => None
    case Some(s1) =>
      var (field, s2) := Until(s1, stop);
      match (Unescape(field), Strip(closing, s2))
      case (Some(text), Some(rest)) => Some((text, rest))
      case _ => None
  }

  /** One spoken element at the start of s, and what follows it. */
  function ReadSay(s: string): (r: Option<(Spoken, string)>)
    ensures r.Some? ==> |r.value.1| < |s|
  {
    match ReadField(s, OPEN, '"', MIDDLE)
    case None => None
    case Some((voice, s1)) =>
      match ReadField(s1, "", '<', CLOSE)
      case None => None
      case Some((text, rest)) => Some((Spoken(voice, text), rest))
  }

  /** Spoken elements up to the footer, which must end the text. */
  function ReadSays(s: string, footer: string): Option<seq<Spoken>>
    decreases |s|
  {
    if s == footer then Some([])
    else match ReadSay(s)
      case None => None
      case Some((first, rest)) =>
        match ReadSays(rest, footer) case None => None case Some(others) => Some([first] + others)
  }

  function ReadFramed(s: string, header: string, footer: string): Option<seq<Spoken>> {
    match Strip(header, s) case None => None case Some(body) => ReadSays(body, footer)
  }

  function ReadResponse(s: string): Option<seq<Spoken>> {
    ReadFramed(s, HEADER, FOOTER)
  }

  lemma StripsOff(prefix: string, rest: string)
    ensures Strip(prefix, prefix + rest) == Some(rest)
  {
    assert (prefix + rest)[|prefix|..] == rest;
  }

  lemma {:induction false} UntilStop(s: string, rest: string, stop: char)
    requires stop !in s && rest != "" && rest[0] == stop
    ensures Until(s + rest, stop) == (s, rest)
  {
    if s == "" {
      assert s + rest == rest;
    } else {
      assert (s + rest)[1..] == s[1..] + rest;
      UntilStop(s[1..], rest, stop);
      assert s == [s[0]] + s[1..];
    }
  }

  lemma NoRaw(s: string, c: char)
    requires Special(c) && c != '&'
    ensures c !in XmlEscape(s)
  {
    if i :| 0 <= i < |XmlEscape(s)| && XmlEscape(s)[i] == c {
      EscapedIsClean(s, i);
    }
  }

  lemma FieldReadsBack(text: string, opening: string, stop: char, closing: string, rest: string)
    requires Special(stop) && stop != '&' && closing != "" && closing[0] == stop
    ensures ReadField(opening + (XmlEscape(text) + (closing + rest)), opening, stop, closing) == Some((text, rest))
  {
    StripsOff(opening, XmlEscape(text) + (closing + rest));
    NoRaw(text, stop);
    UntilStop(XmlEscape(text), closing + rest, stop);
    StripsOff(closing, rest);
    EscapeReadsBack(text);
  }

  lemma Regroup(a: string, b: string, c: string, d: string, e: string, f: string)
    ensures a + b + c + d + e + f == a + (b + (c + (d + (e + f))))
  {
  }

  lemma SayReadsBack(s: Spoken, rest: string)
    ensures ReadSay(Say(s) + rest) == Some((s, rest))
  {
    Regroup(OPEN, XmlEscape(s.voice), MIDDLE, XmlEscape(s.text), CLOSE, rest);
    var s1 := XmlEscape(s.text) + (CLOSE + rest);
    assert "" + s1 == s1;
    FieldReadsBack(s.voice, OPEN, '"', MIDDLE, s1);
    FieldReadsBack(s.text, "", '<', CLOSE, rest);
  }

  lemma SaysStart(first: Spoken, rest: string)
    ensures |Say(first) + rest| > 1 && (Say(first) + rest)[1] == 'S'
  {
    assert (Say(first) + rest)[1] == OPEN[1];
  }

  lemma Reassociate(a: string, b: string, c: string)
    ensures a + b + c == a + (b + c)
  {
  }

  lemma {:induction false} SaysReadBack(ss: seq<Spoken>, footer: string)
    requires |footer| > 1 && footer[1] != 'S'
    ensures ReadSays(Says(ss) + footer, footer) == Some(ss)
  {
    if ss == [] {
      assert Says(ss) + footer == footer;
    } else {
      var first, rest := ss[0], Says(ss[1..]) + footer;
      SaysReadBack(ss[1..], footer);
      SayReadsBack(first, rest);
      SaysStart(first, rest);
      Reassociate(Say(first), Says(ss[1..]), footer);
      assert ss == [first] + ss[1..];
    }
  }

  lemma FramedReadsBack(ss: seq<Spoken>, header: string, footer: string)
    requires |footer| > 1 && footer[1] != 'S'
    ensures ReadFramed(header + Says(ss) + footer, header, footer) == Some(ss)
  {
    Reassociate(header, Says(ss), footer);
    StripsOff(header, Says(ss) + footer);
    SaysReadBack(ss, footer);
  }

  /** A response of spoken elements is read back as exactly those elements: no text or voice can add or end one. */
  lemma ResponseReadsBack(ss: seq<Spoken>)
    ensures ReadResponse(Response(ss)) == Some(ss)
  {
    assert FOOTER[1] == '/';
    FramedReadsBack(ss, HEADER, FOOTER);
  }

  // ---- tokens read out digit by digit ------------------------------------------------------------------------

  predicate IsDigit(c: char) {
    '0' <= c <= '9'
  }

  /** What is left of a token when everything but its digits is dropped. */
  function Digits(s: string): (d: string)
    ensures forall i :: 0 <= i < |d| ==> IsDigit(d[i])
  {
    if s == "" then "" else (if IsDigit(s[0]) then [s[0]] else "") + Digits(s[1..])
  }

  function Groups(digits: string): seq<string> {
    if digits == "" then [] else if |digits| <= 4 then [digits] else [digits[..4]] + Groups(digits[4..])
  }

  function Spaced(group: string): string {
    if |group| <= 1 then group else [group[0]] + " " + Spaced(group[1..])
  }

  function SpacedAll(groups: seq<string>): (r: seq<string>)
    ensures |r| == |groups|
  {
    if groups == [] then [] else [Spaced(groups[0])] + SpacedAll(groups[1..])
  }

  function Join(parts: seq<string>, separator: string): string {
    if parts == [] then "" else if |parts| == 1 then parts[0] else parts[0] + separator + Join(parts[1..], separator)
  }

  function SpokenRow(digits: string): string {
    Join(SpacedAll(Groups(digits)), ", ")
  }

  function SpeakDigits(token: string): string {
    SpokenRow(Digits(token))
  }

  /** Where the k-th digit is spoken: two characters a digit, one more for each comma before it. */
  function PlaceOf(k: nat): nat {
    2 * k + k / 4
  }

  /** The speech of a row of digits: each in its place, a space between, a comma after every fourth. */
  ghost predicate Speaks(out: string, digits: string) {
    && |out| == (if digits == "" then 0 else PlaceOf(|digits| - 1) + 1)
    && (forall k :: 0 <= k < |digits| ==> out[PlaceOf(k)] == digits[k])
    && (forall k :: 0 <= k < |digits| - 1 ==>
          if k % 4 == 3 then out[PlaceOf(k) + 1] == ',' && out[PlaceOf(k) + 2] == ' ' else out[PlaceOf(k) + 1] == ' ')
  }

  lemma ShortRow(digits: string)
    requires |digits| <= 4
    ensures SpokenRow(digits) == Spaced(digits)
  {
    if digits != "" {
      assert [digits][1..] == [];
    }
  }

  lemma LongRow(digits: string)
    requires |digits| > 4
    ensures SpokenRow(digits) == Spaced(digits[..4]) + ", " + SpokenRow(digits[4..])
  {
    var first, rest := digits[..4], Groups(digits[4..]);
    SpacedCons(first, rest);
    JoinCons(Spaced(first), SpacedAll(rest), ", ");
  }

  lemma SpacedCons(group: string, rest: seq<string>)
    ensures SpacedAll([group] + rest) == [Spaced(group)] + SpacedAll(rest)
  {
    assert ([group] + rest)[1..] == rest;
  }

  lemma JoinCons(first: string, rest: seq<string>, separator: string)
    requires rest != []
    ensures Join([first] + rest, separator) == first + separator + Join(rest, separator)
  {
    assert ([first] + rest)[1..] == rest;
  }

  lemma {:induction false} SpacedAt(group: string)
    ensures |Spaced(group)| == if group == "" then 0 else 2 * |group| - 1
    ensures forall k :: 0 <= k < |group| ==> Spaced(group)[2 * k] == group[k]
    ensures forall k :: 0 <= k < |group| - 1 ==> Spaced(group)[2 * k + 1] == ' '
  {
    if |group| > 1 {
      SpacedAt(group[1..]);
      forall k | 1 <= k < |group| ensures Spaced(group)[2 * k] == group[k] {
        assert Spaced(group)[2 * k] == Spaced(group[1..])[2 * (k - 1)];
      }
      forall k | 1 <= k < |group| - 1 ensures Spaced(group)[2 * k + 1] == ' ' {
        assert Spaced(group)[2 * k + 1] == Spaced(group[1..])[2 * (k - 1) + 1];
      }
    }
  }

  lemma {:induction false} RowSpeaks(digits: string)
    ensures Speaks(SpokenRow(digits), digits)
  {
    if |digits| <= 4 {
      ShortRow(digits);
      SpacedAt(digits);
    } else {
      LongRow(digits);
      RowSpeaks(digits[4..]);
      SpacedAt(digits[..4]);
      OneGroupMore(Spaced(digits[..4]), SpokenRow(digits[4..]), digits);
    }
  }

  lemma OneGroupMore(first: string, others: string, digits: string)
    requires |digits| > 4 && |first| == 7 && Speaks(others, digits[4..])
    requires forall k :: 0 <= k < 4 ==> first[2 * k] == digits[k]
    requires forall k :: 0 <= k < 3 ==> first[2 * k + 1] == ' '
    ensures Speaks(first + ", " + others, digits)
  {
    var out := first + ", " + others;
    forall k | 0 <= k < |digits| ensures out[PlaceOf(k)] == digits[k] {
      if k >= 4 {
        assert PlaceOf(k) == 9 + PlaceOf(k - 4) && others[PlaceOf(k - 4)] == digits[4..][k - 4];
      } else {
        assert first[2 * k] == digits[k];
      }
    }
    forall k | 0 <= k < |digits| - 1
      ensures if k % 4 == 3 then out[PlaceOf(k) + 1] == ',' && out[PlaceOf(k) + 2] == ' '
              else out[PlaceOf(k) + 1] == ' '
    {
      if k >= 4 {
        assert PlaceOf(k) == 9 + PlaceOf(k - 4) && PlaceOf(k - 4 + 1) >= PlaceOf(k - 4) + 2;
      } else if k < 3 {
        assert first[2 * k + 1] == ' ';
      }
    }
  }

  lemma {:induction false} DigitsConcat(a: string, b: string)
    ensures Digits(a + b) == Digits(a) + Digits(b)
  {
    if a == "" {
      assert a + b == b;
    } else {
      assert (a + b)[1..] == a[1..] + b;
      DigitsConcat(a[1..], b);
    }
  }

  lemma {:induction false} DigitsOfDigits(d: string)
    requires forall i :: 0 <= i < |d| ==> IsDigit(d[i])
    ensures Digits(d) == d
  {
    if d == "" {
    } else {
      DigitsOfDigits(d[1..]);
    }
  }

  lemma {:induction false} DigitsOfSpaced(group: string)
    ensures Digits(Spaced(group)) == Digits(group)
  {
    if |group| > 1 {
      DigitsOfSpaced(group[1..]);
      DigitsConcat([group[0]] + " ", Spaced(group[1..]));
      DigitsConcat([group[0]], " ");
      DigitsConcat([group[0]], group[1..]);
      assert group == [group[0]] + group[1..];
    }
  }

  lemma {:induction false} DigitsOfRow(digits: string)
    requires forall i :: 0 <= i < |digits| ==> IsDigit(digits[i])
    ensures Digits(SpokenRow(digits)) == digits
  {
    if |digits| <= 4 {
      ShortRow(digits);
      DigitsOfSpaced(digits);
      DigitsOfDigits(digits);
    } else {
      LongRow(digits);
      var first, rest := digits[..4], digits[4..];
      DigitsOfRow(rest);
      DigitsOfSpaced(first);
      DigitsOfDigits(first);
      DigitsConcat(Spaced(first) + ", ", SpokenRow(rest));
      DigitsConcat(Spaced(first), ", ");
      SeparatorHasNoDigit();
    }
  }

  lemma SeparatorHasNoDigit()
    ensures Digits(", ") == ""
  {
    assert ", "[1..] == " ";
  }

  /** Nothing is lost and nothing is added: the digits heard are the token's, and speaking speech changes nothing. */
  lemma SpeechKeepsDigits(token: string)
    ensures Digits(SpeakDigits(token)) == Digits(token)
    ensures SpeakDigits(SpeakDigits(token)) == SpeakDigits(token)
    ensures Speaks(SpeakDigits(token), Digits(token))
  {
    DigitsOfRow(Digits(token));
    RowSpeaks(Digits(token));
  }

  // ---- electricity tokens ----------------------------------------------------------------------------------------

  type Roll = d: nat | d < 10

  /** A token as the provider prints it: twenty digits, a space after every fourth but the last. */
  ghost predicate Prints(token: string, rolls: seq<Roll>)
    requires |rolls| == 20
  {
    && |token| == 24
    && (forall i :: 0 <= i < 20 ==> token[i + i / 4] == '0' + rolls[i] as char)
    && (forall g :: 0 <= g < 4 ==> token[5 * g + 4] == ' ')
  }

  method Generate20DigitToken(rolls: seq<Roll>) returns (token: string)
    requires |rolls| == 20
    ensures Prints(token, rolls)
  {
    token := "";
    for i := 0 to 20
      invariant |token| == i + (if i == 20 then 4 else i / 4)
      invariant forall k :: 0 <= k < i ==> token[k + k / 4] == '0' + rolls[k] as char
      invariant forall g :: 0 <= g < 4 && 4 * g + 3 < i ==> token[5 * g + 4] == ' '
    {
      token := token + ['0' + rolls[i] as char];
      if i % 4 == 3 && i < 19 {
        token := token + " ";
      }
    }
  }

  function Quad(token: string, g: nat): string
    requires |token| == 24 && g < 5
  {
    token[5 * g..5 * g + 4]
  }

  ghost predicate IsQuad(group: string) {
    |group| == 4 && forall i :: 0 <= i < 4 ==> IsDigit(group[i])
  }

  /** Any groups of four digits, printed with a space between them, are spoken as exactly those groups. */
  lemma {:induction false} QuadsAreSpoken(groups: seq<string>)
    requires forall g :: 0 <= g < |groups| ==> IsQuad(groups[g])
    ensures Groups(Digits(Join(groups, " "))) == groups
  {
    if groups == [] {
    } else {
      var first, rest := groups[0], groups[1..];
      QuadsAreSpoken(rest);
      DigitsOfDigits(first);
      if rest == [] {
        assert groups == [first];
      } else {
        DigitsConcat(first + " ", Join(rest, " "));
        DigitsConcat(first, " ");
        assert Digits(" ") == "" by { assert " "[1..] == ""; }
        assert first + "" == first;
        GroupsOfQuad(first, Digits(Join(rest, " ")));
        assert groups == [first] + rest;
      }
    }
  }

  lemma GroupsOfQuad(first: string, rest: string)
    requires |first| == 4
    ensures Groups(first + rest) == [first] + Groups(rest)
  {
    assert (first + rest)[..4] == first && (first + rest)[4..] == rest;
    assert first + "" == first && [first] + [] == [first];
  }

  /** A generated token is spoken as its own five groups of four digits. */
  lemma TokenIsSpokenInItsGroups(token: string, rolls: seq<Roll>)
    requires |rolls| == 20 && Prints(token, rolls)
    ensures var groups := [Quad(token, 0), Quad(token, 1), Quad(token, 2), Quad(token, 3), Quad(token, 4)];
      && (forall g :: 0 <= g < 5 ==> IsQuad(groups[g]))
      && token == Join(groups, " ")
      && SpeakDigits(token) == Join(SpacedAll(groups), ", ")
  {
    var groups := [Quad(token, 0), Quad(token, 1), Quad(token, 2), Quad(token, 3), Quad(token, 4)];
    forall g: nat | g < 5 ensures IsQuad(groups[g]) {
      QuadIsDigits(token, rolls, g);
    }
    TokenIsJoined(token);
    QuadsAreSpoken(groups);
  }

  lemma QuadIsDigits(token: string, rolls: seq<Roll>, g: nat)
    requires |rolls| == 20 && Prints(token, rolls) && g < 5
    ensures IsQuad(Quad(token, g))
  {
    forall i | 0 <= i < 4 ensures IsDigit(Quad(token, g)[i]) {
      var k := 4 * g + i;
      assert k / 4 == g;
      assert token[k + k / 4] == '0' + rolls[k] as char;
    }
  }

  lemma TokenIsJoined(token: string)
    requires |token| == 24 && forall g :: 0 <= g < 4 ==> token[5 * g + 4] == ' '
    ensures token == Join([Quad(token, 0), Quad(token, 1), Quad(token, 2), Quad(token, 3), Quad(token, 4)], " ")
  {
    JoinFive(Quad(token, 0), Quad(token, 1), Quad(token, 2), Quad(token, 3), Quad(token, 4));
    forall g: nat | g < 4 ensures token[5 * g..] == Quad(token, g) + " " + token[5 * (g + 1)..] {
      assert token[5 * g + 4] == ' ';
    }
    assert token[5 * 0..] == token && token[5 * 4..] == Quad(token, 4);
    assert token[5 * 1..] == Quad(token, 1) + " " + token[5 * 2..];
    assert token[5 * 2..] == Quad(token, 2) + " " + token[5 * 3..];
    assert token[5 * 3..] == Quad(token, 3) + " " + token[5 * 4..];
  }

  lemma JoinFive(a: string, b: string, c: string, d: string, e: string)
    ensures Join([a, b, c, d, e], " ") == a + " " + (b + " " + (c + " " + (d + " " + e)))
  {
    JoinCons(d, [e], " ");
    JoinCons(c, [d, e], " ");
    JoinCons(b, [c, d, e], " ");
    JoinCons(a, [b, c, d, e], " ");
  }
}
