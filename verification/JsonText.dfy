/** JSON values, all their texts (sections 2 to 7 of RFC 8259), and the scanner's view of them. */
module JsonText {
  import opened Common
  import opened StreamScanner

  /** Strings are sequences of code points; a surrogate may stand alone, as the grammar allows. */
  datatype Json =
    | Null
    | Bool(value: bool)
    | Number(digits: seq<Byte>)
    | Str(chars: seq<nat>)
    | Arr(items: seq<Json>)
    | Obj(members: seq<Member>)

  datatype Member = Member(key: seq<nat>, value: Json)

  const COMMA: Byte := 44
  const COLON: Byte := 58
  const LBRACKET: Byte := 91
  const RBRACKET: Byte := 93
  const LETTER_U: Byte := 117

  predicate IsBlank(b: Byte) {
    b == 32 || b == 9 || b == 10 || b == 13
  }

  predicate IsNumberByte(b: Byte) {
    48 <= b <= 57 || b == 43 || b == 45 || b == 46 || b == 69 || b == 101
  }

  predicate AllBlank(ws: seq<Byte>) {
    forall b :: b in ws ==> IsBlank(b)
  }

  // ---------------------------------------------------------------- strings

  function HexValue(b: Byte): Option<nat> {
    if 48 <= b <= 57 then Some(b - 48)
    else if 65 <= b <= 70 then Some(b - 55)
    else if 97 <= b <= 102 then Some(b - 87)
    else None
  }

  /** A backslash, the letter u and four hexadecimal digits, in either case, of value `unit`. */
  predicate IsUnit(unit: int, s: seq<Byte>) {
    && |s| == 6 && s[0] == BACKSLASH && s[1] == LETTER_U
    && (forall i :: 2 <= i < 6 ==> HexValue(s[i]).Some?)
    && unit == HexValue(s[2]).value * 4096 + HexValue(s[3]).value * 256 + HexValue(s[4]).value * 16 +
      HexValue(s[5]).value
  }

  /** The letter of a two-character escape, and the character it stands for. */
  predicate IsShort(c: nat, letter: Byte) {
    || (c == letter && (c == 34 || c == 92 || c == 47))
    || (c == 8 && letter == 98) || (c == 12 && letter == 102) || (c == 10 && letter == 110)
    || (c == 13 && letter == 114) || (c == 9 && letter == 116)
  }

  predicate IsSurrogate(c: nat) {
    0xD800 <= c < 0xE000
  }

  /** Every way in which one character of a string may be written. */
  predicate IsSpelling(c: nat, s: seq<Byte>) {
    || (32 <= c < 0x110000 && c != QUOTE && c != BACKSLASH && !IsSurrogate(c) && s == Utf8Bytes(c))
    || (|s| == 2 && s[0] == BACKSLASH && IsShort(c, s[1]))
    || (c < 0x10000 && IsUnit(c, s))
    || (0x10000 <= c < 0x110000 && |s| == 12 &&
        IsUnit(0xD800 + (c - 0x10000) / 1024, s[..6]) && IsUnit(0xDC00 + (c - 0x10000) % 1024, s[6..]))
  }

  ghost predicate IsSpelled(chars: seq<nat>, body: seq<Byte>) {
    if chars == [] then body == []
    else exists s, rest :: body == s + rest && IsSpelling(chars[0], s) && IsSpelled(chars[1..], rest)
  }

  ghost predicate IsQuoted(chars: seq<nat>, t: seq<Byte>) {
    exists body :: t == [QUOTE] + body + [QUOTE] && IsSpelled(chars, body)
  }

  // ---------------------------------------------------------------- values

  /** The text `t` denotes the value: any permitted spelling of every character, any white space around
    * every structural character. */
  ghost predicate IsText(j: Json, t: seq<Byte>)
    decreases j, 1
  {
    match j
    case Null => t == [110, 117, 108, 108]
    case Bool(b) => t == if b then [116, 114, 117, 101] else [102, 97, 108, 115, 101]
    case Number(digits) => t == digits && t != [] && forall b :: b in digits ==> IsNumberByte(b)
    case Str(chars) => IsQuoted(chars, t)
    case Arr(items) => exists body :: t == [LBRACKET] + body + [RBRACKET] && IsItems(items, body)
    case Obj(members) => exists body :: t == [OPEN] + body + [CLOSE] && IsMembers(members, body)
  }

  /** What may stand between the brackets of an array. */
  ghost predicate IsItems(items: seq<Json>, t: seq<Byte>)
    decreases items, 0
  {
    if items == [] then AllBlank(t)
    else exists item, rest ::
      && t == item + rest && IsPadded(items[0], item)
      && (if |items| == 1 then rest == [] else rest != [] && rest[0] == COMMA && IsItems(items[1..], rest[1..]))
  }

  ghost predicate IsPadded(j: Json, t: seq<Byte>)
    decreases j, 2
  {
    exists before, text, after :: t == before + text + after && AllBlank(before) && IsText(j, text) && AllBlank(after)
  }

  /** What may stand between the braces of an object. */
  ghost predicate IsMembers(members: seq<Member>, t: seq<Byte>)
    decreases members, 0
  {
    if members == [] then AllBlank(t)
    else exists member, rest ::
      && t == member + rest && IsMember(members[0], member)
      && (if |members| == 1 then rest == [] else rest != [] && rest[0] == COMMA && IsMembers(members[1..], rest[1..]))
  }

  ghost predicate IsMember(m: Member, t: seq<Byte>)
    decreases m, 3
  {
    exists key, value :: t == key + [COLON] + value && IsKey(m.key, key) && IsPadded(m.value, value)
  }

  ghost predicate IsKey(key: seq<nat>, t: seq<Byte>) {
    exists before, text, after :: t == before + text + after && AllBlank(before) && IsQuoted(key, text) &&
      AllBlank(after)
  }

  // ---------------------------------------------------------------- one printer

  /** The values that have a text. */
  predicate WellFormed(j: Json)
    decreases j
  {
    match j
    case Number(digits) => digits != [] && forall b :: b in digits ==> IsNumberByte(b)
    case Str(chars) => AllCodes(chars)
    case Arr(items) => forall i :: 0 <= i < |items| ==> WellFormed(items[i])
    case Obj(members) => forall i :: 0 <= i < |members| ==> AllCodes(members[i].key) && WellFormed(members[i].value)
    case _ => true
  }

  predicate AllCodes(chars: seq<nat>) {
    forall i :: 0 <= i < |chars| ==> chars[i] < 0x110000
  }

  function Hex(n: int): Byte
    requires 0 <= n < 16
  {
    if n < 10 then 48 + n else 87 + n
  }

  function Unit(n: nat): seq<Byte>
    requires n < 0x10000
  {
    [BACKSLASH, LETTER_U, Hex(n / 4096), Hex(n / 256 % 16), Hex(n / 16 % 16), Hex(n % 16)]
  }

  function Spell(c: nat): seq<Byte>
    requires c < 0x110000
  {
    if c < 32 || c == QUOTE || c == BACKSLASH || IsSurrogate(c) then Unit(c) else Utf8Bytes(c)
  }

  function SpellAll(chars: seq<nat>): (r: seq<Byte>)
    requires AllCodes(chars)
  {
    if chars == [] then [] else Spell(chars[0]) + SpellAll(chars[1..])
  }

  function Print(j: Json): (r: seq<Byte>)
    requires WellFormed(j)
    decreases j, 1
  {
    match j
    case Null => [110, 117, 108, 108]
    case Bool(b) => if b then [116, 114, 117, 101] else [102, 97, 108, 115, 101]
    case Number(digits) => digits
    case Str(chars) => [QUOTE] + SpellAll(chars) + [QUOTE]
    case Arr(items) => [LBRACKET] + PrintItems(items) + [RBRACKET]
    case Obj(members) => [OPEN] + PrintMembers(members) + [CLOSE]
  }

  function PrintItems(items: seq<Json>): (r: seq<Byte>)
    requires forall i :: 0 <= i < |items| ==> WellFormed(items[i])
    decreases items, 0
  {
    if items == [] then []
    else Print(items[0]) + (if |items| == 1 then [] else [COMMA] + PrintItems(items[1..]))
  }

  function PrintMembers(members: seq<Member>): (r: seq<Byte>)
    requires forall i :: 0 <= i < |members| ==> AllCodes(members[i].key) && WellFormed(members[i].value)
    decreases members, 0
  {
    if members == [] then []
    else PrintMember(members[0]) + (if |members| == 1 then [] else [COMMA] + PrintMembers(members[1..]))
  }

  function PrintMember(m: Member): (r: seq<Byte>)
    requires AllCodes(m.key) && WellFormed(m.value)
    decreases m, 2
  {
    ([QUOTE] + SpellAll(m.key) + [QUOTE]) + [COLON] + Print(m.value)
  }

  lemma UnitIsUnit(n: nat)
    requires n < 0x10000
    ensures IsUnit(n, Unit(n))
  {
    HexBack(n / 4096);
    HexBack(n / 256 % 16);
    HexBack(n / 16 % 16);
    HexBack(n % 16);
    FourDigits(n);
  }

  lemma HexBack(n: int)
    requires 0 <= n < 16
    ensures HexValue(Hex(n)) == Some(n)
  {
  }

  lemma FourDigits(n: nat)
    ensures n == n / 4096 * 4096 + n / 256 % 16 * 256 + n / 16 % 16 * 16 + n % 16
  {
    assert n / 16 == n / 256 * 16 + n / 16 % 16;
    assert n / 256 == n / 4096 * 16 + n / 256 % 16;
  }

  lemma {:induction false} SpelledIsSpelled(chars: seq<nat>)
    requires AllCodes(chars)
    ensures IsSpelled(chars, SpellAll(chars))
    decreases |chars|
  {
    if chars != [] {
      if chars[0] < 0x10000 {
        UnitIsUnit(chars[0]);
      }
      assert IsSpelling(chars[0], Spell(chars[0]));
      SpelledIsSpelled(chars[1..]);
    }
  }

  lemma QuotedIsQuoted(chars: seq<nat>)
    requires AllCodes(chars)
    ensures IsQuoted(chars, [QUOTE] + SpellAll(chars) + [QUOTE])
    ensures IsKey(chars, [QUOTE] + SpellAll(chars) + [QUOTE])
  {
    SpelledIsSpelled(chars);
    var t := [QUOTE] + SpellAll(chars) + [QUOTE];
    assert IsQuoted(chars, t) && AllBlank([]) && t == [] + t + [];
  }

  lemma TextIsPadded(j: Json, t: seq<Byte>)
    requires IsText(j, t)
    ensures IsPadded(j, t)
  {
    assert AllBlank([]) && t == [] + t + [];
  }

  /** Every well-formed value has a text. */
  lemma {:induction false} PrintIsText(j: Json)
    requires WellFormed(j)
    ensures IsText(j, Print(j))
    decreases j, 1
  {
    match j
    case Str(chars) => QuotedIsQuoted(chars);
    case Arr(items) => PrintedItems(items);
    case Obj(members) => PrintedMembers(members);
    case _ =>
  }

  lemma {:induction false} PrintedItems(items: seq<Json>)
    requires forall i :: 0 <= i < |items| ==> WellFormed(items[i])
    ensures IsItems(items, PrintItems(items))
    decreases items, 0
  {
    if items != [] {
      PrintIsText(items[0]);
      TextIsPadded(items[0], Print(items[0]));
      if |items| == 1 {
        assert PrintItems(items) == Print(items[0]) + [];
      } else {
        PrintedItems(items[1..]);
        var rest := [COMMA] + PrintItems(items[1..]);
        assert rest[1..] == PrintItems(items[1..]);
        assert PrintItems(items) == Print(items[0]) + rest;
      }
    }
  }

  lemma {:induction false} PrintedMembers(members: seq<Member>)
    requires forall i :: 0 <= i < |members| ==> AllCodes(members[i].key) && WellFormed(members[i].value)
    ensures IsMembers(members, PrintMembers(members))
    decreases members, 0
  {
    hide IsMember, PrintMember;
    if members != [] {
      var member := PrintMember(members[0]);
      PrintedMember(members[0]);
      if |members| == 1 {
        assert PrintMembers(members) == member + [];
      } else {
        PrintedMembers(members[1..]);
        var rest := [COMMA] + PrintMembers(members[1..]);
        assert rest[1..] == PrintMembers(members[1..]);
        assert PrintMembers(members) == member + rest;
      }
    }
  }

  lemma {:induction false} PrintedMember(m: Member)
    requires AllCodes(m.key) && WellFormed(m.value)
    ensures IsMember(m, PrintMember(m))
    decreases m, 2
  {
    QuotedIsQuoted(m.key);
    PrintIsText(m.value);
    TextIsPadded(m.value, Print(m.value));
  }

  // ---------------------------------------------------------------- what the scanner makes of it

  /** What holds inside an object holds one level deeper. */
  lemma {:induction false} SkimDeeper(m: Mode, text: seq<Byte>)
    requires m.depth >= 1 && Skim(m, text).Some?
    ensures Skim(m.(depth := m.depth + 1), text) ==
            Some(Skim(m, text).value.(depth := Skim(m, text).value.depth + 1))
    decreases |text|
  {
    if text != [] {
      SkimDeeper(Next(m, text[0]), text[1..]);
    }
  }

  const INSIDE := Mode(1, false, false)
  const IN_STRING := Mode(1, true, false)

  /** Text that leaves the scanner as it was: inside the same object, outside strings. */
  ghost predicate Neutral(text: seq<Byte>) {
    Skim(INSIDE, text) == Some(INSIDE)
  }

  lemma NeutralConcat(a: seq<Byte>, b: seq<Byte>)
    requires Neutral(a) && Neutral(b)
    ensures Neutral(a + b)
  {
    SkimAppend(INSIDE, a, b);
  }

  /** Bytes that mean nothing to the scanner outside strings. */
  predicate Plain(b: Byte) {
    b != QUOTE && b != BACKSLASH && b != OPEN && b != CLOSE
  }

  lemma {:induction false} PlainIsNeutral(text: seq<Byte>)
    requires forall b :: b in text ==> Plain(b)
    ensures Neutral(text)
    decreases |text|
  {
    if text != [] {
      assert text[0] in text;
      PlainIsNeutral(text[1..]);
    }
  }

  lemma BlankIsNeutral(ws: seq<Byte>)
    requires AllBlank(ws)
    ensures Neutral(ws)
  {
    PlainIsNeutral(ws);
  }

  lemma OneIsNeutral(b: Byte)
    requires Plain(b)
    ensures Neutral([b]) && Neutral([])
  {
    PlainIsNeutral([b]);
    PlainIsNeutral([]);
  }

  // ---------------------------------------------------------------- strings to the scanner

  /** Bytes that are neither quote nor backslash leave the scanner inside the string. */
  lemma {:induction false} OrdinaryStaysInside(text: seq<Byte>)
    requires forall b :: b in text ==> b != QUOTE && b != BACKSLASH
    ensures Skim(IN_STRING, text) == Some(IN_STRING)
    decreases |text|
  {
    if text != [] {
      assert text[0] in text && forall b :: b in text[1..] ==> b in text;
      OrdinaryStaysInside(text[1..]);
    }
  }

  /** A backslash takes the next byte with it, whatever it is. */
  lemma EscapeStaysInside(x: Byte, rest: seq<Byte>)
    requires forall b :: b in rest ==> b != QUOTE && b != BACKSLASH
    ensures Skim(IN_STRING, [BACKSLASH, x] + rest) == Some(IN_STRING)
  {
    OrdinaryStaysInside(rest);
    var t := [BACKSLASH, x] + rest;
    assert t[1..] == [x] + rest && ([x] + rest)[1..] == rest;
  }

  lemma UnitStaysInside(unit: int, s: seq<Byte>)
    requires IsUnit(unit, s)
    ensures Skim(IN_STRING, s) == Some(IN_STRING)
  {
    assert s == [BACKSLASH, LETTER_U] + s[2..];
    forall b | b in s[2..] ensures b != QUOTE && b != BACKSLASH {
      var i :| 2 <= i < 6 && s[i] == b;
      assert HexValue(s[i]).Some?;
    }
    EscapeStaysInside(LETTER_U, s[2..]);
  }

  /** However a character is written, the scanner stays inside the string. */
  lemma SpellingStaysInside(c: nat, s: seq<Byte>)
    requires IsSpelling(c, s)
    ensures Skim(IN_STRING, s) == Some(IN_STRING)
  {
    if |s| == 2 && s[0] == BACKSLASH && IsShort(c, s[1]) {
      EscapeStaysInside(s[1], []);
      assert s == [BACKSLASH, s[1]] + [];
    } else if c < 0x10000 && IsUnit(c, s) {
      UnitStaysInside(c, s);
    } else if 32 <= c < 0x110000 && c != QUOTE && c != BACKSLASH && !IsSurrogate(c) && s == Utf8Bytes(c) {
      OrdinaryStaysInside(s);
    } else {
      var high, low := 0xD800 + (c - 0x10000) / 1024, 0xDC00 + (c - 0x10000) % 1024;
      UnitStaysInside(high, s[..6]);
      UnitStaysInside(low, s[6..]);
      SkimAppend(IN_STRING, s[..6], s[6..]);
      assert s == s[..6] + s[6..];
    }
  }

  lemma {:induction false} SpelledStaysInside(chars: seq<nat>, body: seq<Byte>)
    requires IsSpelled(chars, body)
    ensures Skim(IN_STRING, body) == Some(IN_STRING)
    decreases |chars|
  {
    if chars != [] {
      var s, rest :| body == s + rest && IsSpelling(chars[0], s) && IsSpelled(chars[1..], rest);
      SpellingStaysInside(chars[0], s);
      SkimAppend(IN_STRING, s, rest);
      SpelledStaysInside(chars[1..], rest);
    }
  }

  lemma QuotedIsNeutral(chars: seq<nat>, t: seq<Byte>)
    requires IsQuoted(chars, t)
    ensures Neutral(t)
  {
    var body :| t == [QUOTE] + body + [QUOTE] && IsSpelled(chars, body);
    SpelledStaysInside(chars, body);
    SkimAppend(IN_STRING, body, [QUOTE]);
    assert [QUOTE][1..] == [];
    assert t[1..] == body + [QUOTE];
  }

  /** An object inside an object is read to its closing brace, whatever stands between. */
  lemma BracedIsNeutral(body: seq<Byte>)
    requires Neutral(body)
    ensures Neutral([OPEN] + body + [CLOSE])
  {
    SkimDeeper(INSIDE, body);
    SkimAppend(Mode(2, false, false), body, [CLOSE]);
    assert [CLOSE][1..] == [];
    assert ([OPEN] + body + [CLOSE])[1..] == body + [CLOSE];
  }

  // ---------------------------------------------------------------- values to the scanner

  /** No text of a value ends the object around it, whatever its strings contain. */
  lemma {:induction false} TextIsNeutral(j: Json, t: seq<Byte>)
    requires IsText(j, t)
    ensures Neutral(t)
    decreases j, 1
  {
    match j
    case Null => PlainIsNeutral(t);
    case Bool(_) => PlainIsNeutral(t);
    case Number(digits) => PlainIsNeutral(t);
    case Str(chars) => QuotedIsNeutral(chars, t);
    case Arr(items) =>
      var body :| t == [LBRACKET] + body + [RBRACKET] && IsItems(items, body);
      ItemsNeutral(items, body);
      OneIsNeutral(LBRACKET);
      OneIsNeutral(RBRACKET);
      NeutralConcat([LBRACKET], body);
      NeutralConcat([LBRACKET] + body, [RBRACKET]);
    case Obj(members) =>
      var body :| t == [OPEN] + body + [CLOSE] && IsMembers(members, body);
      MembersNeutral(members, body);
      BracedIsNeutral(body);
  }

  lemma {:induction false} PaddedNeutral(j: Json, t: seq<Byte>)
    requires IsPadded(j, t)
    ensures Neutral(t)
    decreases j, 2
  {
    var before, text, after :| t == before + text + after && AllBlank(before) && IsText(j, text) && AllBlank(after);
    BlankIsNeutral(before);
    TextIsNeutral(j, text);
    BlankIsNeutral(after);
    NeutralConcat(before, text);
    NeutralConcat(before + text, after);
  }

  /** A comma and the rest of a list. */
  lemma CommaNeutral(rest: seq<Byte>)
    requires rest != [] && rest[0] == COMMA && Neutral(rest[1..])
    ensures Neutral(rest)
  {
    OneIsNeutral(COMMA);
    NeutralConcat([COMMA], rest[1..]);
    assert rest == [COMMA] + rest[1..];
  }

  lemma {:induction false} ItemsNeutral(items: seq<Json>, t: seq<Byte>)
    requires IsItems(items, t)
    ensures Neutral(t)
    decreases items, 0
  {
    if items == [] {
      BlankIsNeutral(t);
    } else {
      var item, rest :|
        && t == item + rest && IsPadded(items[0], item)
        && (if |items| == 1 then rest == [] else rest != [] && rest[0] == COMMA && IsItems(items[1..], rest[1..]));
      PaddedNeutral(items[0], item);
      OneIsNeutral(COMMA);
      if |items| > 1 {
        ItemsNeutral(items[1..], rest[1..]);
        CommaNeutral(rest);
      }
      NeutralConcat(item, rest);
    }
  }

  lemma {:induction false} MembersNeutral(members: seq<Member>, t: seq<Byte>)
    requires IsMembers(members, t)
    ensures Neutral(t)
    decreases members, 0
  {
    if members == [] {
      BlankIsNeutral(t);
    } else {
      var member, rest :|
        && t == member + rest && IsMember(members[0], member)
        && (if |members| == 1
          then rest == [] else rest != [] && rest[0] == COMMA && IsMembers(members[1..], rest[1..]));
      MemberNeutral(members[0], member);
      OneIsNeutral(COMMA);
      if |members| > 1 {
        MembersNeutral(members[1..], rest[1..]);
        CommaNeutral(rest);
      }
      NeutralConcat(member, rest);
    }
  }

  lemma {:induction false} MemberNeutral(m: Member, t: seq<Byte>)
    requires IsMember(m, t)
    ensures Neutral(t)
    decreases m, 3
  {
    var key, value :| t == key + [COLON] + value && IsKey(m.key, key) && IsPadded(m.value, value);
    KeyNeutral(m.key, key);
    OneIsNeutral(COLON);
    PaddedNeutral(m.value, value);
    NeutralConcat(key, [COLON]);
    NeutralConcat(key + [COLON], value);
  }

  lemma KeyNeutral(key: seq<nat>, t: seq<Byte>)
    requires IsKey(key, t)
    ensures Neutral(t)
  {
    var before, text, after :| t == before + text + after && AllBlank(before) && IsQuoted(key, text) && AllBlank(after);
    BlankIsNeutral(before);
    QuotedIsNeutral(key, text);
    BlankIsNeutral(after);
    NeutralConcat(before, text);
    NeutralConcat(before + text, after);
  }

  // ---------------------------------------------------------------- streams of objects

  /** Texts in a row, each preceded by a separator, and a last separator. */
  function Document(texts: seq<seq<Byte>>, seps: seq<seq<Byte>>): (r: seq<Byte>)
    requires |seps| == |texts| + 1
    decreases |texts|
  {
    if texts == [] then seps[0] else seps[0] + texts[0] + Document(texts[1..], seps[1..])
  }

  lemma ObjectIsFound(found: seq<seq<Byte>>, members: seq<Member>, text: seq<Byte>)
    requires IsText(Obj(members), text)
    ensures FeedAll(Scan(found, [], OUTSIDE), text) == Scan(found + [text], [], OUTSIDE)
  {
    var body :| text == [OPEN] + body + [CLOSE] && IsMembers(members, body);
    MembersNeutral(members, body);
    var front := [OPEN] + body;
    assert front[1..] == body;
    assert Skim(OUTSIDE, front) == Some(INSIDE);
    SkimFeeds(Scan(found, [], OUTSIDE), front);
    FeedAllAppend(Scan(found, [], OUTSIDE), front, [CLOSE]);
    FeedOne(Scan(found, front, INSIDE), CLOSE);
    assert [] + front == front;
  }

  lemma NextIsFound(found: seq<seq<Byte>>, sep: seq<Byte>, members: seq<Member>, text: seq<Byte>, rest: seq<Byte>)
    requires OPEN !in sep && IsText(Obj(members), text)
    ensures FeedAll(Scan(found, [], OUTSIDE), sep + text + rest) ==
            FeedAll(Scan(found + [text], [], OUTSIDE), rest)
  {
    var s := Scan(found, [], OUTSIDE);
    FeedAllAppend(s, sep + text, rest);
    FeedAllAppend(s, sep, text);
    FeedSkips(s, sep);
    ObjectIsFound(found, members, text);
  }

  /** The texts denote the objects, one by one. */
  ghost predicate AreTexts(objects: seq<Json>, texts: seq<seq<Byte>>) {
    |texts| == |objects| && forall i :: 0 <= i < |objects| ==> objects[i].Obj? && IsText(objects[i], texts[i])
  }

  lemma {:induction false} DocumentIsSplit(found: seq<seq<Byte>>, objects: seq<Json>, texts: seq<seq<Byte>>,
                                           seps: seq<seq<Byte>>)
    requires AreTexts(objects, texts) && |seps| == |texts| + 1
    requires forall i :: 0 <= i < |seps| ==> OPEN !in seps[i]
    ensures FeedAll(Scan(found, [], OUTSIDE), Document(texts, seps)) == Scan(found + texts, [], OUTSIDE)
    decreases |texts|
  {
    if texts == [] {
      FeedSkips(Scan(found, [], OUTSIDE), seps[0]);
      assert found + [] == found;
    } else {
      assert objects[0].Obj? && IsText(objects[0], texts[0]);
      NextIsFound(found, seps[0], objects[0].members, texts[0], Document(texts[1..], seps[1..]));
      assert AreTexts(objects[1..], texts[1..]);
      DocumentIsSplit(found + [texts[0]], objects[1..], texts[1..], seps[1..]);
      assert found + [texts[0]] + texts[1..] == found + texts;
    }
  }

  /** Round trip: whatever texts JSON objects are written with, joined by separators without an opening
    * brace, they are cut out of the stream exactly as written and in order, whatever braces, quotes and
    * backslashes their strings and keys contain. */
  lemma WrittenObjectsAreFound(objects: seq<Json>, texts: seq<seq<Byte>>, seps: seq<seq<Byte>>)
    requires AreTexts(objects, texts) && |seps| == |texts| + 1
    requires forall i :: 0 <= i < |seps| ==> OPEN !in seps[i]
    ensures Split(Document(texts, seps)) == texts
  {
    DocumentIsSplit([], objects, texts, seps);
    assert [] + texts == texts;
  }

  lemma {:induction false} SkimPrefix(m: Mode, text: seq<Byte>, k: nat)
    requires Skim(m, text).Some? && k <= |text|
    ensures Skim(m, text[..k]).Some?
    decreases k
  {
    if k > 0 {
      assert text[..k][1..] == text[1..][..k - 1];
      SkimPrefix(Next(m, text[0]), text[1..], k - 1);
    }
  }

  /** An object that is cut off, at whatever place, is not found and spoils nothing before it. */
  lemma UnfinishedIsNotFound(objects: seq<Json>, texts: seq<seq<Byte>>, seps: seq<seq<Byte>>, cut: Json,
                             text: seq<Byte>, k: nat)
    requires AreTexts(objects, texts) && |seps| == |texts| + 1
    requires forall i :: 0 <= i < |seps| ==> OPEN !in seps[i]
    requires cut.Obj? && IsText(cut, text) && k < |text|
    ensures Split(Document(texts, seps) + text[..k]) == texts
  {
    DocumentIsSplit([], objects, texts, seps);
    assert [] + texts == texts;
    FeedAllAppend(BLANK, Document(texts, seps), text[..k]);
    var body :| text == [OPEN] + body + [CLOSE] && IsMembers(cut.members, body);
    MembersNeutral(cut.members, body);
    var front := [OPEN] + body;
    assert front[1..] == body && text[..k] == front[..k];
    SkimPrefix(OUTSIDE, front, k);
    SkimFeeds(Scan(texts, [], OUTSIDE), text[..k]);
  }
}
