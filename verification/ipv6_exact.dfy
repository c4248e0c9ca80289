/** The parser reads nothing but spellings of addresses: what it accepts is exactly what the grammar writes. */
module Ipv6Exact {
  import opened Common
  import opened Ipv6Text

  // ---------------------------------------------------------------- joining undoes splitting

  lemma {:induction false} JoinSplit(s: string, c: char)
    ensures Join(Split(s, c), c) == s
    ensures forall i :: 0 <= i < |Split(s, c)| ==> c !in Split(s, c)[i]
    decreases |s|
  {
    var i := IndexOf(s, c);
    if i < |s| {
      JoinSplit(s[i + 1..], c);
      var rest := Split(s[i + 1..], c);
      assert Split(s, c) == [s[..i]] + rest && ([s[..i]] + rest)[1..] == rest;
      assert s == s[..i] + [c] + s[i + 1..];
    } else {
      assert s[..i] == s;
    }
  }

  lemma OneOrTwoHalves(s: string)
    requires |SplitDouble(s)| <= 2
    ensures s == if |SplitDouble(s)| == 1 then SplitDouble(s)[0] else SplitDouble(s)[0] + "::" + SplitDouble(s)[1]
  {
    var i := IndexOfDouble(s);
    if i < |s| {
      var rest := s[i + 2..];
      assert SplitDouble(s) == [s[..i]] + SplitDouble(rest);
      OneHalf(rest);
      assert s == s[..i] + "::" + rest;
    }
  }

  lemma OneHalf(s: string)
    requires |SplitDouble(s)| == 1
    ensures SplitDouble(s) == [s]
  {
  }

  /** The fields of one side. */
  function FieldsOf(side: string): seq<string> {
    if side == "" then [] else Split(side, ':')
  }

  lemma SideIsFields(side: string)
    requires ParseSide(side).Some?
    ensures Fields(FieldsOf(side)) && Join(FieldsOf(side), ':') == side &&
            ParseSide(side) == Some(Values(FieldsOf(side)))
  {
    if side != "" {
      JoinSplit(side, ':');
    }
  }

  /** Text without a dotted tail that is read is fields around at most one "::". */
  lemma ColonsAreFields(text: string) returns (head: seq<string>, back: Option<seq<string>>)
    requires ColonGroups(text).Some?
    ensures Fields(head) && (back.Some? ==> Fields(back.value))
    ensures if back.None? then |head| == 8 else |head| + |back.value| <= 7
    ensures text == if back.None? then Join(head, ':') else Join(head, ':') + "::" + Join(back.value, ':')
  {
    var halves := SplitDouble(text);
    OneOrTwoHalves(text);
    SideIsFields(halves[0]);
    head := FieldsOf(halves[0]);
    if |halves| == 1 {
      back := None;
    } else {
      SideIsFields(halves[1]);
      back := Some(FieldsOf(halves[1]));
    }
  }

  // ---------------------------------------------------------------- the dotted tail

  lemma DottedIsFour(text: string)
    requires Ipv4Octets(text).Some?
    ensures var dotted := Split(text, '.');
            && |dotted| == 4 && (forall i :: 0 <= i < 4 ==> IsOctetText(dotted[i]))
            && Join(dotted, '.') == text && Ipv4Octets(text) == Some(Octets(dotted))
  {
    JoinSplit(text, '.');
  }

  /** The fields before two last ones, when the text before them is empty or ends in a colon. */
  function Before(text: string): seq<string> {
    if text == "" then [] else Split(text[..|text| - 1], ':')
  }

  lemma BeforeIsFields(text: string)
    requires text == "" || text[|text| - 1] == ':'
    ensures text == if Before(text) == [] then "" else Join(Before(text), ':') + ":"
    ensures forall i :: 0 <= i < |Before(text)| ==> ':' !in Before(text)[i]
  {
    if text != "" {
      JoinSplit(text[..|text| - 1], ':');
      assert text == text[..|text| - 1] + ":";
    }
  }

  lemma LastTwo(fields: seq<string>, before: string, a: string, b: string)
    requires Fields(fields) && fields != [] && IsHex(a) && IsHex(b)
    requires before == "" || before[|before| - 1] == ':'
    requires Join(fields, ':') == before + a + ":" + b
    ensures fields == Before(before) + [a, b]
    ensures before == if Before(before) == [] then "" else Join(Before(before), ':') + ":"
  {
    var all := Before(before) + [a, b];
    BeforeIsFields(before);
    JoinTwo(Before(before), a, b);
    SplitJoin(all, ':');
    forall i | 0 <= i < |fields| ensures ':' !in fields[i] {
    }
    SplitJoin(fields, ':');
  }

  lemma FieldsOfPart(a: seq<string>, b: seq<string>)
    requires Fields(a + b)
    ensures Fields(a) && Fields(b)
  {
    forall i | 0 <= i < |a| ensures IsHex(a[i]) {
      assert IsHex((a + b)[i]);
    }
    forall i | 0 <= i < |b| ensures IsHex(b[i]) {
      assert IsHex((a + b)[|a| + i]);
    }
  }

  /** No "::" reaches into two fields at the end. */
  lemma DoubleComesBefore(before: string, a: string, b: string, j: nat)
    requires IsHex(a) && IsHex(b) && DoubleAt(before + a + ":" + b, j)
    ensures j + 1 < |before|
  {
  }

  /** The last "::" of fields that end in a dotted tail stands before the tail. */
  lemma TailIsInBack(before: string, a: string, b: string, head: seq<string>, back: seq<string>)
    requires IsHex(a) && IsHex(b) && Fields(head) && Fields(back)
    requires before == "" || before[|before| - 1] == ':'
    requires before + a + ":" + b == Join(head, ':') + "::" + Join(back, ':')
    ensures |Join(head, ':')| + 2 <= |before|
    ensures var inner := before[|Join(head, ':')| + 2..];
            && before == Join(head, ':') + "::" + inner
            && (inner == "" || inner[|inner| - 1] == ':') && Join(back, ':') == inner + a + ":" + b
  {
    TailAfterDouble(before, a, b, Join(head, ':'), Join(back, ':'));
  }

  lemma TailAfterDouble(before: string, a: string, b: string, left: string, right: string)
    requires IsHex(a) && IsHex(b) && (before == "" || before[|before| - 1] == ':')
    requires before + a + ":" + b == left + "::" + right
    ensures |left| + 2 <= |before|
    ensures var inner := before[|left| + 2..];
            before == left + "::" + inner && (inner == "" || inner[|inner| - 1] == ':') && right == inner + a + ":" + b
  {
    assert DoubleAt(left + "::" + right, |left|);
    DoubleComesBefore(before, a, b, |left|);
    assert before + a + ":" + b == before + (a + ":" + b);
    CutAtDouble(before, a + ":" + b, left, right);
    assert before[|left| + 2..] + a + ":" + b == before[|left| + 2..] + (a + ":" + b);
  }

  /** Where a text is cut in two ways, the longer first part holds the shorter one. */
  lemma CutAtDouble(before: string, tail: string, left: string, right: string)
    requires before + tail == left + "::" + right && |left| + 2 <= |before|
    ensures var inner := before[|left| + 2..]; before == left + "::" + inner && right == inner + tail
  {
    var text := before + tail;
    assert before == text[..|before|] && left + "::" == text[..|left| + 2];
    assert right == text[|left| + 2..];
  }

  // ---------------------------------------------------------------- what is read is spelled

  ghost predicate Spells(s: Spelling, rest: string, groups: seq<nat>) {
    WellSpelled(s) && s.zone.None? && BodyOf(s) == rest && GroupsOf(s) == groups
  }

  lemma PlainIsSpelled(rest: string) returns (s: Spelling)
    requires ColonGroups(rest).Some?
    ensures Spells(s, rest, ColonGroups(rest).value)
  {
    var head, back := ColonsAreFields(rest);
    s := Spelling(head, back, None, None);
    if back.None? {
      PlainEight(s);
    } else {
      PlainColons(s);
    }
  }

  lemma DottedIsSpelled(before: string, text: string) returns (s: Spelling)
    requires ':' !in text && '.' in text && (before == "" || before[|before| - 1] == ':')
    requires Undot(before + text).Some? && ColonGroups(Undot(before + text).value).Some?
    ensures Spells(s, before + text, ColonGroups(Undot(before + text).value).value)
  {
    AfterLastOf(before, ':', text);
    assert (before + text)[|before|..] == text;
    DottedIsFour(text);
    var dotted := Split(text, '.');
    UndotTail(before, dotted);
    PairsAreHex(Octets(dotted));
    s := TailIsSpelled(before, dotted);
    if s.back.None? {
      DottedSix(s);
    } else {
      DottedColons(s);
    }
  }

  lemma TailIsSpelled(before: string, dotted: seq<string>) returns (s: Spelling)
    requires |dotted| == 4 && forall i :: 0 <= i < 4 ==> IsOctetText(dotted[i])
    requires before == "" || before[|before| - 1] == ':'
    requires var pair := PairUp(Octets(dotted));
             IsHex(ToHex(pair[0])) && IsHex(ToHex(pair[1])) &&
                 ColonGroups(before + ToHex(pair[0]) + ":" + ToHex(pair[1])).Some?
    ensures WellSpelled(s) && s.zone.None? && s.dotted == Some(dotted) && BodyOf(s) == before + Join(dotted, '.')
  {
    var pair := PairUp(Octets(dotted));
    var a, b := ToHex(pair[0]), ToHex(pair[1]);
    var head, back := ColonsAreFields(before + a + ":" + b);
    if back.None? {
      s := TailOfEight(before, dotted, head, a, b);
    } else {
      s := TailOfBack(before, dotted, head, back.value, a, b);
    }
  }

  /** The tail comes after six fields. */
  lemma TailOfEight(before: string, dotted: seq<string>, head: seq<string>, a: string, b: string) returns (s: Spelling)
    requires |dotted| == 4 && forall i :: 0 <= i < 4 ==> IsOctetText(dotted[i])
    requires before == "" || before[|before| - 1] == ':'
    requires IsHex(a) && IsHex(b) && Fields(head) && |head| == 8 && before + a + ":" + b == Join(head, ':')
    ensures WellSpelled(s) && s.zone.None? && s.dotted == Some(dotted) && BodyOf(s) == before + Join(dotted, '.')
  {
    FieldsShape(head);
    LastTwo(head, before, a, b);
    FieldsOfPart(Before(before), [a, b]);
    s := Spelling(Before(before), None, Some(dotted), None);
  }

  /** The tail comes after a "::" and what follows it. */
  lemma TailOfBack(before: string, dotted: seq<string>, head: seq<string>, back: seq<string>, a: string, b: string)
      returns (s: Spelling)
    requires |dotted| == 4 && forall i :: 0 <= i < 4 ==> IsOctetText(dotted[i])
    requires before == "" || before[|before| - 1] == ':'
    requires IsHex(a) && IsHex(b) && Fields(head) && Fields(back) && |head| + |back| <= 7
    requires before + a + ":" + b == Join(head, ':') + "::" + Join(back, ':')
    ensures WellSpelled(s) && s.zone.None? && s.dotted == Some(dotted) && BodyOf(s) == before + Join(dotted, '.')
  {
    TailIsInBack(before, a, b, head, back);
    var inner := before[|Join(head, ':')| + 2..];
    FieldsShape(back);
    LastTwo(back, inner, a, b);
    FieldsOfPart(Before(inner), [a, b]);
    s := BackSpelling(head, Before(inner), dotted, before);
  }

  lemma BackSpelling(head: seq<string>, back: seq<string>, dotted: seq<string>, before: string) returns (s: Spelling)
    requires |dotted| == 4 && forall i :: 0 <= i < 4 ==> IsOctetText(dotted[i])
    requires Fields(head) && Fields(back) && |head| + |back| <= 5 && before == BeforeTail(head, back)
    ensures WellSpelled(s) && s.zone.None? && s.dotted == Some(dotted) && BodyOf(s) == before + Join(dotted, '.')
  {
    s := Spelling(head, Some(back), Some(dotted), None);
    DottedBody(s);
  }

  lemma RestIsSpelled(rest: string) returns (s: Spelling)
    requires Undot(rest).Some? && ColonGroups(Undot(rest).value).Some?
    ensures Spells(s, rest, ColonGroups(Undot(rest).value).value)
  {
    var before, text := CutTail(rest);
    if '.' in text {
      s := DottedRestIsSpelled(rest, before, text);
    } else {
      s := PlainRestIsSpelled(rest);
    }
  }

  lemma CutTail(rest: string) returns (before: string, text: string)
    ensures text == rest[AfterLast(rest, ':')..] && rest == before + text && ':' !in text
    ensures before == "" || before[|before| - 1] == ':'
  {
    var start := AfterLast(rest, ':');
    before, text := rest[..start], rest[start..];
  }

  lemma PlainRestIsSpelled(rest: string) returns (s: Spelling)
    requires '.' !in rest[AfterLast(rest, ':')..] && Undot(rest).Some? && ColonGroups(Undot(rest).value).Some?
    ensures Spells(s, rest, ColonGroups(Undot(rest).value).value)
  {
    assert Undot(rest) == Some(rest);
    s := PlainIsSpelled(rest);
  }

  lemma DottedRestIsSpelled(rest: string, before: string, text: string) returns (s: Spelling)
    requires rest == before + text && ':' !in text && '.' in text && (before == "" || before[|before| - 1] == ':')
    requires Undot(rest).Some? && ColonGroups(Undot(rest).value).Some?
    ensures Spells(s, rest, ColonGroups(Undot(rest).value).value)
  {
    s := DottedIsSpelled(before, text);
  }

  lemma ZoneAside(s: Spelling, zone: Option<string>)
    requires WellSpelled(s)
    ensures var zoned := s.(zone := zone);
            && WellSpelled(zoned) && GroupsOf(zoned) == GroupsOf(s)
            && TextOf(zoned) == BodyOf(s) + if zone.None? then "" else "%" + zone.value
  {
  }

  lemma ZoneIsSpelled(s: Spelling, text: string, groups: seq<nat>) returns (zoned: Spelling)
    requires Spells(s, text[..IndexOf(text, '%')], groups)
    ensures WellSpelled(zoned) && TextOf(zoned) == text && GroupsOf(zoned) == groups
  {
    var i := IndexOf(text, '%');
    var zone := if i == |text| then None else Some(text[i + 1..]);
    ZoneAside(s, zone);
    zoned := s.(zone := zone);
    assert text == text[..i] + if i == |text| then "" else "%" + text[i + 1..];
  }

  /** Text is read as eight groups if and only if it is one of their spellings. */
  lemma ReadsExactlySpellings(text: string, groups: seq<nat>)
    ensures Ipv6Groups(text) == Some(groups) <==>
            exists s :: WellSpelled(s) && TextOf(s) == text && GroupsOf(s) == groups
  {
    if Ipv6Groups(text) == Some(groups) {
      var s := RestIsSpelled(text[..IndexOf(text, '%')]);
      var zoned := ZoneIsSpelled(s, text, groups);
    }
    forall s | WellSpelled(s) && TextOf(s) == text && GroupsOf(s) == groups ensures Ipv6Groups(text) == Some(groups) {
      EverySpellingIsRead(s);
    }
  }

  // ---------------------------------------------------------------- what fields are

  /** A hex digit counts what its place in the alphabet says, in either case. */
  lemma HexDigitIs(c: char, value: nat)
    ensures HexDigit(c) == Some(value) <==>
            value < 16 && (c == "0123456789abcdef"[value] || c == "0123456789ABCDEF"[value])
  {
  }

  /** A field is one to four hex digits. */
  lemma FieldIs(s: string)
    ensures IsHex(s) <==> 0 < |s| < 5 && forall c :: c in s ==> c in "0123456789" || c in "abcdef" || c in "ABCDEF"
  {
    forall c ensures HexDigit(c).Some? <==> c in "0123456789" || c in "abcdef" || c in "ABCDEF" {
    }
  }

  /** Neither case nor leading zeros change what a field says: each digit counts sixteen times the one after it. */
  lemma {:induction false} FieldValue(s: string, i: nat)
    requires AllHex(s) && i <= |s|
    ensures AllHex(s[..i]) && AllHex(s[i..])
    ensures HexValue(s) == HexValue(s[..i]) * Power16(|s| - i) + HexValue(s[i..])
    decreases |s| - i
  {
    if i == |s| {
      assert s[..i] == s;
    } else {
      var n := |s| - 1;
      var before := s[..n];
      FieldValueOfPrefix(s, i);
      assert s[i..][..|s[i..]| - 1] == before[i..] && s[i..][|s[i..]| - 1] == s[n];
      Scale(HexValue(s[..i]), Power16(n - i), HexValue(before[i..]), HexDigit(s[n]).value);
    }
  }

  lemma {:induction false} FieldValueOfPrefix(s: string, i: nat)
    requires AllHex(s) && i < |s|
    ensures AllHex(s[..i]) && AllHex(s[..|s| - 1][i..])
    ensures HexValue(s[..|s| - 1]) == HexValue(s[..i]) * Power16(|s| - 1 - i) + HexValue(s[..|s| - 1][i..])
    decreases |s| - i, 0
  {
    var before := s[..|s| - 1];
    assert before[..i] == s[..i];
    FieldValue(before, i);
  }

  lemma Scale(high: nat, power: nat, low: nat, digit: nat)
    ensures (high * power + low) * 16 + digit == high * (16 * power) + (low * 16 + digit)
  {
  }

  /** An octet is one to three decimal digits, up to 255. */
  lemma OctetIs(s: string)
    ensures IsOctetText(s) <==>
            0 < |s| < 4 && (forall c :: c in s ==> c in "0123456789") && (AllDigits(s) ==> DecimalValue(s) < 256)
  {
    forall i | 0 <= i < |s| ensures '0' <= s[i] <= '9' <==> s[i] in "0123456789" {
      DigitIs(s[i]);
    }
    if forall c :: c in s ==> c in "0123456789" {
      assert forall i :: 0 <= i < |s| ==> s[i] in s;
    }
  }

  lemma DigitIs(c: char)
    ensures '0' <= c <= '9' <==> c in "0123456789"
  {
    if '0' <= c <= '9' {
      assert "0123456789"[(c - '0') as nat] == c;
    }
  }
}
