/** Reading the text of an IPv6 address (src/relay/address.ts, `ipv6Groups`, `ipv4Octets`, `embeddedIpv4`). */
module Ipv6Text {
  import opened Common

  // ---------------------------------------------------------------- pieces of text

  /** The first place of `c`, or the length. */
  function IndexOf(s: string, c: char): (i: nat)
    ensures i <= |s| && c !in s[..i]
    ensures i < |s| ==> s[i] == c
  {
    if s == "" then 0
    else if s[0] == c then 0
    else
      var i := IndexOf(s[1..], c);
      assert s[..i + 1] == [s[0]] + s[1..][..i];
      i + 1
  }

  /** Where the text after the last `c` starts; the whole text when there is none. */
  function AfterLast(s: string, c: char): (i: nat)
    ensures i <= |s| && c !in s[i..]
    ensures i > 0 ==> s[i - 1] == c
  {
    if s == "" then 0
    else if s[|s| - 1] == c then |s|
    else
      var i := AfterLast(s[..|s| - 1], c);
      assert s[i..] == s[..|s| - 1][i..] + [s[|s| - 1]];
      i
  }

  /** `split` on one character. */
  function Split(s: string, c: char): (parts: seq<string>)
    ensures parts != []
    decreases |s|
  {
    var i := IndexOf(s, c);
    if i == |s| then [s] else [s[..i]] + Split(s[i + 1..], c)
  }

  function Join(parts: seq<string>, c: char): string {
    if parts == [] then ""
    else if |parts| == 1 then parts[0]
    else parts[0] + [c] + Join(parts[1..], c)
  }

  predicate DoubleAt(s: string, i: nat) {
    i + 1 < |s| && s[i] == ':' && s[i + 1] == ':'
  }

  /** The first place of "::", or the length. */
  function IndexOfDouble(s: string): (i: nat)
    ensures i <= |s| && forall j: nat :: j < i ==> !DoubleAt(s, j)
    ensures i < |s| ==> DoubleAt(s, i)
  {
    if |s| < 2 then |s|
    else if s[0] == ':' && s[1] == ':' then 0
    else
      var i := IndexOfDouble(s[1..]);
      DoubleInTail(s);
      i + 1
  }

  lemma DoubleInTail(s: string)
    requires s != ""
    ensures forall j: nat :: 0 < j && DoubleAt(s, j) ==> DoubleAt(s[1..], j - 1)
  {
  }

  /** `split("::")`. */
  function SplitDouble(s: string): (halves: seq<string>)
    ensures halves != []
    decreases |s|
  {
    var i := IndexOfDouble(s);
    if i == |s| then [s] else [s[..i]] + SplitDouble(s[i + 2..])
  }

  // ---------------------------------------------------------------- numbers

  function HexDigit(c: char): Option<nat> {
    if '0' <= c <= '9' then Some((c - '0') as nat)
    else if 'a' <= c <= 'f' then Some((c - 'a') as nat + 10)
    else if 'A' <= c <= 'F' then Some((c - 'A') as nat + 10)
    else None
  }

  predicate AllHex(s: string) {
    forall i :: 0 <= i < |s| ==> HexDigit(s[i]).Some?
  }

  predicate IsHex(s: string) {
    1 <= |s| <= 4 && AllHex(s)
  }

  function HexValue(s: string): nat
    requires AllHex(s)
  {
    if s == "" then 0 else HexValue(s[..|s| - 1]) * 16 + HexDigit(s[|s| - 1]).value
  }

  const HEX: string := "0123456789abcdef"

  /** `toString(16)`. */
  function ToHex(n: nat): (s: string) {
    if n < 16 then [HEX[n]] else ToHex(n / 16) + [HEX[n % 16]]
  }

  predicate AllDigits(s: string) {
    forall i :: 0 <= i < |s| ==> '0' <= s[i] <= '9'
  }

  predicate IsDecimal(s: string) {
    1 <= |s| <= 3 && AllDigits(s)
  }

  function DecimalValue(s: string): nat
    requires AllDigits(s)
  {
    if s == "" then 0 else DecimalValue(s[..|s| - 1]) * 10 + (s[|s| - 1] - '0') as nat
  }

  // ---------------------------------------------------------------- the parser

  predicate IsOctetText(s: string) {
    IsDecimal(s) && DecimalValue(s) <= 255
  }

  function Ipv4Octets(text: string): (octets: Option<seq<nat>>)
    ensures octets.Some? ==> |octets.value| == 4 && forall i :: 0 <= i < 4 ==> octets.value[i] <= 255
  {
    var parts := Split(text, '.');
    if |parts| == 4 && forall i :: 0 <= i < 4 ==> IsOctetText(parts[i])
    then Some([DecimalValue(parts[0]), DecimalValue(parts[1]), DecimalValue(parts[2]), DecimalValue(parts[3])])
    else None
  }

  function Values(parts: seq<string>): (groups: seq<nat>)
    requires forall i :: 0 <= i < |parts| ==> IsHex(parts[i])
    ensures |groups| == |parts|
  {
    if parts == [] then []
    else
      assert IsHex(parts[0]);
      [HexValue(parts[0])] + Values(parts[1..])
  }

  /** The groups of one side of "::", which may be empty. */
  function ParseSide(side: string): Option<seq<nat>> {
    if side == "" then Some([])
    else
      var parts := Split(side, ':');
      if forall i :: 0 <= i < |parts| ==> IsHex(parts[i]) then Some(Values(parts)) else None
  }

  function Zeros(n: nat): seq<nat> {
    seq(n, _ => 0)
  }

  /** Everything after the zone and a dotted tail are dealt with. */
  function ColonGroups(rest: string): (groups: Option<seq<nat>>)
    ensures groups.Some? ==> |groups.value| == 8
  {
    var halves := SplitDouble(rest);
    if |halves| > 2 then None
    else
      var head := ParseSide(halves[0]);
      if head.None? then None
      else if |halves| == 1 then if |head.value| == 8 then head else None
      else
        var back := ParseSide(halves[1]);
        if back.None? || |head.value| + |back.value| > 7 then None
        else Some(head.value + Zeros(8 - |head.value| - |back.value|) + back.value)
  }

  /** Writes a dotted tail that starts at `start` as two fields. */
  function UndotFrom(rest: string, start: nat): Option<string>
    requires start <= |rest|
  {
    if '.' !in rest[start..] then Some(rest)
    else
      var v4 := Ipv4Octets(rest[start..]);
      if v4.None? then None
      else Some(rest[..start] + ToHex(v4.value[0] * 256 + v4.value[1]) + ":" + ToHex(v4.value[2] * 256 + v4.value[3]))
  }

  function Undot(rest: string): Option<string> {
    UndotFrom(rest, AfterLast(rest, ':'))
  }

  function Ipv6Groups(text: string): (groups: Option<seq<nat>>)
    ensures groups.Some? ==> |groups.value| == 8
  {
    var rest := text[..IndexOf(text, '%')];
    var undotted := Undot(rest);
    if undotted.None? then None else ColonGroups(undotted.value)
  }

  function EmbeddedIpv4(groups: seq<nat>): seq<nat>
    requires |groups| == 8
  {
    [groups[6] / 256, groups[6] % 256, groups[7] / 256, groups[7] % 256]
  }

  // ---------------------------------------------------------------- the spellings of an address

  /**
   The texts section 2.2 of RFC 4291 gives an address: hex fields before and after a "::" (or no "::" at all), then
   perhaps the last 32 bits in dotted decimal, then perhaps a zone. Fields may be in either case and have leading
   zeros, as long as each has at most four digits.
   */
  datatype Spelling = Spelling(head: seq<string>, back: Option<seq<string>>, dotted: Option<seq<string>>,
                               zone: Option<string>)

  ghost predicate Fields(parts: seq<string>) {
    forall i :: 0 <= i < |parts| ==> IsHex(parts[i])
  }

  ghost predicate WellSpelled(s: Spelling) {
    && Fields(s.head) && (s.back.Some? ==> Fields(s.back.value))
    && (s.dotted.Some? ==> |s.dotted.value| == 4 && forall i :: 0 <= i < 4 ==> IsOctetText(s.dotted.value[i]))
    && var fields := |s.head| + |s.back.GetOr([])| + (if s.dotted.Some? then 2 else 0);
    if s.back.None? then fields == 8 else fields <= 7
  }

  /** Colons around the dotted tail only where fields or nothing at all stand before it. */
  function WithTail(fields: seq<string>, dotted: Option<seq<string>>): string {
    if dotted.None? then Join(fields, ':')
    else (if fields == [] then "" else Join(fields, ':') + ":") + Join(dotted.value, '.')
  }

  function TextOf(s: Spelling): string {
    (if s.back.None? then WithTail(s.head, s.dotted)
     else Join(s.head, ':') + "::" + WithTail(s.back.value, s.dotted))
    + (if s.zone.None? then "" else "%" + s.zone.value)
  }

  function Octets(dotted: seq<string>): (octets: seq<nat>)
    requires |dotted| == 4 && forall i :: 0 <= i < 4 ==> IsOctetText(dotted[i])
    ensures |octets| == 4
  {
    assert IsOctetText(dotted[0]) && IsOctetText(dotted[1]) && IsOctetText(dotted[2]) && IsOctetText(dotted[3]);
    [DecimalValue(dotted[0]), DecimalValue(dotted[1]), DecimalValue(dotted[2]), DecimalValue(dotted[3])]
  }

  function PairUp(octets: seq<nat>): (groups: seq<nat>)
    requires |octets| == 4
    ensures |groups| == 2
  {
    [octets[0] * 256 + octets[1], octets[2] * 256 + octets[3]]
  }

  /** The address a spelling is of. */
  ghost function GroupsOf(s: Spelling): (groups: seq<nat>)
    requires WellSpelled(s)
    ensures |groups| == 8
  {
    var back := s.back.GetOr([]);
    var tail := if s.dotted.Some? then PairUp(Octets(s.dotted.value)) else [];
    var zeros := if s.back.None? then [] else Zeros(8 - |s.head| - |back| - |tail|);
    Values(s.head) + zeros + Values(back) + tail
  }

  // ---------------------------------------------------------------- splitting undoes joining

  lemma {:induction false} IndexOfIn(s: string, c: char, t: string)
    requires c !in s
    ensures IndexOf(s + [c] + t, c) == |s|
    ensures IndexOf(s, c) == |s|
  {
    if s != "" {
      assert (s + [c] + t)[1..] == s[1..] + [c] + t;
      assert s == [s[0]] + s[1..];
      IndexOfIn(s[1..], c, t);
    }
  }

  lemma {:induction false} SplitJoin(parts: seq<string>, c: char)
    requires parts != [] && forall i :: 0 <= i < |parts| ==> c !in parts[i]
    ensures Split(Join(parts, c), c) == parts
  {
    if |parts| == 1 {
      IndexOfIn(parts[0], c, "");
    } else {
      var rest := Join(parts[1..], c);
      IndexOfIn(parts[0], c, rest);
      SplitJoin(parts[1..], c);
      assert Join(parts, c)[|parts[0]| + 1..] == rest;
      assert Join(parts, c)[..|parts[0]|] == parts[0];
    }
  }

  lemma {:induction false} JoinAvoids(parts: seq<string>, sep: char, c: char)
    requires c != sep && forall i :: 0 <= i < |parts| ==> c !in parts[i]
    ensures c !in Join(parts, sep)
  {
    if |parts| > 1 {
      JoinAvoids(parts[1..], sep, c);
    }
  }

  lemma {:induction false} AfterLastOf(before: string, c: char, after: string)
    requires c !in after && (before == "" || before[|before| - 1] == c)
    ensures AfterLast(before + after, c) == |before|
  {
    if after != "" {
      var n := |after| - 1;
      assert (before + after)[..|before| + n] == before + after[..n];
      AfterLastOf(before, c, after[..n]);
    } else {
      assert before + after == before;
    }
  }

  // ---------------------------------------------------------------- hex fields

  /** A joined run of fields starts and ends with a digit and has no two colons in a row. */
  lemma {:induction false} FieldsShape(fields: seq<string>)
    requires Fields(fields)
    ensures fields == [] <==> Join(fields, ':') == ""
    ensures fields != [] ==> var text := Join(fields, ':'); text[0] != ':' && text[|text| - 1] != ':'
    ensures forall j: nat :: !DoubleAt(Join(fields, ':'), j)
  {
    if |fields| == 1 {
    } else if |fields| > 1 {
      FieldsShape(fields[1..]);
      var rest, text := Join(fields[1..], ':'), Join(fields, ':');
      assert text == fields[0] + ":" + rest;
      forall j: nat ensures !DoubleAt(text, j) {
        if |fields[0]| < j && j + 1 < |text| {
          assert text[j] == rest[j - |fields[0]| - 1] && text[j + 1] == rest[j - |fields[0]|];
          assert !DoubleAt(rest, j - |fields[0]| - 1);
        }
      }
    }
  }

  lemma SideOfFields(fields: seq<string>)
    requires Fields(fields)
    ensures ParseSide(Join(fields, ':')) == Some(Values(fields))
  {
    FieldsShape(fields);
    if fields != [] {
      forall i | 0 <= i < |fields| ensures ':' !in fields[i] {
      }
      SplitJoin(fields, ':');
    }
  }

  lemma NoDouble(fields: seq<string>)
    requires Fields(fields)
    ensures SplitDouble(Join(fields, ':')) == [Join(fields, ':')]
  {
    FieldsShape(fields);
  }

  lemma OneDouble(head: seq<string>, back: seq<string>)
    requires Fields(head) && Fields(back)
    ensures SplitDouble(Join(head, ':') + "::" + Join(back, ':')) == [Join(head, ':'), Join(back, ':')]
  {
    FieldsShape(head);
    NoDouble(back);
    var left, text := Join(head, ':'), Join(head, ':') + "::" + Join(back, ':');
    var i := IndexOfDouble(text);
    assert DoubleAt(text, |left|);
    assert i <= |left|;
    assert forall j: nat :: j + 1 < |left| && DoubleAt(text, j) ==> DoubleAt(left, j);
    assert i == |left|;
    assert text[..i] == left && text[i + 2..] == Join(back, ':');
  }

  /** Eight fields give the groups they spell. */
  lemma EightGive(fields: seq<string>)
    requires Fields(fields) && |fields| == 8
    ensures ColonGroups(Join(fields, ':')) == Some(Values(fields))
  {
    SideOfFields(fields);
    NoDouble(fields);
  }

  /** Fields on both sides of a "::" give the groups they spell, with zeros for the rest. */
  lemma ColonsGive(head: seq<string>, back: seq<string>)
    requires Fields(head) && Fields(back) && |head| + |back| <= 7
    ensures ColonGroups(Join(head, ':') + "::" + Join(back, ':'))
         == Some(Values(head) + Zeros(8 - |head| - |back|) + Values(back))
  {
    var left, right, text := Join(head, ':'), Join(back, ':'), Join(head, ':') + "::" + Join(back, ':');
    SideOfFields(head);
    SideOfFields(back);
    OneDouble(head, back);
  }

  // ---------------------------------------------------------------- the dotted tail

  lemma {:induction false} ToHexIsHex(n: nat, digits: nat)
    requires 1 <= digits <= 4 && n < Power16(digits)
    ensures 1 <= |ToHex(n)| <= digits && AllHex(ToHex(n)) && HexValue(ToHex(n)) == n
  {
    if n < 16 {
      HexDigits(n);
      assert ToHex(n)[..0] == "";
    } else {
      ToHexIsHex(n / 16, digits - 1);
      HexDigits(n % 16);
      var front := ToHex(n / 16);
      assert ToHex(n)[..|front|] == front;
    }
  }

  function Power16(digits: nat): nat {
    if digits == 0 then 1 else 16 * Power16(digits - 1)
  }

  lemma HexDigits(n: nat)
    requires n < 16
    ensures HexDigit(HEX[n]) == Some(n)
  {
  }

  lemma PairIsHex(a: nat, b: nat)
    requires a <= 255 && b <= 255
    ensures IsHex(ToHex(a * 256 + b)) && HexValue(ToHex(a * 256 + b)) == a * 256 + b
  {
    assert Power16(4) == 65536 by {
      assert Power16(1) == 16 && Power16(2) == 256 && Power16(3) == 4096;
    }
    ToHexIsHex(a * 256 + b, 4);
  }

  lemma DottedReads(dotted: seq<string>)
    requires |dotted| == 4 && forall i :: 0 <= i < 4 ==> IsOctetText(dotted[i])
    ensures var text := Join(dotted, '.');
            && ':' !in text && '%' !in text && '.' in text
            && Ipv4Octets(text) == Some(Octets(dotted))
  {
    forall i | 0 <= i < 4 ensures '.' !in dotted[i] && ':' !in dotted[i] && '%' !in dotted[i] {
    }
    SplitJoin(dotted, '.');
    JoinAvoids(dotted, '.', ':');
    JoinAvoids(dotted, '.', '%');
    assert Join(dotted, '.')[|dotted[0]|] == '.';
  }

  lemma {:induction false} JoinTwo(fields: seq<string>, a: string, b: string)
    ensures Join(fields + [a, b], ':') == (if fields == [] then "" else Join(fields, ':') + ":") + a + ":" + b
  {
    if fields == [] {
      assert fields + [a, b] == [a, b];
      assert [a, b][1..] == [b];
    } else {
      assert (fields + [a, b])[1..] == fields[1..] + [a, b];
      JoinTwo(fields[1..], a, b);
      if |fields| == 1 {
        assert fields[1..] == [];
      }
    }
  }

  ghost predicate FourOctets(octets: seq<nat>) {
    |octets| == 4 && octets[0] <= 255 && octets[1] <= 255 && octets[2] <= 255 && octets[3] <= 255
  }

  /** The two fields four octets are rewritten to. */
  lemma PairsAreHex(octets: seq<nat>)
    requires FourOctets(octets)
    ensures var pair := PairUp(octets);
            && IsHex(ToHex(pair[0])) && HexValue(ToHex(pair[0])) == pair[0]
            && IsHex(ToHex(pair[1])) && HexValue(ToHex(pair[1])) == pair[1]
  {
    PairIsHex(octets[0], octets[1]);
    PairIsHex(octets[2], octets[3]);
  }

  lemma UndotAt(before: string, text: string, octets: seq<nat>)
    requires ':' !in text && '.' in text && FourOctets(octets) && Ipv4Octets(text) == Some(octets)
    requires before == "" || before[|before| - 1] == ':'
    ensures Undot(before + text) == Some(before + ToHex(PairUp(octets)[0]) + ":" + ToHex(PairUp(octets)[1]))
  {
    AfterLastOf(before, ':', text);
    UndotHere(before, text, octets);
  }

  lemma UndotHere(before: string, text: string, octets: seq<nat>)
    requires '.' in text && FourOctets(octets) && Ipv4Octets(text) == Some(octets)
    ensures UndotFrom(before + text, |before|) ==
            Some(before + ToHex(PairUp(octets)[0]) + ":" + ToHex(PairUp(octets)[1]))
  {
  }

  lemma UndotTail(before: string, dotted: seq<string>)
    requires |dotted| == 4 && forall i :: 0 <= i < 4 ==> IsOctetText(dotted[i])
    requires before == "" || before[|before| - 1] == ':'
    ensures var pair := PairUp(Octets(dotted));
            Undot(before + Join(dotted, '.')) == Some(before + ToHex(pair[0]) + ":" + ToHex(pair[1]))
  {
    DottedReads(dotted);
    UndotAt(before, Join(dotted, '.'), Octets(dotted));
  }

  lemma {:induction false} ValuesAdd(a: seq<string>, b: seq<string>)
    requires Fields(a) && Fields(b)
    ensures Fields(a + b) && Values(a + b) == Values(a) + Values(b)
  {
    if a == [] {
      assert a + b == b;
    } else {
      ValuesAdd(a[1..], b);
      assert [a[0]] + a[1..] == a && [a[0]] + (a[1..] + b) == a + b;
      assert [HexValue(a[0])] + (Values(a[1..]) + Values(b)) == [HexValue(a[0])] + Values(a[1..]) + Values(b);
    }
  }

  // ---------------------------------------------------------------- without a zone

  function BodyOf(s: Spelling): string {
    if s.back.None? then WithTail(s.head, s.dotted) else Join(s.head, ':') + "::" + WithTail(s.back.value, s.dotted)
  }

  lemma FieldsAvoid(fields: seq<string>, c: char)
    requires Fields(fields) && c != ':' && HexDigit(c).None?
    ensures c !in Join(fields, ':')
  {
  }

  lemma TailAvoidsPercent(fields: seq<string>, dotted: Option<seq<string>>)
    requires Fields(fields)
    requires dotted.Some? ==> |dotted.value| == 4 && forall i :: 0 <= i < 4 ==> IsOctetText(dotted.value[i])
    ensures '%' !in WithTail(fields, dotted)
  {
    FieldsAvoid(fields, '%');
    if dotted.Some? {
      DottedReads(dotted.value);
    }
  }

  lemma PlainEight(s: Spelling)
    requires WellSpelled(s) && s.dotted.None? && s.back.None?
    ensures Undot(BodyOf(s)) == Some(BodyOf(s)) && ColonGroups(BodyOf(s)) == Some(GroupsOf(s))
  {
    FieldsAvoid(s.head, '.');
    EightGive(s.head);
    assert GroupsOf(s) == Values(s.head);
  }

  lemma PlainColons(s: Spelling)
    requires WellSpelled(s) && s.dotted.None? && s.back.Some?
    ensures Undot(BodyOf(s)) == Some(BodyOf(s)) && ColonGroups(BodyOf(s)) == Some(GroupsOf(s))
  {
    FieldsAvoid(s.head, '.');
    FieldsAvoid(s.back.value, '.');
    ColonsGive(s.head, s.back.value);
    PlainGroupsOf(s);
  }

  lemma PlainGroupsOf(s: Spelling)
    requires WellSpelled(s) && s.dotted.None? && s.back.Some?
    ensures GroupsOf(s) == Values(s.head) + Zeros(8 - |s.head| - |s.back.value|) + Values(s.back.value)
  {
  }

  function BeforeTail(head: seq<string>, back: seq<string>): string {
    Join(head, ':') + "::" + (if back == [] then "" else Join(back, ':') + ":")
  }

  lemma TwoFields(a: string, b: string)
    requires IsHex(a) && IsHex(b)
    ensures Fields([a, b]) && Values([a, b]) == [HexValue(a), HexValue(b)]
  {
  }

  /** Two fields after six others. */
  lemma TailAfterSix(head: seq<string>, a: string, b: string)
    requires Fields(head) && |head| == 6 && IsHex(a) && IsHex(b)
    ensures ColonGroups(Join(head, ':') + ":" + a + ":" + b) == Some(Values(head) + [HexValue(a), HexValue(b)])
  {
    JoinTwo(head, a, b);
    TwoFields(a, b);
    ValuesAdd(head, [a, b]);
    EightGive(head + [a, b]);
  }

  lemma TailText(head: seq<string>, back: seq<string>, a: string, b: string)
    ensures BeforeTail(head, back) + a + ":" + b == Join(head, ':') + "::" + Join(back + [a, b], ':')
  {
    JoinTwo(back, a, b);
  }

  lemma TailValues(back: seq<string>, a: string, b: string)
    requires Fields(back) && IsHex(a) && IsHex(b)
    ensures Fields(back + [a, b]) && Values(back + [a, b]) == Values(back) + [HexValue(a), HexValue(b)]
  {
    TwoFields(a, b);
    ValuesAdd(back, [a, b]);
  }

  /** Two fields after a "::" and what follows it. */
  lemma TailAfterColons(head: seq<string>, back: seq<string>, a: string, b: string)
    requires Fields(head) && Fields(back) && |head| + |back| <= 5 && IsHex(a) && IsHex(b)
    ensures ColonGroups(BeforeTail(head, back) + a + ":" + b)
         == Some(Values(head) + Zeros(8 - |head| - |back| - 2) + (Values(back) + [HexValue(a), HexValue(b)]))
  {
    TailText(head, back, a, b);
    TailValues(back, a, b);
    TailSums(head, back, a, b);
    ColonsGiveAll(head, back + [a, b], BeforeTail(head, back) + a + ":" + b,
                  Values(head) + Zeros(8 - |head| - |back| - 2) + (Values(back) + [HexValue(a), HexValue(b)]));
  }

  lemma ColonsGiveAll(head: seq<string>, back: seq<string>, text: string, groups: seq<nat>)
    requires Fields(head) && Fields(back) && |head| + |back| <= 7 && text == Join(head, ':') + "::" + Join(back, ':')
    requires groups == Values(head) + Zeros(8 - |head| - |back|) + Values(back)
    ensures ColonGroups(text) == Some(groups)
  {
    ColonsGive(head, back);
  }

  lemma TailSums(head: seq<string>, back: seq<string>, a: string, b: string)
    requires Fields(head) && Fields(back) && |head| + |back| <= 5 && IsHex(a) && IsHex(b) && Fields(back + [a, b])
    ensures Values(head) + Zeros(8 - |head| - |back + [a, b]|) + Values(back + [a, b])
         == Values(head) + Zeros(8 - |head| - |back| - 2) + (Values(back) + [HexValue(a), HexValue(b)])
  {
    TailValues(back, a, b);
  }

  lemma DottedSix(s: Spelling)
    requires WellSpelled(s) && s.dotted.Some? && s.back.None?
    ensures Undot(BodyOf(s)).Some? && ColonGroups(Undot(BodyOf(s)).value) == Some(GroupsOf(s))
  {
    var pair := PairUp(Octets(s.dotted.value));
    PairsAreHex(Octets(s.dotted.value));
    var before := Join(s.head, ':') + ":";
    assert BodyOf(s) == before + Join(s.dotted.value, '.');
    UndotTail(before, s.dotted.value);
    TailAfterSix(s.head, ToHex(pair[0]), ToHex(pair[1]));
    assert GroupsOf(s) == Values(s.head) + pair;
  }

  lemma DottedColons(s: Spelling)
    requires WellSpelled(s) && s.dotted.Some? && s.back.Some?
    ensures Undot(BodyOf(s)).Some? && ColonGroups(Undot(BodyOf(s)).value) == Some(GroupsOf(s))
  {
    var head, back, dotted := s.head, s.back.value, s.dotted.value;
    assert |head| + |back| <= 5;
    DottedBody(s);
    DottedReadsBack(head, back, dotted);
    assert Undot(BodyOf(s)) == Undot(BeforeTail(head, back) + Join(dotted, '.'));
    DottedGroupsOf(s);
  }

  lemma DottedReadsBack(head: seq<string>, back: seq<string>, dotted: seq<string>)
    requires Fields(head) && Fields(back) && |head| + |back| <= 5
    requires |dotted| == 4 && forall i :: 0 <= i < 4 ==> IsOctetText(dotted[i])
    ensures var undotted := Undot(BeforeTail(head, back) + Join(dotted, '.'));
            && undotted.Some?
            && ColonGroups(undotted.value) ==
                Some(Values(head) + Zeros(8 - |head| - |back| - 2) + (Values(back) + PairUp(Octets(dotted))))
  {
    var pair := PairUp(Octets(dotted));
    PairsAreHex(Octets(dotted));
    UndotTail(BeforeTail(head, back), dotted);
    TailAfterColons(head, back, ToHex(pair[0]), ToHex(pair[1]));
    assert pair == [pair[0], pair[1]];
  }

  lemma DottedBody(s: Spelling)
    requires s.dotted.Some? && s.back.Some?
    ensures BodyOf(s) == BeforeTail(s.head, s.back.value) + Join(s.dotted.value, '.')
  {
  }

  lemma DottedGroupsOf(s: Spelling)
    requires WellSpelled(s) && s.dotted.Some? && s.back.Some?
    ensures GroupsOf(s) == Values(s.head) + Zeros(8 - |s.head| - |s.back.value| - 2)
            + (Values(s.back.value) + PairUp(Octets(s.dotted.value)))
  {
  }

  // ---------------------------------------------------------------- every spelling is read

  /** Whatever spelling an address is given in, the parser reads its eight groups. */
  lemma EverySpellingIsRead(s: Spelling)
    requires WellSpelled(s)
    ensures Ipv6Groups(TextOf(s)) == Some(GroupsOf(s))
  {
    var body := BodyOf(s);
    TailAvoidsPercent(s.head, s.dotted);
    FieldsAvoid(s.head, '%');
    if s.back.Some? {
      TailAvoidsPercent(s.back.value, s.dotted);
    }
    var zone := s.zone.GetOr("");
    IndexOfIn(body, '%', zone);
    assert TextOf(s) == if s.zone.None? then body else body + ['%'] + zone;
    assert TextOf(s)[..IndexOf(TextOf(s), '%')] == body;
    if s.dotted.None? {
      if s.back.None? {
        PlainEight(s);
      } else {
        PlainColons(s);
      }
    } else {
      if s.back.None? {
        DottedSix(s);
      } else {
        DottedColons(s);
      }
    }
  }

  /** The four octets of a dotted tail come back from the groups. */
  lemma EmbeddedGivesOctets(s: Spelling)
    requires WellSpelled(s) && s.dotted.Some?
    ensures EmbeddedIpv4(GroupsOf(s)) == Octets(s.dotted.value)
  {
  }

  // ---------------------------------------------------------------- every address can be spelled

  function ToDecimal(n: nat): string {
    if n < 10 then [DIGITS[n]] else ToDecimal(n / 10) + [DIGITS[n % 10]]
  }

  const DIGITS: string := "0123456789"

  lemma {:induction false} ToDecimalReads(n: nat, digits: nat)
    requires 1 <= digits <= 3 && n < Power10(digits)
    ensures 1 <= |ToDecimal(n)| <= digits && AllDigits(ToDecimal(n)) && DecimalValue(ToDecimal(n)) == n
  {
    if n < 10 {
      DigitReads(n);
      assert ToDecimal(n)[..0] == "";
    } else {
      TenTimes(n, Power10(digits - 1));
      ToDecimalReads(n / 10, digits - 1);
      DigitReads(n % 10);
      var front := ToDecimal(n / 10);
      assert ToDecimal(n)[..|front|] == front;
    }
  }

  lemma TenTimes(n: nat, power: nat)
    requires n < 10 * power
    ensures n / 10 < power && n / 10 * 10 + n % 10 == n
  {
  }

  lemma DigitReads(n: nat)
    requires n < 10
    ensures '0' <= DIGITS[n] <= '9' && (DIGITS[n] - '0') as nat == n
  {
  }

  function Power10(digits: nat): nat {
    if digits == 0 then 1 else 10 * Power10(digits - 1)
  }

  lemma OctetReads(n: nat)
    requires n <= 255
    ensures IsOctetText(ToDecimal(n)) && DecimalValue(ToDecimal(n)) == n
  {
    assert Power10(3) == 1000 by {
      assert Power10(1) == 10 && Power10(2) == 100;
    }
    ToDecimalReads(n, 3);
  }

  function HexFields(groups: seq<nat>): (fields: seq<string>)
    ensures |fields| == |groups|
  {
    if groups == [] then [] else [ToHex(groups[0])] + HexFields(groups[1..])
  }

  function DottedOf(high: nat, low: nat): seq<string> {
    [ToDecimal(high / 256), ToDecimal(high % 256), ToDecimal(low / 256), ToDecimal(low % 256)]
  }

  /** A spelling with the zeros from `start` to `end` written as "::", and the last two groups dotted if asked. */
  function Spell(groups: seq<nat>, run: Option<(nat, nat)>, dotted: bool): Spelling
    requires |groups| == 8
    requires run.Some? ==> run.value.0 < run.value.1 <= (if dotted then 6 else 8)
  {
    var end := if dotted then 6 else 8;
    Spelling(HexFields(groups[..if run.Some? then run.value.0 else end]),
             if run.Some? then Some(HexFields(groups[run.value.1..end])) else None,
             if dotted then Some(DottedOf(groups[6], groups[7])) else None,
             None)
  }

  lemma FieldReads(n: nat)
    requires n < 65536
    ensures IsHex(ToHex(n)) && HexValue(ToHex(n)) == n
  {
    PairIsHex(n / 256, n % 256);
    assert n / 256 * 256 + n % 256 == n;
  }

  lemma {:induction false} HexFieldsRead(groups: seq<nat>)
    requires forall i :: 0 <= i < |groups| ==> groups[i] < 65536
    ensures Fields(HexFields(groups)) && Values(HexFields(groups)) == groups
  {
    if groups != [] {
      HexFieldsRead(groups[1..]);
      FieldReads(groups[0]);
    }
  }

  lemma DottedOfReads(high: nat, low: nat)
    requires high < 65536 && low < 65536
    ensures |DottedOf(high, low)| == 4 && forall i :: 0 <= i < 4 ==> IsOctetText(DottedOf(high, low)[i])
    ensures Octets(DottedOf(high, low)) == [high / 256, high % 256, low / 256, low % 256]
  {
    OctetReads(high / 256);
    OctetReads(high % 256);
    OctetReads(low / 256);
    OctetReads(low % 256);
    var dotted := DottedOf(high, low);
    assert IsOctetText(dotted[0]) && IsOctetText(dotted[1]) && IsOctetText(dotted[2]) && IsOctetText(dotted[3]);
  }

  lemma PairOfSplit(high: nat, low: nat)
    ensures PairUp([high / 256, high % 256, low / 256, low % 256]) == [high, low]
  {
  }

  ghost predicate CanShorten(groups: seq<nat>, run: Option<(nat, nat)>, dotted: bool) {
    && |groups| == 8 && (forall i :: 0 <= i < 8 ==> groups[i] < 65536)
    && (run.Some? ==> run.value.0 < run.value.1 <= (if dotted then 6 else 8)
                      && forall i :: run.value.0 <= i < run.value.1 ==> groups[i] == 0)
  }

  /** A printed address is well spelled, and spelled from the address's own groups. */
  lemma SpellFields(groups: seq<nat>, run: Option<(nat, nat)>, dotted: bool)
    requires CanShorten(groups, run, dotted)
    ensures var s, end := Spell(groups, run, dotted), if dotted then 6 else 8;
            && WellSpelled(s)
            && Values(s.head) == groups[..if run.Some? then run.value.0 else end]
            && (run.Some? ==> Values(s.back.value) == groups[run.value.1..end])
            && (dotted ==>
                  Octets(s.dotted.value) == [groups[6] / 256, groups[6] % 256, groups[7] / 256, groups[7] % 256])
  {
    var end := if dotted then 6 else 8;
    if dotted {
      DottedOfReads(groups[6], groups[7]);
    }
    HexFieldsRead(groups[..if run.Some? then run.value.0 else end]);
    if run.Some? {
      HexFieldsRead(groups[run.value.1..end]);
    }
  }

  lemma SpellIsOf(groups: seq<nat>, run: Option<(nat, nat)>, dotted: bool)
    requires CanShorten(groups, run, dotted) && WellSpelled(Spell(groups, run, dotted))
    requires var s, end := Spell(groups, run, dotted), if dotted then 6 else 8;
             && Values(s.head) == groups[..if run.Some? then run.value.0 else end]
             && (run.Some? ==> Values(s.back.value) == groups[run.value.1..end])
             && (dotted ==>
                   Octets(s.dotted.value) == [groups[6] / 256, groups[6] % 256, groups[7] / 256, groups[7] % 256])
    ensures GroupsOf(Spell(groups, run, dotted)) == groups
  {
    var s, end := Spell(groups, run, dotted), if dotted then 6 else 8;
    PairOfSplit(groups[6], groups[7]);
    var tail := if dotted then [groups[6], groups[7]] else [];
    assert tail == groups[end..];
    if run.None? {
    } else {
      assert Zeros(run.value.1 - run.value.0) == groups[run.value.0..run.value.1];
      Reassemble(groups, run.value.0, run.value.1, end);
      SpellZeros(groups, run, dotted);
    }
  }

  lemma Reassemble(groups: seq<nat>, a: nat, b: nat, c: nat)
    requires a <= b <= c <= |groups|
    ensures groups[..a] + groups[a..b] + groups[b..c] + groups[c..] == groups
  {
  }

  lemma SpellZeros(groups: seq<nat>, run: Option<(nat, nat)>, dotted: bool)
    requires CanShorten(groups, run, dotted) && run.Some? && WellSpelled(Spell(groups, run, dotted))
    ensures var s := Spell(groups, run, dotted);
            GroupsOf(s) == Values(s.head) + Zeros(run.value.1 - run.value.0) + Values(s.back.value)
                           + (if dotted then PairUp(Octets(s.dotted.value)) else [])
  {
  }

  /** Any eight groups, any run of zeros shortened, dotted or not: what is printed is read back. */
  lemma ReadsWhatIsPrinted(groups: seq<nat>, run: Option<(nat, nat)>, dotted: bool)
    requires CanShorten(groups, run, dotted)
    ensures Ipv6Groups(TextOf(Spell(groups, run, dotted))) == Some(groups)
  {
    SpellFields(groups, run, dotted);
    SpellIsOf(groups, run, dotted);
    EverySpellingIsRead(Spell(groups, run, dotted));
  }
}
