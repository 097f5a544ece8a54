/** Cache keys: a query is normalised by sorting object keys at every level and
    then written as JSON text (sections 4 to 7 of RFC 8259).

    A number is identified with the text JavaScript gives it, and a string is a
    sequence of Unicode scalar values. */
module CacheKeys {
  import opened Decimals

  datatype Json =
    | Null
    | Bool(b: bool)
    | Num(digits: string)
    | Str(text: string)
    | Arr(items: Items)
    | Obj(members: Members)

  datatype Items = NoItems | Item(head: Json, tail: Items)

  datatype Members = NoMembers | Member(key: string, value: Json, rest: Members)

  // ------------------------------------------------------- what a query means

  /** A JSON value with the order of object keys forgotten. */
  datatype Value =
    | VNull
    | VBool(b: bool)
    | VNum(digits: string)
    | VStr(text: string)
    | VArr(items: seq<Value>)
    | VObj(members: map<string, Value>)

  function Meaning(j: Json): Value {
    match j
    case Null => VNull
    case Bool(b) => VBool(b)
    case Num(digits) => VNum(digits)
    case Str(text) => VStr(text)
    case Arr(items) => VArr(ItemsMeaning(items))
    case Obj(members) => VObj(MembersMeaning(members))
  }

  function ItemsMeaning(items: Items): seq<Value> {
    match items
    case NoItems => []
    case Item(head, tail) => [Meaning(head)] + ItemsMeaning(tail)
  }

  function MembersMeaning(members: Members): map<string, Value> {
    match members
    case NoMembers => map[]
    case Member(key, value, rest) => MembersMeaning(rest)[key := Meaning(value)]
  }

  function Keys(members: Members): set<string> {
    match members
    case NoMembers => {}
    case Member(key, _, rest) => {key} + Keys(rest)
  }

  predicate IsNumChar(c: char) {
    '0' <= c <= '9' || c in {'-', '+', '.', 'e'}
  }

  /** What JavaScript writes a number with is number text, and values are built up
      freely, but for a key repeated in one object. */
  lemma ValuesAreWellFormed(j: Json, digits: string, items: Items, members: Members, key: string)
    ensures j.Null? || j.Bool? || j.Str? ==> WellFormed(j)
    ensures digits != [] && (forall i :: 0 <= i < |digits| ==> digits[i] in "0123456789-+.e") ==>
              WellFormed(Num(digits))
    ensures WellFormed(Arr(NoItems)) && WellFormed(Obj(NoMembers))
    ensures WellFormed(j) && WellFormed(Arr(items)) ==> WellFormed(Arr(Item(j, items)))
    ensures WellFormed(j) && WellFormed(Obj(members)) && key !in Keys(members) ==>
              WellFormed(Obj(Member(key, j, members)))
  {
  }

  /** Objects do not repeat a key, and numbers have number text. */
  predicate WellFormed(j: Json) {
    match j
    case Num(digits) => digits != [] && forall i :: 0 <= i < |digits| ==> IsNumChar(digits[i])
    case Arr(items) => ItemsWellFormed(items)
    case Obj(members) => MembersWellFormed(members)
    case _ => true
  }

  predicate ItemsWellFormed(items: Items) {
    match items
    case NoItems => true
    case Item(head, tail) => WellFormed(head) && ItemsWellFormed(tail)
  }

  predicate MembersWellFormed(members: Members) {
    match members
    case NoMembers => true
    case Member(key, value, rest) => key !in Keys(rest) && WellFormed(value) && MembersWellFormed(rest)
  }

  // ------------------------------------------------------------ key ordering

  predicate TextBefore(a: string, b: string) {
    b != [] && (a == [] || a[0] < b[0] || (a[0] == b[0] && TextBefore(a[1..], b[1..])))
  }

  /** The canonical text of an array index. */
  predicate IsIndex(s: string) {
    && s != [] && (forall i :: 0 <= i < |s| ==> '0' <= s[i] <= '9')
    && (s[0] == '0' ==> |s| == 1)
    && NumberOf(s) < 0xFFFF_FFFF
  }

  /** The order in which a JavaScript object filled in sorted key order lists its
      keys: array indices first, ascending (shorter text, then by digits), and
      then the other keys as sorted. */
  predicate Before(a: string, b: string) {
    if IsIndex(a) && IsIndex(b) then |a| < |b| || (|a| == |b| && TextBefore(a, b))
    else if IsIndex(a) || IsIndex(b) then IsIndex(a)
    else TextBefore(a, b)
  }

  lemma {:induction false} TextOrder(a: string, b: string)
    ensures !TextBefore(a, a)
    ensures a != b ==> TextBefore(a, b) || TextBefore(b, a)
  {
    if a != [] {
      TextOrder(a[1..], if b == [] then [] else b[1..]);
      if b != [] && a[0] == b[0] {
        assert a == [a[0]] + a[1..] && b == [b[0]] + b[1..];
      }
    }
  }

  lemma {:induction false} TextOrderTransitive(a: string, b: string, c: string)
    requires TextBefore(a, b) && TextBefore(b, c)
    ensures TextBefore(a, c)
  {
    if a != [] && a[0] == b[0] == c[0] {
      TextOrderTransitive(a[1..], b[1..], c[1..]);
    }
  }

  lemma BeforeIsTotalOrder(a: string, b: string, c: string)
    ensures !Before(a, a)
    ensures a != b ==> Before(a, b) || Before(b, a)
    ensures Before(a, b) && Before(b, c) ==> Before(a, c)
  {
    TextOrder(a, b);
    if TextBefore(a, b) && TextBefore(b, c) {
      TextOrderTransitive(a, b, c);
    }
  }

  /** The first difference decides, and a proper prefix comes first. */
  lemma {:induction false} TextOrderInFields(a: string, b: string, i: nat)
    requires i <= |a| && i < |b| && a[..i] == b[..i]
    requires i == |a| || a[i] < b[i]
    ensures TextBefore(a, b)
  {
    if i > 0 {
      assert a[0] == a[..i][0] == b[..i][0] == b[0];
      assert a[1..][..i - 1] == a[..i][1..] && b[1..][..i - 1] == b[..i][1..];
      TextOrderInFields(a[1..], b[1..], i - 1);
    }
  }

  /** The array indices are the numbers below 2^32 - 1 in decimal. */
  lemma IndicesAreDecimals(n: nat)
    ensures IsIndex(Decimal(n)) <==> n < 4294967295
  {
    DecimalReadsBack(n);
  }

  function Power(n: nat): nat {
    if n == 0 then 1 else 10 * Power(n - 1)
  }

  lemma {:induction false} ValueIsBelowThePower(s: string)
    requires forall i :: 0 <= i < |s| ==> '0' <= s[i] <= '9'
    ensures 0 <= NumberOf(s) < Power(|s|)
    ensures s != [] && s[0] != '0' ==> Power(|s| - 1) <= NumberOf(s)
  {
    if s != [] {
      ValueIsBelowThePower(s[..|s| - 1]);
    }
  }

  lemma {:induction false} PowersGrow(m: nat, n: nat)
    requires m <= n
    ensures Power(m) <= Power(n)
  {
    if m < n {
      PowersGrow(m, n - 1);
    }
  }

  lemma {:induction false} SameLengthOrder(a: string, b: string)
    requires |a| == |b| && TextBefore(a, b)
    requires forall i :: 0 <= i < |a| ==> '0' <= a[i] <= '9' && '0' <= b[i] <= '9'
    ensures NumberOf(a) < NumberOf(b)
  {
    var n := |a| - 1;
    if a[..n] == b[..n] {
      assert a == a[..n] + [a[n]] && b == b[..n] + [b[n]];
      LastDecides(a[..n], a[n], b[n]);
    } else {
      PrefixDecides(a, b);
      SameLengthOrder(a[..n], b[..n]);
    }
  }

  lemma {:induction false} LastDecides(front: string, c: char, d: char)
    requires TextBefore(front + [c], front + [d])
    ensures c < d
  {
    if front != [] {
      assert (front + [c])[1..] == front[1..] + [c] && (front + [d])[1..] == front[1..] + [d];
      LastDecides(front[1..], c, d);
    }
  }

  lemma {:induction false} PrefixDecides(a: string, b: string)
    requires |a| == |b| > 0 && TextBefore(a, b) && a[..|a| - 1] != b[..|b| - 1]
    ensures TextBefore(a[..|a| - 1], b[..|b| - 1])
  {
    var n := |a| - 1;
    if n > 0 && a[0] == b[0] {
      assert a[..n] == [a[0]] + a[1..][..n - 1] && b[..n] == [b[0]] + b[1..][..n - 1];
      PrefixDecides(a[1..], b[1..]);
      assert a[..n][1..] == a[1..][..n - 1] && b[..n][1..] == b[1..][..n - 1];
    }
  }

  lemma IndexOrderIsNumericOneWay(a: string, b: string)
    requires IsIndex(a) && IsIndex(b) && Before(a, b)
    ensures NumberOf(a) < NumberOf(b)
  {
    if |a| == |b| {
      SameLengthOrder(a, b);
    } else {
      ValueIsBelowThePower(a);
      ValueIsBelowThePower(b);
      PowersGrow(|a|, |b| - 1);
    }
  }

  /** Array indices come first, in numeric order; the other keys follow as text. */
  lemma KeyOrderInFields(a: string, b: string)
    ensures IsIndex(a) && IsIndex(b) ==> (Before(a, b) <==> NumberOf(a) < NumberOf(b))
    ensures IsIndex(a) && !IsIndex(b) ==> Before(a, b) && !Before(b, a)
    ensures !IsIndex(a) && !IsIndex(b) ==> (Before(a, b) <==> TextBefore(a, b))
  {
    if IsIndex(a) && IsIndex(b) {
      BeforeIsTotalOrder(a, b, a);
      if Before(a, b) {
        IndexOrderIsNumericOneWay(a, b);
      } else if Before(b, a) {
        IndexOrderIsNumericOneWay(b, a);
      }
    }
  }

  // ----------------------------------------------------------- normalisation

  /** Assigning to this key of a plain object sets its prototype instead of
      creating a property. */
  const PROTO := "__proto__"

  function Insert(key: string, value: Json, members: Members): Members {
    match members
    case NoMembers => Member(key, value, NoMembers)
    case Member(k, v, rest) =>
      if Before(key, k) then Member(key, value, members) else Member(k, v, Insert(key, value, rest))
  }

  function Normalize(j: Json): Json {
    match j
    case Arr(items) => Arr(NormalizeItems(items))
    case Obj(members) => Obj(NormalizeMembers(members))
    case _ => j
  }

  function NormalizeItems(items: Items): Items {
    match items
    case NoItems => NoItems
    case Item(head, tail) => Item(Normalize(head), NormalizeItems(tail))
  }

  function NormalizeMembers(members: Members): Members {
    match members
    case NoMembers => NoMembers
    case Member(key, value, rest) =>
      if key == PROTO then NormalizeMembers(rest) else Insert(key, Normalize(value), NormalizeMembers(rest))
  }

  /** The query without its `__proto__` members. */
  function Strip(j: Json): Json {
    match j
    case Arr(items) => Arr(StripItems(items))
    case Obj(members) => Obj(StripMembers(members))
    case _ => j
  }

  function StripItems(items: Items): Items {
    match items
    case NoItems => NoItems
    case Item(head, tail) => Item(Strip(head), StripItems(tail))
  }

  function StripMembers(members: Members): Members {
    match members
    case NoMembers => NoMembers
    case Member(key, value, rest) =>
      if key == PROTO then StripMembers(rest) else Member(key, Strip(value), StripMembers(rest))
  }

  /** Strictly ordered keys at every level. */
  predicate Normal(j: Json) {
    match j
    case Arr(items) => NormalItems(items)
    case Obj(members) => NormalMembers(members)
    case _ => true
  }

  predicate NormalItems(items: Items) {
    match items
    case NoItems => true
    case Item(head, tail) => Normal(head) && NormalItems(tail)
  }

  predicate NormalMembers(members: Members) {
    match members
    case NoMembers => true
    case Member(key, value, rest) =>
      Normal(value) && NormalMembers(rest) && (rest.Member? ==> Before(key, rest.key))
  }

  lemma {:induction false} InsertAddsKey(key: string, value: Json, members: Members)
    ensures Keys(Insert(key, value, members)) == {key} + Keys(members)
    ensures key !in Keys(members) && MembersWellFormed(members) && WellFormed(value) ==>
              MembersWellFormed(Insert(key, value, members))
  {
    if members.Member? {
      InsertAddsKey(key, value, members.rest);
    }
  }

  lemma {:induction false} InsertMeans(key: string, value: Json, members: Members)
    requires key !in Keys(members)
    ensures MembersMeaning(Insert(key, value, members)) == MembersMeaning(members)[key := Meaning(value)]
  {
    if members.Member? {
      InsertMeans(key, value, members.rest);
      var m := MembersMeaning(members.rest);
      assert m[key := Meaning(value)][members.key := Meaning(members.value)]
          == m[members.key := Meaning(members.value)][key := Meaning(value)];
    }
  }

  lemma {:induction false} InsertKeepsOrder(key: string, value: Json, members: Members)
    requires NormalMembers(members) && Normal(value) && key !in Keys(members)
    ensures NormalMembers(Insert(key, value, members))
  {
    if members.Member? {
      BeforeIsTotalOrder(key, members.key, key);
      InsertKeepsOrder(key, value, members.rest);
    }
  }

  lemma {:induction false} NormalizeWorks(j: Json)
    requires WellFormed(j)
    ensures Normal(Normalize(j)) && WellFormed(Normalize(j))
    ensures Meaning(Normalize(j)) == Meaning(Strip(j))
  {
    match j
    case Arr(items) => NormalizeItemsWorks(items);
    case Obj(members) => NormalizeMembersWorks(members);
    case _ =>
  }

  lemma {:induction false} NormalizeItemsWorks(items: Items)
    requires ItemsWellFormed(items)
    ensures NormalItems(NormalizeItems(items)) && ItemsWellFormed(NormalizeItems(items))
    ensures ItemsMeaning(NormalizeItems(items)) == ItemsMeaning(StripItems(items))
  {
    if items.Item? {
      NormalizeWorks(items.head);
      NormalizeItemsWorks(items.tail);
    }
  }

  lemma {:induction false} NormalizeMembersWorks(members: Members)
    requires MembersWellFormed(members)
    ensures NormalMembers(NormalizeMembers(members)) && MembersWellFormed(NormalizeMembers(members))
    ensures Keys(NormalizeMembers(members)) == Keys(members) - {PROTO}
    ensures MembersMeaning(NormalizeMembers(members)) == MembersMeaning(StripMembers(members))
  {
    if members.Member? {
      NormalizeWorks(members.value);
      NormalizeMembersWorks(members.rest);
      if members.key != PROTO {
        var value, rest := Normalize(members.value), NormalizeMembers(members.rest);
        InsertAddsKey(members.key, value, rest);
        InsertMeans(members.key, value, rest);
        InsertKeepsOrder(members.key, value, rest);
      }
    }
  }

  // --------------------------------------------- normal forms are canonical

  lemma {:induction false} FirstKeyIsLeast(members: Members)
    requires NormalMembers(members) && members.Member?
    ensures forall k :: k in Keys(members.rest) ==> Before(members.key, k)
    ensures members.key !in Keys(members.rest)
  {
    BeforeIsTotalOrder(members.key, members.key, members.key);
    if members.rest.Member? {
      FirstKeyIsLeast(members.rest);
      forall k | k in Keys(members.rest) ensures Before(members.key, k) {
        BeforeIsTotalOrder(members.key, members.rest.key, k);
      }
    }
  }

  lemma {:induction false} MeaningKeys(members: Members)
    ensures MembersMeaning(members).Keys == Keys(members)
  {
    if members.Member? {
      MeaningKeys(members.rest);
    }
  }

  lemma {:induction false} NormalFormIsUnique(a: Json, b: Json)
    requires Normal(a) && Normal(b) && Meaning(a) == Meaning(b)
    ensures a == b
  {
    match a
    case Arr(items) => NormalItemsAreUnique(items, b.items);
    case Obj(members) => NormalMembersAreUnique(members, b.members);
    case _ =>
  }

  lemma {:induction false} NormalItemsAreUnique(a: Items, b: Items)
    requires NormalItems(a) && NormalItems(b) && ItemsMeaning(a) == ItemsMeaning(b)
    ensures a == b
  {
    var ma, mb := ItemsMeaning(a), ItemsMeaning(b);
    if a.Item? {
      assert ma[1..] == ItemsMeaning(a.tail) && mb[1..] == ItemsMeaning(b.tail);
      assert ma[0] == mb[0];
      NormalFormIsUnique(a.head, b.head);
      NormalItemsAreUnique(a.tail, b.tail);
    }
  }

  lemma FirstKeysAgree(a: Members, b: Members)
    requires NormalMembers(a) && NormalMembers(b) && Keys(a) == Keys(b) && a.Member?
    ensures b.Member? && a.key == b.key
  {
    assert a.key in Keys(b);
    assert b.key in Keys(a);
    FirstKeyIsLeast(a);
    FirstKeyIsLeast(b);
    BeforeIsTotalOrder(a.key, b.key, a.key);
  }

  lemma RestMeans(members: Members)
    requires NormalMembers(members) && members.Member?
    ensures MembersMeaning(members.rest) == MembersMeaning(members) - {members.key}
  {
    FirstKeyIsLeast(members);
    MeaningKeys(members.rest);
  }

  lemma {:induction false} NormalMembersAreUnique(a: Members, b: Members)
    requires NormalMembers(a) && NormalMembers(b) && MembersMeaning(a) == MembersMeaning(b)
    ensures a == b
  {
    MeaningKeys(a);
    MeaningKeys(b);
    if a.Member? {
      FirstKeysAgree(a, b);
      assert MembersMeaning(a)[a.key] == MembersMeaning(b)[b.key];
      NormalFormIsUnique(a.value, b.value);
      RestMeans(a);
      RestMeans(b);
      NormalMembersAreUnique(a.rest, b.rest);
    }
  }

  // --------------------------------------------------------------- JSON text

  function HexDigit(n: int): char
    requires 0 <= n < 16
  {
    "0123456789abcdef"[n]
  }

  function EscapeChar(c: char): (r: string)
    ensures r != [] && r[0] != '"'
  {
    if c == '"' then "\\\""
    else if c == '\\' then "\\\\"
    else if c == '\U{8}' then "\\b"
    else if c == '\U{c}' then "\\f"
    else if c == '\n' then "\\n"
    else if c == '\r' then "\\r"
    else if c == '\t' then "\\t"
    else if c < ' ' then "\\u00" + [HexDigit(c as int / 16), HexDigit(c as int % 16)]
    else [c]
  }

  /** The escapes of section 7 of RFC 8259: quote, backslash and control characters
      only, the short forms where there is one and else the code in hexadecimal. */
  lemma EscapesInFields(c: char)
    ensures ' ' <= c && c != '"' && c != '\\' ==> EscapeChar(c) == [c]
    ensures EscapeChar('"') == "\\\"" && EscapeChar('\\') == "\\\\"
    ensures EscapeChar('\U{8}') == "\\b" && EscapeChar('\U{9}') == "\\t" && EscapeChar('\U{a}') == "\\n"
    ensures EscapeChar('\U{c}') == "\\f" && EscapeChar('\U{d}') == "\\r"
    ensures c < ' ' && c !in {'\U{8}', '\U{9}', '\U{a}', '\U{c}', '\U{d}'} ==>
              EscapeChar(c) == "\\u00" + [HexDigit(c as int / 16), HexDigit(c as int % 16)]
  {
  }

  // Each writer puts the text of its argument in front of what follows it.

  /** The rest of a quoted string, its closing quote, and what follows. */
  function WriteText(s: string, after: string): string {
    if s == [] then ['"'] + after else EscapeChar(s[0]) + WriteText(s[1..], after)
  }

  function Write(j: Json, after: string): string
    decreases j, 0
  {
    match j
    case Null => "null" + after
    case Bool(b) => (if b then "true" else "false") + after
    case Num(digits) => digits + after
    case Str(text) => ['"'] + WriteText(text, after)
    case Arr(items) =>
      ['['] + if items.NoItems? then [']'] + after else Write(items.head, WriteItems(items.tail, after))
    case Obj(members) =>
      ['{'] + if members.NoMembers? then ['}'] + after
              else WriteMember(members.key, members.value, WriteMembers(members.rest, after))
  }

  function WriteItems(items: Items, after: string): string
    decreases items, 0
  {
    match items
    case NoItems => [']'] + after
    case Item(head, tail) => [','] + Write(head, WriteItems(tail, after))
  }

  function WriteMember(key: string, value: Json, after: string): string
    decreases value, 1
  {
    ['"'] + WriteText(key, [':'] + Write(value, after))
  }

  function WriteMembers(members: Members, after: string): string
    decreases members, 0
  {
    match members
    case NoMembers => ['}'] + after
    case Member(key, value, rest) => [','] + WriteMember(key, value, WriteMembers(rest, after))
  }

  function Stringify(j: Json): string {
    Write(j, "")
  }

  function BuildTenantCacheKey(query: Json): string {
    Stringify(Normalize(query))
  }

  // --------------------------------------------- JSON text is unambiguous

  lemma SplitSame(a: string, b: string, x: string, y: string)
    requires a + x == b + y && |a| == |b|
    ensures a == b && x == y
  {
    assert a == (a + x)[..|a|] && b == (b + y)[..|b|];
    assert x == (a + x)[|a|..] && y == (b + y)[|b|..];
  }

  lemma EscapeCharIsPrefixFree(c: char, d: char, x: string, y: string)
    requires EscapeChar(c) + x == EscapeChar(d) + y
    ensures c == d && x == y
  {
    var ec, ed := EscapeChar(c), EscapeChar(d);
    var z := ec + x;
    assert forall i :: 0 <= i < |ec| ==> z[i] == ec[i];
    assert forall i :: 0 <= i < |ed| ==> z[i] == ed[i];
    assert ec[0] == ed[0];
    if |ec| > 1 && |ed| > 1 {
      assert ec[1] == ed[1];
    }
    if |ec| == 6 && |ed| == 6 {
      assert ec[4] == ed[4] && ec[5] == ed[5];
      HexIsInjective(c as int / 16, d as int / 16);
      HexIsInjective(c as int % 16, d as int % 16);
    }
    assert c == d;
    SplitSame(ec, ed, x, y);
  }

  lemma HexIsInjective(m: int, n: int)
    requires 0 <= m < 16 && 0 <= n < 16 && HexDigit(m) == HexDigit(n)
    ensures m == n
  {
  }

  lemma SameHead(c: char, d: char, x: string, y: string)
    requires [c] + x == [d] + y
    ensures c == d && x == y
  {
    assert ([c] + x)[0] == ([d] + y)[0];
    SplitSame([c], [d], x, y);
  }

  lemma TextStart(s: string, after: string)
    ensures WriteText(s, after) != []
    ensures WriteText(s, after)[0] == '"' <==> s == []
  {
  }

  lemma {:induction false} TextIsPrefixFree(s: string, t: string, x: string, y: string)
    requires WriteText(s, x) == WriteText(t, y)
    ensures s == t && x == y
  {
    TextStart(s, x);
    TextStart(t, y);
    if s == [] {
      SameHead('"', '"', x, y);
    } else {
      EscapeCharIsPrefixFree(s[0], t[0], WriteText(s[1..], x), WriteText(t[1..], y));
      TextIsPrefixFree(s[1..], t[1..], x, y);
      assert s == [s[0]] + s[1..] && t == [t[0]] + t[1..];
    }
  }

  /** Text that cannot continue a number. */
  predicate Ends(x: string) {
    x == [] || !IsNumChar(x[0])
  }

  lemma NumberEnds(m: string, n: string, x: string, y: string)
    requires (forall i :: 0 <= i < |m| ==> IsNumChar(m[i])) && (forall i :: 0 <= i < |n| ==> IsNumChar(n[i]))
    requires Ends(x) && Ends(y) && m + x == n + y
    ensures m == n && x == y
  {
    NumberIsNotShorter(m, n, x, y);
    NumberIsNotShorter(n, m, y, x);
    SplitSame(m, n, x, y);
  }

  lemma NumberIsNotShorter(m: string, n: string, x: string, y: string)
    requires forall i :: 0 <= i < |n| ==> IsNumChar(n[i])
    requires Ends(x) && m + x == n + y
    ensures |m| >= |n|
  {
    assert forall i :: 0 <= i < |n| ==> (n + y)[i] == n[i];
    assert x != [] ==> (m + x)[|m|] == x[0];
  }

  /** The character that tells which kind of value the text starts. */
  function Lead(j: Json): char
    requires WellFormed(j)
  {
    match j
    case Null => 'n'
    case Bool(b) => if b then 't' else 'f'
    case Num(digits) => digits[0]
    case Str(_) => '"'
    case Arr(_) => '['
    case Obj(_) => '{'
  }

  lemma LeadIsFirst(j: Json, after: string)
    requires WellFormed(j)
    ensures Write(j, after) != [] && Write(j, after)[0] == Lead(j)
  {
  }

  lemma {:induction false} WriteIsPrefixFree(a: Json, b: Json, x: string, y: string)
    requires WellFormed(a) && WellFormed(b) && Ends(x) && Ends(y)
    requires Write(a, x) == Write(b, y)
    ensures a == b && x == y
    decreases a, 1
  {
    LeadIsFirst(a, x);
    LeadIsFirst(b, y);
    match a
    case Null => SplitSame("null", "null", x, y);
    case Bool(c) => SplitSame(if c then "true" else "false", if c then "true" else "false", x, y);
    case Num(digits) => NumberEnds(digits, b.digits, x, y);
    case Str(text) =>
      SameHead('"', '"', WriteText(text, x), WriteText(b.text, y));
      TextIsPrefixFree(text, b.text, x, y);
    case Arr(items) => ArraysArePrefixFree(items, b.items, x, y);
    case Obj(members) => ObjectsArePrefixFree(members, b.members, x, y);
  }

  lemma {:induction false} ArraysArePrefixFree(a: Items, b: Items, x: string, y: string)
    requires ItemsWellFormed(a) && ItemsWellFormed(b) && Ends(x) && Ends(y)
    requires Write(Arr(a), x) == Write(Arr(b), y)
    ensures a == b && x == y
    decreases a, 1
  {
    var u := if a.NoItems? then [']'] + x else Write(a.head, WriteItems(a.tail, x));
    var v := if b.NoItems? then [']'] + y else Write(b.head, WriteItems(b.tail, y));
    SameHead('[', '[', u, v);
    if a.Item? {
      LeadIsFirst(a.head, WriteItems(a.tail, x));
    }
    if b.Item? {
      LeadIsFirst(b.head, WriteItems(b.tail, y));
    }
    if a.Item? && b.Item? {
      WriteIsPrefixFree(a.head, b.head, WriteItems(a.tail, x), WriteItems(b.tail, y));
      ItemsArePrefixFree(a.tail, b.tail, x, y);
    } else {
      SameHead(u[0], v[0], x, y);
    }
  }

  lemma {:induction false} ItemsArePrefixFree(a: Items, b: Items, x: string, y: string)
    requires ItemsWellFormed(a) && ItemsWellFormed(b) && Ends(x) && Ends(y)
    requires WriteItems(a, x) == WriteItems(b, y)
    ensures a == b && x == y
    decreases a, 0
  {
    assert WriteItems(a, x)[0] == WriteItems(b, y)[0];
    if a.Item? {
      SameHead(',', ',', Write(a.head, WriteItems(a.tail, x)), Write(b.head, WriteItems(b.tail, y)));
      WriteIsPrefixFree(a.head, b.head, WriteItems(a.tail, x), WriteItems(b.tail, y));
      ItemsArePrefixFree(a.tail, b.tail, x, y);
    } else {
      SameHead(']', ']', x, y);
    }
  }

  lemma {:induction false} ObjectsArePrefixFree(a: Members, b: Members, x: string, y: string)
    requires MembersWellFormed(a) && MembersWellFormed(b) && Ends(x) && Ends(y)
    requires Write(Obj(a), x) == Write(Obj(b), y)
    ensures a == b && x == y
    decreases a, 1
  {
    var u := if a.NoMembers? then ['}'] + x else WriteMember(a.key, a.value, WriteMembers(a.rest, x));
    var v := if b.NoMembers? then ['}'] + y else WriteMember(b.key, b.value, WriteMembers(b.rest, y));
    SameHead('{', '{', u, v);
    assert u[0] == v[0];
    if a.Member? {
      MemberIsPrefixFree(a, b, x, y);
    } else {
      SameHead('}', '}', x, y);
    }
  }

  lemma {:induction false} MemberIsPrefixFree(a: Members, b: Members, x: string, y: string)
    requires a.Member? && b.Member? && MembersWellFormed(a) && MembersWellFormed(b) && Ends(x) && Ends(y)
    requires WriteMember(a.key, a.value, WriteMembers(a.rest, x))
               == WriteMember(b.key, b.value, WriteMembers(b.rest, y))
    ensures a == b && x == y
    decreases a, 0
  {
    var ta, tb := Write(a.value, WriteMembers(a.rest, x)), Write(b.value, WriteMembers(b.rest, y));
    SameHead('"', '"', WriteText(a.key, [':'] + ta), WriteText(b.key, [':'] + tb));
    TextIsPrefixFree(a.key, b.key, [':'] + ta, [':'] + tb);
    SameHead(':', ':', ta, tb);
    WriteIsPrefixFree(a.value, b.value, WriteMembers(a.rest, x), WriteMembers(b.rest, y));
    MembersArePrefixFree(a.rest, b.rest, x, y);
  }

  lemma {:induction false} MembersArePrefixFree(a: Members, b: Members, x: string, y: string)
    requires MembersWellFormed(a) && MembersWellFormed(b) && Ends(x) && Ends(y)
    requires WriteMembers(a, x) == WriteMembers(b, y)
    ensures a == b && x == y
    decreases a, 1
  {
    assert WriteMembers(a, x)[0] == WriteMembers(b, y)[0];
    if a.Member? {
      SameHead(',', ',', WriteMember(a.key, a.value, WriteMembers(a.rest, x)),
               WriteMember(b.key, b.value, WriteMembers(b.rest, y)));
      MemberIsPrefixFree(a, b, x, y);
    } else {
      SameHead('}', '}', x, y);
    }
  }

  // ------------------------------------------------------------ main results

  /** Two queries share a cache key exactly when they are equal up to the order
      of object keys, `__proto__` members aside. */
  lemma KeyIsCanonical(a: Json, b: Json)
    requires WellFormed(a) && WellFormed(b)
    ensures BuildTenantCacheKey(a) == BuildTenantCacheKey(b) <==> Meaning(Strip(a)) == Meaning(Strip(b))
  {
    NormalizeWorks(a);
    NormalizeWorks(b);
    var na, nb := Normalize(a), Normalize(b);
    if Meaning(na) == Meaning(nb) {
      NormalFormIsUnique(na, nb);
    }
    if Stringify(na) == Stringify(nb) {
      WriteIsPrefixFree(na, nb, "", "");
    }
  }

  /** No object in the query has a `__proto__` key of its own. */
  predicate Plain(j: Json) {
    match j
    case Arr(items) => PlainItems(items)
    case Obj(members) => PlainMembers(members)
    case _ => true
  }

  predicate PlainItems(items: Items) {
    match items
    case NoItems => true
    case Item(head, tail) => Plain(head) && PlainItems(tail)
  }

  predicate PlainMembers(members: Members) {
    match members
    case NoMembers => true
    case Member(key, value, rest) => key != PROTO && Plain(value) && PlainMembers(rest)
  }

  function MemberCount(members: Members): nat {
    match members
    case NoMembers => 0
    case Member(_, _, rest) => 1 + MemberCount(rest)
  }

  lemma {:induction false} StrippingIsNotLonger(members: Members)
    ensures MemberCount(StripMembers(members)) <= MemberCount(members)
  {
    if members.Member? {
      StrippingIsNotLonger(members.rest);
    }
  }

  /** The plain queries are exactly those that lose nothing. */
  lemma {:induction false} PlainExactlyWhenKept(j: Json)
    ensures Plain(j) <==> Strip(j) == j
  {
    match j
    case Arr(items) => PlainItemsExactlyWhenKept(items);
    case Obj(members) => PlainMembersExactlyWhenKept(members);
    case _ =>
  }

  lemma {:induction false} PlainItemsExactlyWhenKept(items: Items)
    ensures PlainItems(items) <==> StripItems(items) == items
  {
    if items.Item? {
      PlainExactlyWhenKept(items.head);
      PlainItemsExactlyWhenKept(items.tail);
    }
  }

  lemma {:induction false} PlainMembersExactlyWhenKept(members: Members)
    ensures PlainMembers(members) <==> StripMembers(members) == members
  {
    if members.Member? {
      PlainExactlyWhenKept(members.value);
      PlainMembersExactlyWhenKept(members.rest);
      StrippingIsNotLonger(members.rest);
    }
  }

  /** Cache keys of plain queries are canonical and free of collisions. */
  lemma KeyIsCollisionFree(a: Json, b: Json)
    requires WellFormed(a) && WellFormed(b) && Plain(a) && Plain(b)
    ensures BuildTenantCacheKey(a) == BuildTenantCacheKey(b) <==> Meaning(a) == Meaning(b)
  {
    PlainExactlyWhenKept(a);
    PlainExactlyWhenKept(b);
    KeyIsCanonical(a, b);
  }

  /** A `__proto__` member is lost, so it can make two queries collide. */
  lemma ProtoCollides() returns (a: Json, b: Json)
    ensures WellFormed(a) && WellFormed(b) && Meaning(a) != Meaning(b)
    ensures BuildTenantCacheKey(a) == BuildTenantCacheKey(b)
  {
    a := Obj(Member(PROTO, Null, NoMembers));
    b := Obj(NoMembers);
    assert PROTO in MembersMeaning(a.members);
  }
}
