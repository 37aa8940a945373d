/**
 The simple regular expressions of the vendored test framework: the validator against a
 grammar, and the backtracking matcher against a declarative meaning of patterns.
 A C string is a sequence of characters; its terminating NUL is the end of the sequence.
 */
module SimpleRegex {

  // ---------- characters ----------

  predicate IsAsciiDigit(ch: char) {
    '0' <= ch <= '9'
  }

  predicate IsAsciiPunct(ch: char) {
    ch in {'^', '-', '!', '\"', '#', '$', '%', '&', '\'', '(', ')', '*', '+', ',', '.', '/', ':', ';', '<', '=', '>',
      '?', '@', '[', '\\', ']', '_', '`', '{', '|', '}', '~'}
  }

  predicate IsRepeat(ch: char) {
    ch in {'?', '*', '+'}
  }

  predicate IsUnsupported(ch: char) {
    ch in {'(', ')', '[', ']', '{', '}', '|'}
  }

  /** Whether a repetition may follow the unescaped `ch`. */
  predicate IsRepeatable(ch: char) {
    ch !in {'^', '$', '?', '*', '+'}
  }

  predicate IsAsciiWhiteSpace(ch: char) {
    ch in {' ', '\U{0C}', '\n', '\r', '\t', '\U{0B}'}
  }

  predicate IsAsciiWordChar(ch: char) {
    'a' <= ch <= 'z' || 'A' <= ch <= 'Z' || '0' <= ch <= '9' || ch == '_'
  }

  predicate IsValidEscape(c: char) {
    IsAsciiPunct(c) || c in {'d', 'D', 'f', 'n', 'r', 's', 'S', 't', 'v', 'w', 'W'}
  }

  predicate AtomMatchesChar(escaped: bool, patternChar: char, ch: char) {
    if escaped then
      match patternChar
      case 'd' => IsAsciiDigit(ch)
      case 'D' => !IsAsciiDigit(ch)
      case 'f' => ch == '\U{0C}'
      case 'n' => ch == '\n'
      case 'r' => ch == '\r'
      case 's' => IsAsciiWhiteSpace(ch)
      case 'S' => !IsAsciiWhiteSpace(ch)
      case 't' => ch == '\t'
      case 'v' => ch == '\U{0B}'
      case 'w' => IsAsciiWordChar(ch)
      case 'W' => !IsAsciiWordChar(ch)
      case _ => IsAsciiPunct(patternChar) && patternChar == ch
    else (patternChar == '.' && ch != '\n') || patternChar == ch
  }

  // ---------- the grammar ----------

  datatype Atom = Atom(escaped: bool, c: char)

  datatype Item = Once(atom: Atom) | Repeated(atom: Atom, repeat: char)

  /** `^`, items and `$`, the first and the last optional. */
  datatype Pattern = Pattern(atStart: bool, items: seq<Item>, atEnd: bool)

  predicate AtomOk(a: Atom) {
    if a.escaped then IsValidEscape(a.c) else a.c !in {'\\', '^', '$'} && !IsUnsupported(a.c) && !IsRepeat(a.c)
  }

  predicate ItemOk(item: Item) {
    AtomOk(item.atom) && (item.Repeated? ==> IsRepeat(item.repeat))
  }

  predicate ItemsOk(items: seq<Item>) {
    forall item | item in items :: ItemOk(item)
  }

  function RenderAtom(a: Atom): string {
    if a.escaped then ['\\', a.c] else [a.c]
  }

  function RenderItem(item: Item): string {
    RenderAtom(item.atom) + if item.Repeated? then [item.repeat] else []
  }

  function RenderItems(items: seq<Item>): string {
    if items == [] then [] else RenderItem(items[0]) + RenderItems(items[1..])
  }

  function RenderTail(items: seq<Item>, atEnd: bool): string {
    RenderItems(items) + if atEnd then "$" else ""
  }

  function Render(p: Pattern): string {
    (if p.atStart then "^" else "") + RenderTail(p.items, p.atEnd)
  }

  ghost predicate IsPattern(p: Pattern, regex: string) {
    ItemsOk(p.items) && Render(p) == regex
  }

  /** `regex` spells some pattern of the grammar. */
  ghost predicate Spelled(regex: string) {
    exists p :: IsPattern(p, regex)
  }

  // ---------- the validator ----------

  /** Whether the validator finds no fault from position `i` on. */
  predicate ValidFrom(s: string, i: nat, repeatable: bool)
    requires i <= |s|
    decreases |s| - i
  {
    if i == |s| then true
    else if s[i] == '\\' then i + 1 < |s| && IsValidEscape(s[i + 1]) && ValidFrom(s, i + 2, true)
    else Fits(s[i], i, |s|, repeatable) && ValidFrom(s, i + 1, IsRepeatable(s[i]))
  }

  /** The unescaped `ch` may stand at position `i` of `n`. */
  predicate Fits(ch: char, i: nat, n: nat, repeatable: bool) {
    (ch == '^' ==> i == 0) && (ch == '$' ==> i + 1 == n) && !IsUnsupported(ch) && (IsRepeat(ch) ==> repeatable)
  }

  predicate StartsWithRepeat(s: string) {
    s != [] && IsRepeat(s[0])
  }

  lemma TailStart(items: seq<Item>, atEnd: bool)
    requires ItemsOk(items)
    ensures !StartsWithRepeat(RenderTail(items, atEnd))
    ensures RenderTail(items, atEnd) != [] ==> RenderTail(items, atEnd)[0] != '^'
    ensures items != [] ==> RenderTail(items, atEnd) != [] && RenderTail(items, atEnd)[0] != '$'
  {
    if items != [] {
      assert ItemOk(items[0]);
    }
  }

  lemma AtomStep(s: string, i: nat, a: Atom, repeatable: bool)
    requires AtomOk(a) && i + |RenderAtom(a)| <= |s| && s[i..i + |RenderAtom(a)|] == RenderAtom(a)
    ensures ValidFrom(s, i, repeatable) <==> ValidFrom(s, i + |RenderAtom(a)|, true)
  {
    assert s[i] == RenderAtom(a)[0];
    assert a.escaped ==> s[i + 1] == a.c;
  }

  lemma ItemStep(s: string, i: nat, item: Item, repeatable: bool)
    requires ItemOk(item) && i + |RenderItem(item)| <= |s| && s[i..i + |RenderItem(item)|] == RenderItem(item)
    ensures ValidFrom(s, i, repeatable) <==> ValidFrom(s, i + |RenderItem(item)|, item.Once?)
  {
    var n := |RenderAtom(item.atom)|;
    assert s[i..i + n] == s[i..i + |RenderItem(item)|][..n];
    AtomStep(s, i, item.atom, repeatable);
    if item.Repeated? {
      assert s[i + n] == s[i..i + n + 1][n] == item.repeat;
    }
  }

  lemma {:induction false} RenderedTailIsValid(before: string, items: seq<Item>, atEnd: bool, repeatable: bool)
    requires ItemsOk(items)
    ensures ValidFrom(before + RenderTail(items, atEnd), |before|, repeatable)
    decreases |items|
  {
    if items == [] {
      EndIsValid(before + RenderTail(items, atEnd), |before|, repeatable);
    } else {
      RenderedTailIsValid(before + RenderItem(items[0]), items[1..], atEnd, items[0].Once?);
      Regroup(before, RenderItem(items[0]), RenderItems(items[1..]), if atEnd then "$" else "");
      ItemStep(before + RenderTail(items, atEnd), |before|, items[0], repeatable);
    }
  }

  lemma EndIsValid(s: string, i: nat, repeatable: bool)
    requires i == |s| || (i + 1 == |s| && s[i] == '$')
    ensures ValidFrom(s, i, repeatable)
  {
  }

  lemma Regroup(a: string, b: string, c: string, d: string)
    ensures a + (b + c + d) == (a + b) + (c + d)
    ensures (a + (b + c + d))[|a|..|a| + |b|] == b
  {
  }

  /** The atom at position `i` of a valid regex. */
  lemma ReadAtom(s: string, i: nat, repeatable: bool) returns (atom: Atom, n: nat)
    requires i < |s| && ValidFrom(s, i, repeatable) && !IsRepeat(s[i]) && s[i] != '$' && s[i] != '^'
    ensures AtomOk(atom) && n == i + |RenderAtom(atom)| <= |s| && s[i..] == RenderAtom(atom) + s[n..]
    ensures ValidFrom(s, n, true) && (n == |s| || s[n] != '^')
  {
    atom := if s[i] == '\\' then Atom(true, s[i + 1]) else Atom(false, s[i]);
    n := i + |RenderAtom(atom)|;
  }

  lemma {:induction false} ValidTailIsRendered(s: string, i: nat, repeatable: bool)
      returns (items: seq<Item>, atEnd: bool)
    requires i <= |s| && ValidFrom(s, i, repeatable) && (i == |s| || (s[i] != '^' && !IsRepeat(s[i])))
    ensures ItemsOk(items) && s[i..] == RenderTail(items, atEnd)
    decreases |s| - i
  {
    if i == |s| {
      items, atEnd := [], false;
    } else if s[i] == '$' {
      items, atEnd := [], true;
    } else {
      var atom, n := ReadAtom(s, i, repeatable);
      if n < |s| && IsRepeat(s[n]) {
        NotAfterRepeat(s, n);
        items, atEnd := ValidTailIsRendered(s, n + 1, false);
        items := WithItem(Repeated(atom, s[n]), items, atEnd, s[i..], s[n + 1..]);
      } else {
        items, atEnd := ValidTailIsRendered(s, n, true);
        items := WithItem(Once(atom), items, atEnd, s[i..], s[n..]);
      }
    }
  }

  lemma NotAfterRepeat(s: string, n: nat)
    requires n < |s| && ValidFrom(s, n, true) && IsRepeat(s[n])
    ensures ValidFrom(s, n + 1, false) && (n + 1 == |s| || (s[n + 1] != '^' && !IsRepeat(s[n + 1])))
  {
  }

  lemma WithItem(item: Item, items: seq<Item>, atEnd: bool, s: string, rest: string) returns (all: seq<Item>)
    requires ItemOk(item) && ItemsOk(items) && s == RenderItem(item) + rest && rest == RenderTail(items, atEnd)
    ensures ItemsOk(all) && s == RenderTail(all, atEnd)
  {
    all := [item] + items;
    assert all[1..] == items;
  }

  lemma ValidIffSpelled(regex: string)
    ensures ValidFrom(regex, 0, false) <==> Spelled(regex)
  {
    if ValidFrom(regex, 0, false) {
      var atStart := regex != [] && regex[0] == '^';
      var n := if atStart then 1 else 0;
      var items, atEnd := ValidTailIsRendered(regex, n, false);
      assert regex == regex[..n] + regex[n..];
      assert IsPattern(Pattern(atStart, items, atEnd), regex);
    }
    if Spelled(regex) {
      var p :| IsPattern(p, regex);
      RenderedTailIsValid(if p.atStart then "^" else "", p.items, p.atEnd, false);
    }
  }

  /** Accepts exactly the strings that spell a pattern. */
  method ValidateRegex(regex: string) returns (isValid: bool)
    ensures isValid <==> Spelled(regex)
  {
    ValidIffSpelled(regex);
    isValid := true;
    var prevRepeatable := false;
    var i := 0;
    while i < |regex|
      invariant 0 <= i <= |regex|
      invariant ValidFrom(regex, 0, false) <==> isValid && ValidFrom(regex, i, prevRepeatable)
    {
      if regex[i] == '\\' {
        i := i + 1;
        if i == |regex| {
          return false;
        }
        if !IsValidEscape(regex[i]) {
          isValid := false;
        }
        prevRepeatable := true;
      } else {
        var ch := regex[i];
        if ch == '^' && i > 0 {
          isValid := false;
        } else if ch == '$' && i + 1 != |regex| {
          isValid := false;
        } else if IsUnsupported(ch) {
          isValid := false;
        } else if IsRepeat(ch) && !prevRepeatable {
          isValid := false;
        }
        prevRepeatable := IsRepeatable(ch);
      }
      i := i + 1;
    }
  }

  // ---------- the meaning of patterns ----------

  ghost predicate AllMatch(a: Atom, piece: string) {
    forall i | 0 <= i < |piece| :: AtomMatchesChar(a.escaped, a.c, piece[i])
  }

  /** How many characters `item` may take up. */
  ghost predicate CountOk(item: Item, n: nat) {
    if item.Once? then n == 1
    else if item.repeat == '?' then n <= 1
    else if item.repeat == '+' then n >= 1
    else true
  }

  ghost predicate ItemTakes(item: Item, piece: string) {
    CountOk(item, |piece|) && AllMatch(item.atom, piece)
  }

  function Concat(pieces: seq<string>): string {
    if pieces == [] then [] else pieces[0] + Concat(pieces[1..])
  }

  ghost predicate SplitsInto(items: seq<Item>, text: string, pieces: seq<string>) {
    |pieces| == |items| && Concat(pieces) == text && forall i | 0 <= i < |items| :: ItemTakes(items[i], pieces[i])
  }

  /** `text` splits into one piece per item. */
  ghost predicate Denotes(items: seq<Item>, text: string) {
    exists pieces :: SplitsInto(items, text, pieces)
  }

  /** The items denote a prefix of `str`, all of it if `atEnd`. */
  ghost predicate HeadMatches(items: seq<Item>, atEnd: bool, str: string) {
    exists b :: PrefixMatches(items, atEnd, str, b)
  }

  ghost predicate PrefixMatches(items: seq<Item>, atEnd: bool, str: string, b: int) {
    0 <= b <= |str| && (atEnd ==> b == |str|) && Denotes(items, str[..b])
  }

  /** The items denote a substring of `str` that starts and ends where the anchors ask. */
  ghost predicate Matches(p: Pattern, str: string) {
    exists a :: 0 <= a <= |str| && (p.atStart ==> a == 0) && HeadMatches(p.items, p.atEnd, str[a..])
  }

  // ---------- the recursion that the matcher follows ----------

  lemma DenotesNothing(text: string)
    ensures Denotes([], text) <==> text == []
  {
    assert SplitsInto([], [], []);
  }

  lemma DenotesMore(items: seq<Item>, text: string, k: nat)
    requires items != [] && k <= |text| && ItemTakes(items[0], text[..k]) && Denotes(items[1..], text[k..])
    ensures Denotes(items, text)
  {
    var rest :| SplitsInto(items[1..], text[k..], rest);
    var pieces := [text[..k]] + rest;
    assert pieces[1..] == rest;
    assert SplitsInto(items, text, pieces);
  }

  lemma DenotesFirst(items: seq<Item>, text: string) returns (k: nat)
    requires items != [] && Denotes(items, text)
    ensures k <= |text| && ItemTakes(items[0], text[..k]) && Denotes(items[1..], text[k..])
  {
    var pieces :| SplitsInto(items, text, pieces);
    k := |pieces[0]|;
    assert text[..k] == pieces[0] && text[k..] == Concat(pieces[1..]);
    assert SplitsInto(items[1..], text[k..], pieces[1..]);
  }

  /** The first `k` characters can go to the first item. */
  ghost predicate FirstTakes(items: seq<Item>, atEnd: bool, str: string, k: int)
    requires items != []
  {
    0 <= k <= |str| && ItemTakes(items[0], str[..k]) && HeadMatches(items[1..], atEnd, str[k..])
  }

  lemma HeadNothing(atEnd: bool, str: string)
    ensures HeadMatches([], atEnd, str) <==> (atEnd ==> str == [])
  {
    DenotesNothing(str[..0]);
    DenotesNothing(str);
    assert str[..|str|] == str;
    if atEnd ==> str == [] {
      assert PrefixMatches([], atEnd, str, 0);
    }
  }

  lemma HeadMore(items: seq<Item>, atEnd: bool, str: string, k: int)
    requires items != [] && FirstTakes(items, atEnd, str, k)
    ensures HeadMatches(items, atEnd, str)
  {
    var b :| PrefixMatches(items[1..], atEnd, str[k..], b);
    assert str[..k + b][..k] == str[..k] && str[..k + b][k..] == str[k..][..b];
    DenotesMore(items, str[..k + b], k);
    assert PrefixMatches(items, atEnd, str, k + b);
  }

  lemma HeadFirst(items: seq<Item>, atEnd: bool, str: string) returns (k: int)
    requires items != [] && HeadMatches(items, atEnd, str)
    ensures FirstTakes(items, atEnd, str, k)
  {
    var b :| PrefixMatches(items, atEnd, str, b);
    k := DenotesFirst(items, str[..b]);
    assert str[..b][..k] == str[..k] && str[..b][k..] == str[k..][..b - k];
    assert PrefixMatches(items[1..], atEnd, str[k..], b - k);
  }

  lemma HeadOnce(items: seq<Item>, atEnd: bool, str: string)
    requires items != [] && items[0].Once?
    ensures HeadMatches(items, atEnd, str) <==>
            str != [] && AtomMatchesChar(items[0].atom.escaped, items[0].atom.c, str[0]) &&
              HeadMatches(items[1..], atEnd, str[1..])
  {
    if HeadMatches(items, atEnd, str) {
      var k := HeadFirst(items, atEnd, str);
      assert str[..k][0] == str[0];
    }
    if str != [] && AtomMatchesChar(items[0].atom.escaped, items[0].atom.c, str[0]) &&
        HeadMatches(items[1..], atEnd, str[1..]) {
      HeadMore(items, atEnd, str, 1);
    }
  }

  lemma HeadRepeated(items: seq<Item>, atEnd: bool, str: string)
    requires items != []
    ensures HeadMatches(items, atEnd, str) <==> exists k :: FirstTakes(items, atEnd, str, k)
  {
    if HeadMatches(items, atEnd, str) {
      var k := HeadFirst(items, atEnd, str);
    }
    if k :| FirstTakes(items, atEnd, str, k) {
      HeadMore(items, atEnd, str, k);
    }
  }

  // ---------- laws of the meaning ----------

  /** The class escapes are complementary sets of characters; every other escape stands for one character or none. */
  lemma AtomClasses(c: char, ch: char)
    ensures AtomMatchesChar(true, 'd', ch) <==> ch in {'0', '1', '2', '3', '4', '5', '6', '7', '8', '9'}
    ensures AtomMatchesChar(true, 's', ch) <==> ch == ' ' || 9 <= ch as int <= 13
    ensures AtomMatchesChar(true, 'd', ch) ==> AtomMatchesChar(true, 'w', ch)
    ensures AtomMatchesChar(true, 'w', ch) && !AtomMatchesChar(true, 'd', ch) <==>
            ch == '_' || 65 <= ch as int <= 90 || 97 <= ch as int <= 122
    ensures AtomMatchesChar(true, 'D', ch) != AtomMatchesChar(true, 'd', ch)
    ensures AtomMatchesChar(true, 'S', ch) != AtomMatchesChar(true, 's', ch)
    ensures AtomMatchesChar(true, 'W', ch) != AtomMatchesChar(true, 'w', ch)
    ensures c in {'t', 'n', 'v', 'f', 'r'} ==>
            (AtomMatchesChar(true, c, ch) <==>
              ch as int == if c == 't' then 9 else if c == 'n' then 10 else if c == 'v' then 11
                           else if c == 'f' then 12 else 13)
    ensures IsValidEscape(c) && !('a' <= c <= 'z' || 'A' <= c <= 'Z') ==> (AtomMatchesChar(true, c, ch) <==> ch == c)
    ensures !IsValidEscape(c) ==> !AtomMatchesChar(true, c, ch)
    ensures AtomMatchesChar(false, c, ch) <==> ch == c || (c == '.' && ch as int != 10)
  {
  }

  /**
   What the grammar allows: escaped, the letters with a meaning and every printable character
   but letters, digits and space; unescaped, every character without a special meaning.
   */
  lemma AtomsAllowed(c: char, a: Atom, r: char)
    ensures AtomOk(Atom(true, c)) <==>
            c in "dDfnrsStvwW" ||
              (33 <= c as int <= 126 && !('0' <= c <= '9' || 'a' <= c <= 'z' || 'A' <= c <= 'Z'))
    ensures AtomOk(Atom(false, c)) <==> c !in "\\^$?*+()[]{}|"
    ensures ItemOk(Repeated(a, r)) <==> AtomOk(a) && r in "?*+"
  {
  }

  lemma TakeNone(a: Atom, r: char, items: seq<Item>, atEnd: bool, str: string)
    requires IsRepeat(r)
    ensures FirstTakes([Repeated(a, r)] + items, atEnd, str, 0) <==> r != '+' && HeadMatches(items, atEnd, str)
  {
    assert ([Repeated(a, r)] + items)[1..] == items && str[0..] == str;
  }

  /** One more character of the repeated atom. */
  lemma TakeOneMore(a: Atom, r: char, items: seq<Item>, atEnd: bool, str: string, k: nat)
    requires r == '*' || r == '+'
    ensures FirstTakes([Repeated(a, r)] + items, atEnd, str, k + 1) <==>
            str != [] && AtomMatchesChar(a.escaped, a.c, str[0]) &&
              FirstTakes([Repeated(a, '*')] + items, atEnd, str[1..], k)
  {
    hide AtomMatchesChar, HeadMatches;
    assert ([Repeated(a, r)] + items)[1..] == items && ([Repeated(a, '*')] + items)[1..] == items;
    if k < |str| {
      assert str[..k + 1] == [str[0]] + str[1..][..k] && str[k + 1..] == str[1..][k..];
      OneMoreMatches(a, str[0], str[1..][..k]);
    }
  }

  lemma OneMoreMatches(a: Atom, ch: char, piece: string)
    ensures AllMatch(a, [ch] + piece) <==> AtomMatchesChar(a.escaped, a.c, ch) && AllMatch(a, piece)
  {
    hide AtomMatchesChar;
    var all := [ch] + piece;
    assert all[0] == ch && forall i | 0 <= i < |piece| :: all[i + 1] == piece[i];
  }

  /** A starred atom is none of it, or one and the starred atom again. */
  lemma StarUnrolls(a: Atom, items: seq<Item>, atEnd: bool, str: string)
    ensures var star := [Repeated(a, '*')] + items;
            HeadMatches(star, atEnd, str) <==>
              HeadMatches(items, atEnd, str) || HeadMatches([Once(a)] + star, atEnd, str)
  {
    hide FirstTakes, HeadMatches, AtomMatchesChar;
    TakeNone(a, '*', items, atEnd, str);
    SomeThenStar(a, '*', items, atEnd, str);
    HeadRepeated([Repeated(a, '*')] + items, atEnd, str);
    NoneOrSome([Repeated(a, '*')] + items, atEnd, str);
  }

  /** `+` is one and then `*`. */
  lemma PlusIsOnceThenStar(a: Atom, items: seq<Item>, atEnd: bool, str: string)
    ensures HeadMatches([Repeated(a, '+')] + items, atEnd, str) <==>
            HeadMatches([Once(a)] + ([Repeated(a, '*')] + items), atEnd, str)
  {
    hide FirstTakes, HeadMatches, AtomMatchesChar;
    TakeNone(a, '+', items, atEnd, str);
    SomeThenStar(a, '+', items, atEnd, str);
    HeadRepeated([Repeated(a, '+')] + items, atEnd, str);
    NoneOrSome([Repeated(a, '+')] + items, atEnd, str);
  }

  lemma NoneOrSome(items: seq<Item>, atEnd: bool, str: string)
    requires items != []
    ensures (exists k :: FirstTakes(items, atEnd, str, k)) <==>
            FirstTakes(items, atEnd, str, 0) || TakesSome(items, atEnd, str)
  {
  }

  ghost predicate TakesSome(items: seq<Item>, atEnd: bool, str: string)
    requires items != []
  {
    exists k :: 0 < k && FirstTakes(items, atEnd, str, k)
  }

  lemma SomeThenStar(a: Atom, r: char, items: seq<Item>, atEnd: bool, str: string)
    requires r == '*' || r == '+'
    ensures TakesSome([Repeated(a, r)] + items, atEnd, str) <==>
            HeadMatches([Once(a)] + ([Repeated(a, '*')] + items), atEnd, str)
  {
    hide FirstTakes, HeadMatches, AtomMatchesChar;
    var star := [Repeated(a, '*')] + items;
    HeadOnce([Once(a)] + star, atEnd, str);
    assert ([Once(a)] + star)[1..] == star;
    if TakesSome([Repeated(a, r)] + items, atEnd, str) {
      var k :| 0 < k && FirstTakes([Repeated(a, r)] + items, atEnd, str, k);
      TakeOneMore(a, r, items, atEnd, str, k - 1);
      HeadMore(star, atEnd, str[1..], k - 1);
    }
    if HeadMatches([Once(a)] + star, atEnd, str) {
      var k := HeadFirst(star, atEnd, str[1..]);
      NotNegative(star, atEnd, str[1..], k);
      TakeOneMore(a, r, items, atEnd, str, k);
    }
  }

  lemma NotNegative(items: seq<Item>, atEnd: bool, str: string, k: int)
    requires items != [] && FirstTakes(items, atEnd, str, k)
    ensures k >= 0
  {
  }

  /** `?` is none or one. */
  lemma OptionalIsNoneOrOnce(a: Atom, items: seq<Item>, atEnd: bool, str: string)
    ensures HeadMatches([Repeated(a, '?')] + items, atEnd, str) <==>
            HeadMatches(items, atEnd, str) || HeadMatches([Once(a)] + items, atEnd, str)
  {
    hide HeadMatches, AtomMatchesChar;
    var all := [Repeated(a, '?')] + items;
    TakeNone(a, '?', items, atEnd, str);
    HeadOnce([Once(a)] + items, atEnd, str);
    HeadRepeated(all, atEnd, str);
    assert all[1..] == items && ([Once(a)] + items)[1..] == items;
    if HeadMatches([Once(a)] + items, atEnd, str) {
      assert FirstTakes(all, atEnd, str, 1);
    }
  }

  /** Where the first item of a pattern is found in its spelling. */
  lemma FirstItem(items: seq<Item>, atEnd: bool, regex: string)
    requires ItemsOk(items) && regex == RenderTail(items, atEnd) && regex != [] && regex[0] != '$'
    ensures items != []
    ensures var n := if regex[0] == '\\' then 1 else 0;
            && n < |regex| && items[0].atom == Atom(regex[0] == '\\', regex[n])
            && (if n + 1 < |regex| && IsRepeat(regex[n + 1])
                then items[0] == Repeated(items[0].atom, regex[n + 1]) &&
                  regex[n + 2..] == RenderTail(items[1..], atEnd)
                else items[0].Once? && regex[n + 1..] == RenderTail(items[1..], atEnd))
  {
    var item, rest := items[0], RenderTail(items[1..], atEnd);
    assert ItemOk(item);
    TailStart(items[1..], atEnd);
    assert regex == RenderItem(item) + rest;
    var n := |RenderAtom(item.atom)|;
    if item.Repeated? {
      assert regex[n] == item.repeat && regex[n + 1..] == rest;
    } else {
      assert regex[n..] == rest;
    }
  }

  // ---------- the matcher ----------

  /**
   Tries every count of the repeated atom in turn, least first; the rest of the pattern goes
   on after it.
   */
  method MatchRepetitionAndRegexAtHead(escaped: bool, c: char, repeat: char, regex: string, str: string,
                                       ghost items: seq<Item>, ghost atEnd: bool)
      returns (matched: bool)
    requires ItemsOk(items) && regex == RenderTail(items, atEnd) && IsRepeat(repeat)
    ensures matched <==> exists k :: FirstTakes([Repeated(Atom(escaped, c), repeat)] + items, atEnd, str, k)
    decreases |regex|, 1
  {
    ghost var all := [Repeated(Atom(escaped, c), repeat)] + items;
    assert all[1..] == items;
    var minCount := if repeat == '+' then 1 else 0;
    var i := 0;
    while repeat != '?' || i <= 1
      invariant 0 <= i <= |str| && AllMatch(all[0].atom, str[..i])
      invariant forall k | 0 <= k < i :: !FirstTakes(all, atEnd, str, k)
      decreases |str| - i
    {
      if i >= minCount {
        matched := MatchRegexAtHead(regex, str[i..], items, atEnd);
        if matched {
          assert FirstTakes(all, atEnd, str, i);
          return;
        }
      }
      if i == |str| || !AtomMatchesChar(escaped, c, str[i]) {
        forall k | i < k <= |str| ensures !FirstTakes(all, atEnd, str, k) {
          assert str[..k][i] == str[i];
        }
        return false;
      }
      i := i + 1;
    }
    return false;
  }

  /** Whether the pattern matches a prefix of `str`. */
  method MatchRegexAtHead(regex: string, str: string, ghost items: seq<Item>, ghost atEnd: bool) returns (matched: bool)
    requires ItemsOk(items) && regex == RenderTail(items, atEnd)
    ensures matched <==> HeadMatches(items, atEnd, str)
    decreases |regex|, 0
  {
    if regex == [] {
      HeadNothing(atEnd, str);
      return true;
    }
    if regex[0] == '$' {
      TailStart(items, atEnd);
      HeadNothing(atEnd, str);
      return str == [];
    }
    FirstItem(items, atEnd, regex);
    var escaped := regex[0] == '\\';
    var n := if escaped then 1 else 0;
    if n + 1 < |regex| && IsRepeat(regex[n + 1]) {
      HeadRepeated(items, atEnd, str);
      assert items == [items[0]] + items[1..];
      matched := MatchRepetitionAndRegexAtHead(escaped, regex[n], regex[n + 1], regex[n + 2..], str, items[1..], atEnd);
    } else {
      HeadOnce(items, atEnd, str);
      matched := str != [] && AtomMatchesChar(escaped, regex[n], str[0]);
      if matched {
        matched := MatchRegexAtHead(regex[n + 1..], str[1..], items[1..], atEnd);
      }
    }
  }

  /** Whether the pattern that `regex` spells matches somewhere in `str`. */
  method MatchRegexAnywhere(regex: string, str: string, ghost p: Pattern) returns (matched: bool)
    requires IsPattern(p, regex)
    ensures matched <==> Matches(p, str)
  {
    TailStart(p.items, p.atEnd);
    if regex != [] && regex[0] == '^' {
      matched := MatchRegexAtHead(regex[1..], str, p.items, p.atEnd);
      assert str[0..] == str;
      return;
    }
    var i := 0;
    while true
      invariant 0 <= i <= |str|
      invariant forall a | 0 <= a < i :: !HeadMatches(p.items, p.atEnd, str[a..])
      decreases |str| - i
    {
      matched := MatchRegexAtHead(regex, str[i..], p.items, p.atEnd);
      if matched || i == |str| {
        return;
      }
      i := i + 1;
    }
  }

  // ---------- full matches ----------

  /** The grammar is unambiguous. */
  lemma {:induction false} ItemsUnique(items0: seq<Item>, atEnd0: bool, items1: seq<Item>, atEnd1: bool)
    requires ItemsOk(items0) && ItemsOk(items1) && RenderTail(items0, atEnd0) == RenderTail(items1, atEnd1)
    ensures items0 == items1 && atEnd0 == atEnd1
    decreases |items0|
  {
    var regex := RenderTail(items0, atEnd0);
    TailStart(items0, atEnd0);
    TailStart(items1, atEnd1);
    if regex != [] && regex[0] != '$' {
      FirstItem(items0, atEnd0, regex);
      FirstItem(items1, atEnd1, regex);
      ItemsUnique(items0[1..], atEnd0, items1[1..], atEnd1);
      assert items0 == [items0[0]] + items0[1..] && items1 == [items1[0]] + items1[1..];
    }
  }

  lemma PatternUnique(p: Pattern, q: Pattern, regex: string)
    requires IsPattern(p, regex) && IsPattern(q, regex)
    ensures p == q
  {
    TailStart(p.items, p.atEnd);
    TailStart(q.items, q.atEnd);
    assert RenderTail(p.items, p.atEnd) == if p.atStart then regex[1..] else regex;
    assert RenderTail(q.items, q.atEnd) == if q.atStart then regex[1..] else regex;
    ItemsUnique(p.items, p.atEnd, q.items, q.atEnd);
  }

  /** The regex wrapped in anchors, each unless its character is there already. */
  function FullPattern(regex: string): string {
    (if StartsInCaret(regex) then "" else "^") + regex + if EndsInDollar(regex) then "" else "$"
  }

  predicate EndsInEscapedDollar(p: Pattern) {
    !p.atEnd && p.items != [] && p.items[|p.items| - 1] == Once(Atom(true, '$'))
  }

  /** What the wrapped regex spells: an escaped `$` at the end passes for the anchor. */
  function Full(p: Pattern): Pattern {
    Pattern(true, p.items, !EndsInEscapedDollar(p))
  }

  lemma {:induction false} LastChar(items: seq<Item>)
    requires ItemsOk(items) && items != []
    ensures RenderItems(items) != []
    ensures var last := items[|items| - 1];
            RenderItems(items)[|RenderItems(items)| - 1] == if last.Repeated? then last.repeat else last.atom.c
  {
    if |items| > 1 {
      LastChar(items[1..]);
      assert items[1..][|items| - 2] == items[|items| - 1];
    }
  }

  predicate EndsInDollar(s: string) {
    s != [] && s[|s| - 1] == '$'
  }

  predicate StartsInCaret(s: string) {
    s != [] && s[0] == '^'
  }

  lemma TailEnd(p: Pattern)
    requires ItemsOk(p.items)
    ensures EndsInDollar(RenderTail(p.items, p.atEnd)) <==> p.atEnd || EndsInEscapedDollar(p)
  {
    if p.items != [] {
      LastChar(p.items);
      assert ItemOk(p.items[|p.items| - 1]);
    }
  }

  lemma Anchored(p: Pattern, regex: string)
    requires IsPattern(p, regex)
    ensures StartsInCaret(regex) <==> p.atStart
    ensures EndsInDollar(regex) <==> p.atEnd || EndsInEscapedDollar(p)
  {
    TailStart(p.items, p.atEnd);
    TailEnd(p);
  }

  lemma FullSpelled(p: Pattern, regex: string)
    requires IsPattern(p, regex)
    ensures IsPattern(Full(p), FullPattern(regex))
  {
    Anchored(p, regex);
    Wrap(RenderItems(p.items), p.atStart, p.atEnd, Full(p).atEnd);
  }

  lemma Wrap(s: string, atStart: bool, atEnd: bool, fullEnd: bool)
    requires atEnd ==> fullEnd
    ensures var regex := (if atStart then "^" else "") + (s + if atEnd then "$" else "");
            (if atStart then "" else "^") + regex + (if fullEnd && !atEnd then "$" else "") ==
              "^" + (s + if fullEnd then "$" else "")
  {
  }

  function Sample(a: Atom): char {
    if !a.escaped then (if a.c == '.' then 'a' else a.c)
    else match a.c
      case 'd' => '0'
      case 'D' => 'a'
      case 'f' => '\U{0C}'
      case 'n' => '\n'
      case 'r' => '\r'
      case 's' => ' '
      case 'S' => 'a'
      case 't' => '\t'
      case 'v' => '\U{0B}'
      case 'w' => 'a'
      case 'W' => ' '
      case _ => a.c
  }

  lemma {:induction false} DenotesSomething(items: seq<Item>) returns (text: string)
    requires ItemsOk(items)
    ensures Denotes(items, text)
  {
    if items == [] {
      DenotesNothing([]);
      text := [];
    } else {
      assert ItemOk(items[0]);
      var piece := [Sample(items[0].atom)];
      var rest := DenotesSomething(items[1..]);
      text := piece + rest;
      assert text[..1] == piece && text[1..] == rest;
      DenotesMore(items, text, 1);
    }
  }

  lemma {:induction false} EndsAsLast(items: seq<Item>, text: string)
    requires items != [] && items[|items| - 1] == Once(Atom(true, '$')) && Denotes(items, text)
    ensures text != [] && text[|text| - 1] == '$'
  {
    var k := DenotesFirst(items, text);
    if |items| > 1 {
      assert items[1..][|items| - 2] == items[|items| - 1];
      EndsAsLast(items[1..], text[k..]);
    } else {
      DenotesNothing(text[k..]);
      assert text[..k] == text;
    }
  }

  /** The wrapped regex accepts exactly the strings denoted as a whole, unless it ends in an escaped `$`. */
  lemma FullMatchIsWholeMatch(p: Pattern)
    requires ItemsOk(p.items)
    ensures !EndsInEscapedDollar(p) <==> forall str :: Matches(Full(p), str) <==> Denotes(p.items, str)
  {
    if EndsInEscapedDollar(p) {
      var text := DenotesSomething(p.items);
      var str := text + "x";
      assert str[0..] == str && str[..|text|] == text;
      assert PrefixMatches(p.items, false, str, |text|);
      assert Matches(Full(p), str);
      if Denotes(p.items, str) {
        EndsAsLast(p.items, str);
      }
    } else {
      forall str ensures Matches(Full(p), str) <==> Denotes(p.items, str) {
        assert str[0..] == str && str[..|str|] == str;
        if Denotes(p.items, str) {
          assert PrefixMatches(p.items, true, str, |str|);
        }
      }
    }
  }

  /** A concrete failure: the pattern `\\$` fully matches `$x`. */
  lemma EscapedDollarMatchesTooMuch()
    ensures var p := Pattern(false, [Once(Atom(true, '$'))], false);
            && IsPattern(p, ['\\', '$']) && FullPattern(['\\', '$']) == ['^', '\\', '$']
            && Matches(Full(p), "$x") && !Denotes(p.items, "$x")
  {
    var items := [Once(Atom(true, '$'))];
    var str := "$x";
    assert RenderItems(items) == ['\\', '$'] by {
      assert items[1..] == [];
    }
    assert SplitsInto(items, str[..1], ["$"]) by {
      assert ["$"][1..] == [];
    }
    assert PrefixMatches(items, false, str[0..], 1);
    if Denotes(items, str) {
      EndsAsLast(items, str);
    }
  }

  /** Whether `regex` is valid and its wrapped form matches `str`. */
  method FullMatch(regex: string, str: string) returns (matched: bool)
    ensures matched ==> Spelled(regex)
    ensures forall p | IsPattern(p, regex) :: matched <==> Matches(Full(p), str)
    ensures forall p | IsPattern(p, regex) && !EndsInEscapedDollar(p) :: matched <==> Denotes(p.items, str)
  {
    matched := ValidateRegex(regex);
    if matched {
      ghost var p :| IsPattern(p, regex);
      FullSpelled(p, regex);
      FullMatchIsWholeMatch(p);
      matched := MatchRegexAnywhere(FullPattern(regex), str, Full(p));
      forall q | IsPattern(q, regex) ensures q == p {
        PatternUnique(p, q, regex);
      }
    }
  }

  /** Whether `regex` is valid and matches a substring of `str`. */
  method PartialMatch(regex: string, str: string) returns (matched: bool)
    ensures matched <==> exists p :: IsPattern(p, regex) && Matches(p, str)
  {
    matched := ValidateRegex(regex);
    if matched {
      ghost var p :| IsPattern(p, regex);
      matched := MatchRegexAnywhere(regex, str, p);
      forall q | IsPattern(q, regex) ensures q == p {
        PatternUnique(p, q, regex);
      }
    }
  }
}
