/** String helpers the generated SQL relies on: Swift's decimal rendering of
    integers in string interpolation, `joined(separator:)` and
    `trimmingCharacters(in:)`. */
module Text {

  predicate IsDigit(c: char) {
    '0' <= c <= '9'
  }

  predicate AllDigits(s: string) {
    forall i :: 0 <= i < |s| ==> IsDigit(s[i])
  }

  function DigitChar(d: nat): (c: char)
    requires d < 10
    ensures IsDigit(c)
  {
    ['0', '1', '2', '3', '4', '5', '6', '7', '8', '9'][d]
  }

  function DigitValue(c: char): (d: nat)
    requires IsDigit(c)
    ensures d < 10 && DigitChar(d) == c
  {
    if c == '0' then 0 else if c == '1' then 1 else if c == '2' then 2
    else if c == '3' then 3 else if c == '4' then 4 else if c == '5' then 5
    else if c == '6' then 6 else if c == '7' then 7 else if c == '8' then 8 else 9
  }

  lemma DigitRoundTrip(d: nat)
    requires d < 10
    ensures DigitValue(DigitChar(d)) == d
  {
  }

  /** The decimal text of a non-negative integer, as "\(n)" prints it. */
  function NatToString(n: nat): (s: string)
    ensures |s| >= 1 && AllDigits(s)
  {
    if n < 10 then [DigitChar(n)] else NatToString(n / 10) + [DigitChar(n % 10)]
  }

  /** Reads a run of decimal digits back into a number. */
  function ParseNat(s: string): nat
    requires AllDigits(s)
  {
    if s == [] then 0 else 10 * ParseNat(s[..|s| - 1]) + DigitValue(s[|s| - 1])
  }

  lemma {:induction false} ParseNatToString(n: nat)
    ensures ParseNat(NatToString(n)) == n
  {
    var s := NatToString(n);
    if n >= 10 {
      var q, d := n / 10, n % 10;
      ParseNatToString(q);
      assert s == NatToString(q) + [DigitChar(d)];
      assert s[..|s| - 1] == NatToString(q);
      DigitRoundTrip(d);
      assert n == 10 * q + d;
    } else {
      DigitRoundTrip(n);
    }
  }

  /** Different numbers print differently: the basis of unique save-point and
      placeholder names. */
  lemma NatToStringInjective(a: nat, b: nat)
    ensures NatToString(a) == NatToString(b) ==> a == b
  {
    ParseNatToString(a);
    ParseNatToString(b);
  }

  /** Swift's `joined(separator:)`. */
  function Join(parts: seq<string>, sep: string): (r: string)
    ensures parts == [] ==> r == ""
    ensures |parts| == 1 ==> r == parts[0]
  {
    if parts == [] then "" else if |parts| == 1 then parts[0] else parts[0] + sep + Join(parts[1..], sep)
  }

  /** Joining a non-empty list ends with its last part. */
  lemma {:induction false} JoinEndsWithLast(parts: seq<string>, sep: string)
    requires parts != []
    ensures |Join(parts, sep)| >= |parts[|parts| - 1]|
    ensures Join(parts, sep)[|Join(parts, sep)| - |parts[|parts| - 1]|..] == parts[|parts| - 1]
  {
    if |parts| > 1 {
      JoinEndsWithLast(parts[1..], sep);
      var rest := Join(parts[1..], sep);
      assert Join(parts, sep) == (parts[0] + sep) + rest;
    }
  }

  /** Joining a non-empty list starts with its first part. */
  lemma JoinStartsWithFirst(parts: seq<string>, sep: string)
    requires parts != []
    ensures |Join(parts, sep)| >= |parts[0]| && Join(parts, sep)[..|parts[0]|] == parts[0]
  {
  }

  /** Joining non-empty parts starts with the first part's first character
      and ends with the last part's last character. */
  lemma JoinEnds(parts: seq<string>, sep: string)
    requires parts != [] && parts[0] != [] && parts[|parts| - 1] != []
    ensures var j := Join(parts, sep); var last := parts[|parts| - 1];
      j != [] && j[0] == parts[0][0] && j[|j| - 1] == last[|last| - 1]
  {
    JoinStartsWithFirst(parts, sep);
    JoinEndsWithLast(parts, sep);
    var j := Join(parts, sep);
    var last := parts[|parts| - 1];
    assert j[|j| - |last|..][|last| - 1] == j[|j| - 1];
  }

  /** A statement text as the program assembles it: literal text and the
      parameter slots SQLite numbers, anonymous (`?`) or named (`:name`). A
      '?' inside literal text, such as one in a quoted name, is no slot. */
  datatype Piece = Raw(text: string) | Slot | NamedSlot(name: string)

  function RenderPiece(p: Piece): string {
    match p
    case Raw(t) => t
    case Slot => "?"
    case NamedSlot(n) => ":" + n
  }

  /** The text a template spells. */
  function Render(ps: seq<Piece>): string {
    if ps == [] then "" else RenderPiece(ps[0]) + Render(ps[1..])
  }

  /** How many anonymous slots a template holds. */
  function SlotCount(ps: seq<Piece>): nat {
    if ps == [] then 0 else (if ps[0].Slot? then 1 else 0) + SlotCount(ps[1..])
  }

  /** The names of the named slots, in order of appearance. */
  function SlotNames(ps: seq<Piece>): seq<string> {
    if ps == [] then [] else (if ps[0].NamedSlot? then [ps[0].name] else []) + SlotNames(ps[1..])
  }

  /** Templates compose: the text of a concatenation is the two texts. */
  lemma {:induction false} RenderAppend(a: seq<Piece>, b: seq<Piece>)
    ensures Render(a + b) == Render(a) + Render(b)
  {
    if a == [] {
      assert a + b == b;
    } else {
      assert (a + b)[1..] == a[1..] + b;
      RenderAppend(a[1..], b);
    }
  }

  lemma {:induction false} SlotCountAppend(a: seq<Piece>, b: seq<Piece>)
    ensures SlotCount(a + b) == SlotCount(a) + SlotCount(b)
  {
    if a == [] {
      assert a + b == b;
    } else {
      assert (a + b)[1..] == a[1..] + b;
      SlotCountAppend(a[1..], b);
    }
  }

  lemma {:induction false} SlotNamesAppend(a: seq<Piece>, b: seq<Piece>)
    ensures SlotNames(a + b) == SlotNames(a) + SlotNames(b)
  {
    if a == [] {
      assert a + b == b;
    } else {
      assert (a + b)[1..] == a[1..] + b;
      SlotNamesAppend(a[1..], b);
    }
  }

  /** Slots of a template, one piece at a time. */
  lemma SlotsCons(p: Piece, rest: seq<Piece>)
    ensures SlotCount([p] + rest) == (if p.Slot? then 1 else 0) + SlotCount(rest)
    ensures SlotNames([p] + rest) == (if p.NamedSlot? then [p.name] else []) + SlotNames(rest)
  {
    assert ([p] + rest)[1..] == rest;
  }

  /** `joined(separator:)` over templates. */
  function JoinPieces(items: seq<seq<Piece>>, sep: string): seq<Piece> {
    if items == [] then [] else if |items| == 1 then items[0] else items[0] + [Raw(sep)] + JoinPieces(items[1..], sep)
  }

  function RenderAll(items: seq<seq<Piece>>): (r: seq<string>)
    ensures |r| == |items|
    ensures forall i :: 0 <= i < |items| ==> r[i] == Render(items[i])
  {
    if items == [] then [] else [Render(items[0])] + RenderAll(items[1..])
  }

  function SlotCountAll(items: seq<seq<Piece>>): nat {
    if items == [] then 0 else SlotCount(items[0]) + SlotCountAll(items[1..])
  }

  function SlotNamesAll(items: seq<seq<Piece>>): seq<string> {
    if items == [] then [] else SlotNames(items[0]) + SlotNamesAll(items[1..])
  }

  lemma {:induction false} SlotCountAllSnoc(items: seq<seq<Piece>>, x: seq<Piece>)
    ensures SlotCountAll(items + [x]) == SlotCountAll(items) + SlotCount(x)
  {
    if items != [] {
      assert (items + [x])[1..] == items[1..] + [x];
      SlotCountAllSnoc(items[1..], x);
    }
  }

  lemma {:induction false} SlotNamesAllSnoc(items: seq<seq<Piece>>, x: seq<Piece>)
    ensures SlotNamesAll(items + [x]) == SlotNamesAll(items) + SlotNames(x)
  {
    if items == [] {
      assert SlotNamesAll([x]) == SlotNames(x) + SlotNamesAll([]);
    } else {
      assert (items + [x])[1..] == items[1..] + [x];
      SlotNamesAllSnoc(items[1..], x);
    }
  }

  lemma RenderRaw(t: string)
    ensures Render([Raw(t)]) == t
  {
    assert Render([Raw(t)]) == t + Render([]);
  }

  lemma RenderNamedSlot(name: string)
    ensures Render([NamedSlot(name)]) == ":" + name
  {
    assert Render([NamedSlot(name)]) == ":" + name + Render([]);
  }

  lemma RenderAllSnoc(items: seq<seq<Piece>>, x: seq<Piece>)
    ensures RenderAll(items + [x]) == RenderAll(items) + [Render(x)]
  {
  }

  lemma AppendAssoc(a: string, b: string, c: string)
    ensures a + b + c == a + (b + c)
  {
  }

  /** Joining templates spells the joined texts. */
  lemma {:induction false} JoinPiecesRender(items: seq<seq<Piece>>, sep: string)
    ensures Render(JoinPieces(items, sep)) == Join(RenderAll(items), sep)
  {
    if |items| == 1 {
      assert items[1..] == [];
    } else if |items| > 1 {
      JoinPiecesRender(items[1..], sep);
      RenderAppend(items[0] + [Raw(sep)], JoinPieces(items[1..], sep));
      RenderAppend(items[0], [Raw(sep)]);
      assert Render([Raw(sep)]) == sep;
      assert RenderAll(items)[1..] == RenderAll(items[1..]);
    }
  }

  /** Joining templates adds no slot to count. */
  lemma {:induction false} JoinPiecesSlotCount(items: seq<seq<Piece>>, sep: string)
    ensures SlotCount(JoinPieces(items, sep)) == SlotCountAll(items)
  {
    if |items| == 1 {
      assert items[1..] == [];
    } else if |items| > 1 {
      var rest := JoinPieces(items[1..], sep);
      JoinPiecesSlotCount(items[1..], sep);
      SlotCountAppend(items[0] + [Raw(sep)], rest);
      SlotCountAppend(items[0], [Raw(sep)]);
      assert SlotCount([Raw(sep)]) == 0;
    }
  }

  /** Joining templates adds no named slot. */
  lemma {:induction false} JoinPiecesSlotNames(items: seq<seq<Piece>>, sep: string)
    ensures SlotNames(JoinPieces(items, sep)) == SlotNamesAll(items)
  {
    if |items| == 1 {
      assert items[1..] == [];
    } else if |items| > 1 {
      var rest := JoinPieces(items[1..], sep);
      JoinPiecesSlotNames(items[1..], sep);
      SlotNamesAppend(items[0] + [Raw(sep)], rest);
      SlotNamesAppend(items[0], [Raw(sep)]);
      assert SlotNames([Raw(sep)]) == [];
    }
  }

  /** Joining templates adds no slot of its own. */
  lemma JoinPiecesSlots(items: seq<seq<Piece>>, sep: string)
    ensures SlotCount(JoinPieces(items, sep)) == SlotCountAll(items)
    ensures SlotNames(JoinPieces(items, sep)) == SlotNamesAll(items)
  {
    JoinPiecesSlotCount(items, sep);
    JoinPiecesSlotNames(items, sep);
  }

  // Character classes used by `trimmingCharacters(in:)` in the source.
  const Whitespaces: set<char> := {' ', '\t'}
  const WhitespacesAndNewlines: set<char> := {' ', '\t', '\n', '\r'}

  function TrimStart(s: string, cut: set<char>): (r: string)
  {
    if s != [] && s[0] in cut then TrimStart(s[1..], cut) else s
  }

  function TrimEnd(s: string, cut: set<char>): (r: string)
  {
    if s != [] && s[|s| - 1] in cut then TrimEnd(s[..|s| - 1], cut) else s
  }

  /** `trimmingCharacters(in: cut)`: drop every leading and trailing character
      of `cut`. */
  function Trim(s: string, cut: set<char>): string {
    TrimEnd(TrimStart(s, cut), cut)
  }

  /** Leading trimming stops inside `a` when `a` holds a character outside
      `cut`, so what follows `a` is kept whole. */
  lemma {:induction false} TrimStartAppend(a: string, b: string, cut: set<char>, k: nat)
    requires k < |a| && a[k] !in cut
    ensures TrimStart(a + b, cut) == TrimStart(a, cut) + b
  {
    if a[0] in cut {
      assert (a + b)[1..] == a[1..] + b;
      TrimStartAppend(a[1..], b, cut, k - 1);
    }
  }

  /** Trailing trimming keeps a text whose last character is outside `cut`. */
  lemma TrimEndKeeps(s: string, cut: set<char>)
    requires s != [] && s[|s| - 1] !in cut
    ensures TrimEnd(s, cut) == s
  {
  }

  /** A string whose two ends are outside `cut` is left unchanged. */
  lemma TrimKeeps(s: string, cut: set<char>)
    requires s != [] ==> s[0] !in cut && s[|s| - 1] !in cut
    ensures Trim(s, cut) == s
  {
  }

  /** Trimming `s` followed by characters of `cut` gives back `s` when the
      ends of `s` are outside `cut`. */
  lemma {:induction false} TrimDropsTail(s: string, tail: string, cut: set<char>)
    requires s != [] && s[0] !in cut && s[|s| - 1] !in cut
    requires forall i :: 0 <= i < |tail| ==> tail[i] in cut
    ensures Trim(s + tail, cut) == s
  {
    assert TrimStart(s + tail, cut) == s + tail;
    if tail != [] {
      assert (s + tail)[..|s + tail| - 1] == s + tail[..|tail| - 1];
      TrimDropsTail(s, tail[..|tail| - 1], cut);
    } else {
      assert s + tail == s;
    }
  }
}
