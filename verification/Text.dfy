/**
 The text layer of the operator: Go's `strings.Join` and `%d`, together with the inverse
 operations a reader of the printed text (a Kafka broker or client) performs. Everything is
 proved for lists and strings of any length.
 */
module Text {
  import opened Wrappers

  // ---------- separator lists ----------

  function Join(parts: seq<string>, sep: char): string
  {
    if |parts| == 0 then ""
    else if |parts| == 1 then parts[0]
    else parts[0] + [sep] + Join(parts[1..], sep)
  }

  /** Cuts at every `sep`. The pieces never contain `sep`, and joining them gives `s` back. */
  function Split(s: string, sep: char): (pieces: seq<string>)
    ensures |pieces| > 0
    ensures forall i | 0 <= i < |pieces| :: sep !in pieces[i]
    ensures Join(pieces, sep) == s
  {
    if s == "" then [""]
    else
      var rest := Split(s[1..], sep);
      assert s == [s[0]] + s[1..];
      if s[0] == sep then
        assert ([""] + rest)[1..] == rest;
        [""] + rest
      else
        JoinFirst([s[0]], rest, sep);
        [[s[0]] + rest[0]] + rest[1..]
  }

  lemma JoinFirst(p: string, parts: seq<string>, sep: char)
    requires |parts| > 0
    ensures Join([p + parts[0]] + parts[1..], sep) == p + Join(parts, sep)
  {
    var longer := [p + parts[0]] + parts[1..];
    if |parts| > 1 {
      assert longer[1..] == parts[1..];
      assert p + parts[0] + [sep] + Join(parts[1..], sep) == p + (parts[0] + [sep] + Join(parts[1..], sep));
    }
  }

  lemma {:induction false} SplitFirst(p: string, rest: string, sep: char)
    requires sep !in p
    ensures Split(p + [sep] + rest, sep) == [p] + Split(rest, sep)
  {
    var s := p + [sep] + rest;
    if p == "" {
      assert s[1..] == rest;
    } else {
      assert s[1..] == p[1..] + [sep] + rest;
      SplitFirst(p[1..], rest, sep);
      assert p == [p[0]] + p[1..];
    }
  }

  lemma {:induction false} SplitPlain(p: string, sep: char)
    requires sep !in p
    ensures Split(p, sep) == [p]
  {
    if p != "" {
      SplitPlain(p[1..], sep);
      assert p == [p[0]] + p[1..];
    }
  }

  /** `Split` inverts `Join` on exactly the non-empty lists whose parts are free of the separator. */
  lemma {:induction false} SplitJoin(parts: seq<string>, sep: char)
    ensures Split(Join(parts, sep), sep) == parts
            <==> |parts| > 0 && forall i | 0 <= i < |parts| :: sep !in parts[i]
  {
    if |parts| > 0 && forall i | 0 <= i < |parts| :: sep !in parts[i] {
      if |parts| == 1 {
        SplitPlain(parts[0], sep);
      } else {
        SplitFirst(parts[0], Join(parts[1..], sep), sep);
        SplitJoin(parts[1..], sep);
        assert parts == [parts[0]] + parts[1..];
      }
    }
  }

  // ---------- cutting one string in two ----------

  /** The text before and after the first occurrence of `mark`. */
  function CutFirst(s: string, mark: string): (r: Option<(string, string)>)
    ensures r.Some? ==> s == r.value.0 + mark + r.value.1
  {
    if mark <= s then Some(("", s[|mark|..]))
    else if s == "" then None
    else
      var rest := CutFirst(s[1..], mark);
      if rest.None? then None
      else
        assert s == [s[0]] + s[1..];
        Some(([s[0]] + rest.value.0, rest.value.1))
  }

  /** The text before and after the last occurrence of `mark`. */
  function CutLast(s: string, mark: char): (r: Option<(string, string)>)
    ensures r.Some? ==> s == r.value.0 + [mark] + r.value.1 && mark !in r.value.1
    ensures r.None? ==> mark !in s
  {
    if s == "" then None
    else
      var n := |s| - 1;
      assert s == s[..n] + [s[n]];
      if s[n] == mark then Some((s[..n], ""))
      else
        var rest := CutLast(s[..n], mark);
        if rest.None? then None else Some((rest.value.0, rest.value.1 + [s[n]]))
  }

  lemma {:induction false} CutLastAt(a: string, mark: char, b: string)
    requires mark !in b
    ensures CutLast(a + [mark] + b, mark) == Some((a, b))
  {
    var s := a + [mark] + b;
    if b == "" {
      assert s[..|s| - 1] == a;
    } else {
      var m := |b| - 1;
      assert s[..|s| - 1] == a + [mark] + b[..m];
      CutLastAt(a, mark, b[..m]);
      assert b == b[..m] + [b[m]];
    }
  }

  /** A mark whose first character occurs nowhere else in it cannot overlap itself. */
  predicate SelfDistinct(mark: string)
  {
    |mark| > 0 && forall i | 0 < i < |mark| :: mark[i] != mark[0]
  }

  /** The first occurrence of `mark` in `a + mark + b` is the written one exactly when `a` has none. */
  lemma {:induction false} CutFirstAt(a: string, mark: string, b: string)
    requires SelfDistinct(mark)
    ensures CutFirst(a + mark + b, mark) == Some((a, b)) <==> CutFirst(a, mark).None?
  {
    var s := a + mark + b;
    if a == "" {
      assert s == mark + b;
    } else {
      assert s[1..] == a[1..] + mark + b;
      assert a == [a[0]] + a[1..];
      if mark <= s {
        assert s[|a|] == mark[0];
        assert mark <= a;
      } else {
        assert !(mark <= a);
        CutFirstAt(a[1..], mark, b);
      }
    }
  }

  lemma {:induction false} NoFirstCut(s: string, mark: string)
    requires |mark| > 0 && mark[0] !in s
    ensures CutFirst(s, mark).None?
  {
    if s != "" {
      assert !(mark <= s);
      NoFirstCut(s[1..], mark);
    }
  }

  // ---------- lists of printed items ----------

  function Map<T>(show: T -> string, items: seq<T>): (texts: seq<string>)
    ensures |texts| == |items|
    ensures forall i | 0 <= i < |items| :: texts[i] == show(items[i])
  {
    seq(|items|, i requires 0 <= i < |items| => show(items[i]))
  }

  /** Reads every piece, or fails if one cannot be read. */
  function ReadAll<T>(pieces: seq<string>, parse: string -> Option<T>): (r: Option<seq<T>>)
    ensures r.Some? <==> forall i | 0 <= i < |pieces| :: parse(pieces[i]).Some?
    ensures r.Some? ==> |r.value| == |pieces| && forall i | 0 <= i < |pieces| :: parse(pieces[i]) == Some(r.value[i])
  {
    if pieces == [] then Some([])
    else
      var head, tail := parse(pieces[0]), ReadAll(pieces[1..], parse);
      if head.None? || tail.None? then None else Some([head.value] + tail.value)
  }

  /** The reader of a separator list: the empty text is the empty list. */
  function ReadList<T>(s: string, sep: char, parse: string -> Option<T>): Option<seq<T>>
  {
    if s == "" then Some([]) else ReadAll(Split(s, sep), parse)
  }

  /** A reader accepts only what the printer would print. */
  ghost predicate Sound<T(!new)>(show: T -> string, parse: string -> Option<T>)
  {
    && (forall s | parse(s).Some? :: show(parse(s).value) == s)
    && (forall t :: show(t) != "")
  }

  /** An accepted text is the printed form of what it was read as. */
  lemma ReadListSound<T(!new)>(s: string, sep: char, show: T -> string, parse: string -> Option<T>)
    requires Sound(show, parse)
    requires ReadList(s, sep, parse).Some?
    ensures Join(Map(show, ReadList(s, sep, parse).value), sep) == s
  {
    var items := ReadList(s, sep, parse).value;
    if s != "" {
      assert Map(show, items) == Split(s, sep);
    }
  }

  /**
   Printing a list and reading it back gives the same list if and only if every printed item is
   free of the separator and is itself read back correctly.
   */
  lemma ListRoundTrip<T(!new)>(items: seq<T>, sep: char, show: T -> string, parse: string -> Option<T>)
    requires Sound(show, parse)
    ensures ReadList(Join(Map(show, items), sep), sep, parse) == Some(items)
            <==> forall i | 0 <= i < |items| :: sep !in show(items[i]) && parse(show(items[i])) == Some(items[i])
  {
    var texts := Map(show, items);
    var s := Join(texts, sep);
    if items != [] {
      assert texts[0] != "";
      assert s != "";
      SplitJoin(texts, sep);
      var pieces := Split(s, sep);
      if ReadList(s, sep, parse) == Some(items) {
        assert forall i | 0 <= i < |items| :: parse(pieces[i]) == Some(items[i]);
        assert pieces == texts;
        assert forall i | 0 <= i < |items| :: texts[i] == pieces[i];
      }
      if forall i | 0 <= i < |items| :: sep !in show(items[i]) && parse(show(items[i])) == Some(items[i]) {
        assert forall i | 0 <= i < |texts| :: sep !in texts[i];
        assert ReadAll(pieces, parse).value == items;
      }
    }
  }

  // ---------- lower case ----------

  function LowerChar(c: char): char
  {
    if 'A' <= c <= 'Z' then (c as int + 32) as char else c
  }

  /** ASCII lower case; other characters stay. */
  function Lower(s: string): (t: string)
    ensures |t| == |s| && forall i | 0 <= i < |s| :: t[i] == LowerChar(s[i])
  {
    seq(|s|, i requires 0 <= i < |s| => LowerChar(s[i]))
  }

  // ---------- decimal numbers ----------

  function Digit(d: nat): char
    requires d < 10
  {
    (48 + d) as char
  }

  /** `%d` of a non-negative number. */
  function Natural(n: nat): (s: string)
    ensures |s| > 0
    ensures forall i | 0 <= i < |s| :: '0' <= s[i] <= '9'
  {
    if n < 10 then [Digit(n)] else Natural(n / 10) + [Digit(n % 10)]
  }

  /** `%d` of a signed number. */
  function Decimal(i: int): string
  {
    if i < 0 then "-" + Natural(-i) else Natural(i)
  }

  function NaturalValue(s: string): nat
  {
    if s == "" then 0
    else
      var c := s[|s| - 1];
      10 * NaturalValue(s[..|s| - 1]) + (if '0' <= c <= '9' then c as int - 48 else 0)
  }

  /** Reads a canonical decimal: no leading zeros, no `-0`, no stray characters. */
  function ParseDecimal(s: string): (r: Option<int>)
    ensures r.Some? ==> Decimal(r.value) == s
  {
    var i := if s != "" && s[0] == '-' then -(NaturalValue(s[1..]) as int) else NaturalValue(s);
    if Decimal(i) == s then Some(i) else None
  }

  lemma {:induction false} NaturalValueOfNatural(n: nat)
    ensures NaturalValue(Natural(n)) == n
  {
    if n >= 10 {
      NaturalValueOfNatural(n / 10);
      var s := Natural(n);
      assert s[..|s| - 1] == Natural(n / 10);
      assert n == 10 * (n / 10) + n % 10;
    }
  }

  lemma ParseDecimalOfDecimal(i: int)
    ensures ParseDecimal(Decimal(i)) == Some(i)
  {
    NaturalValueOfNatural(if i < 0 then -i else i);
    if i < 0 {
      assert Decimal(i)[1..] == Natural(-i);
    }
  }

  lemma DecimalCharacters(i: int)
    ensures |Decimal(i)| > 0
    ensures ',' !in Decimal(i) && ':' !in Decimal(i)
  {
  }
}
