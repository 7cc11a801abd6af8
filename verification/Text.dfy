/** The string primitives the controller relies on: strings.Split, strings.Cut
    and strings.TrimSpace, with the few laws the parsers need. */
module Text {

  /** unicode.IsSpace */
  predicate IsSpace(c: char) {
    c in {'\t', '\n', '\U{0B}', '\U{0C}', '\r', ' ', '\U{85}', '\U{A0}', '\U{1680}',
          '\U{2028}', '\U{2029}', '\U{202F}', '\U{205F}', '\U{3000}'}
    || '\U{2000}' <= c <= '\U{200A}'
  }

  function TrimLeft(s: string): string {
    if s != "" && IsSpace(s[0]) then TrimLeft(s[1..]) else s
  }

  function TrimRight(s: string): string {
    if s != "" && IsSpace(s[|s| - 1]) then TrimRight(s[..|s| - 1]) else s
  }

  function TrimSpace(s: string): string {
    TrimRight(TrimLeft(s))
  }

  /** A string that TrimSpace leaves alone. */
  predicate Trimmed(s: string) {
    s != "" ==> !IsSpace(s[0]) && !IsSpace(s[|s| - 1])
  }

  ghost predicate Blank(s: string) {
    forall i :: 0 <= i < |s| ==> IsSpace(s[i])
  }

  lemma {:induction false} TrimLeftPadded(l: string, s: string)
    requires Blank(l)
    ensures TrimLeft(l + s) == TrimLeft(s)
  {
    if l == "" {
      assert l + s == s;
    } else {
      assert (l + s)[1..] == l[1..] + s;
      TrimLeftPadded(l[1..], s);
    }
  }

  lemma {:induction false} TrimRightPadded(s: string, r: string)
    requires Blank(r)
    ensures TrimRight(s + r) == TrimRight(s)
  {
    if r == "" {
      assert s + r == s;
    } else {
      assert (s + r)[..|s + r| - 1] == s + r[..|r| - 1];
      TrimRightPadded(s, r[..|r| - 1]);
    }
  }

  /** Blanks around a string without any at its ends are what TrimSpace takes off. */
  lemma TrimSpacePadded(l: string, s: string, r: string)
    requires Blank(l) && Blank(r) && Trimmed(s)
    ensures TrimSpace(l + s + r) == s
  {
    assert l + s + r == l + (s + r);
    TrimLeftPadded(l, s + r);
    if s == "" {
      assert s + r == r && r + "" == r;
      TrimLeftPadded(r, "");
    } else {
      assert TrimLeft(s + r) == s + r;
      TrimRightPadded(s, r);
    }
  }

  /** TrimSpace takes off blanks only, and all of them. */
  lemma TrimSpaceTrims(s: string)
    ensures Trimmed(TrimSpace(s))
    ensures exists l, r :: Blank(l) && Blank(r) && s == l + TrimSpace(s) + r
  {
    TrimLeftTrims(s);
    TrimRightTrims(TrimLeft(s));
    var l :| Blank(l) && s == l + TrimLeft(s);
    var r :| Blank(r) && TrimLeft(s) == TrimSpace(s) + r;
    assert s == l + TrimSpace(s) + r;
  }

  lemma {:induction false} TrimLeftTrims(s: string)
    ensures TrimLeft(s) != "" ==> !IsSpace(TrimLeft(s)[0])
    ensures exists l :: Blank(l) && s == l + TrimLeft(s)
  {
    if s != "" && IsSpace(s[0]) {
      TrimLeftTrims(s[1..]);
      var l :| Blank(l) && s[1..] == l + TrimLeft(s[1..]);
      assert Blank([s[0]] + l) && s == [s[0]] + l + TrimLeft(s);
    } else {
      assert Blank("") && s == "" + TrimLeft(s);
    }
  }

  lemma {:induction false} TrimRightTrims(s: string)
    ensures TrimRight(s) != "" ==> TrimRight(s)[0] == s[0] && !IsSpace(TrimRight(s)[|TrimRight(s)| - 1])
    ensures exists r :: Blank(r) && s == TrimRight(s) + r
  {
    if s != "" && IsSpace(s[|s| - 1]) {
      TrimRightTrims(s[..|s| - 1]);
      var r :| Blank(r) && s[..|s| - 1] == TrimRight(s[..|s| - 1]) + r;
      assert Blank(r + [s[|s| - 1]]) && s == TrimRight(s) + (r + [s[|s| - 1]]);
    } else {
      assert Blank("") && s == TrimRight(s) + "";
    }
  }

  /** strings.Split for a one-character separator; never the empty list. */
  function Split(s: string, sep: char): (parts: seq<string>)
    ensures |parts| > 0
  {
    if s == "" then [""]
    else if s[0] == sep then [""] + Split(s[1..], sep)
    else
      var rest := Split(s[1..], sep);
      [[s[0]] + rest[0]] + rest[1..]
  }

  function Join(parts: seq<string>, sep: char): string {
    if parts == [] then ""
    else if |parts| == 1 then parts[0]
    else parts[0] + [sep] + Join(parts[1..], sep)
  }

  /** strings.Cut for a one-character separator: the text before and after the first one. */
  function Cut(s: string, sep: char): (string, string) {
    if s == "" then ("", "")
    else if s[0] == sep then ("", s[1..])
    else
      var (before, after) := Cut(s[1..], sep);
      ([s[0]] + before, after)
  }

  lemma {:induction false} SplitConcat(a: string, b: string, sep: char)
    ensures Split(a + [sep] + b, sep) == Split(a, sep) + Split(b, sep)
  {
    var s := a + [sep] + b;
    if a == "" {
      assert s[0] == sep && s[1..] == b;
    } else {
      assert s[0] == a[0] && s[1..] == a[1..] + [sep] + b;
      SplitConcat(a[1..], b, sep);
      if a[0] != sep {
        SplitConsOther(s, sep);
        SplitConsOther(a, sep);
      }
    }
  }

  lemma SplitConsOther(s: string, sep: char)
    requires s != "" && s[0] != sep
    ensures Split(s, sep) == [[s[0]] + Split(s[1..], sep)[0]] + Split(s[1..], sep)[1..]
  {
  }

  lemma {:induction false} SplitWhole(s: string, sep: char)
    requires sep !in s
    ensures Split(s, sep) == [s]
  {
    if s != "" {
      SplitWhole(s[1..], sep);
      assert [s[0]] + s[1..] == s;
    }
  }

  lemma {:induction false} SplitJoin(parts: seq<string>, sep: char)
    requires parts != [] && forall p :: p in parts ==> sep !in p
    ensures Split(Join(parts, sep), sep) == parts
  {
    SplitWhole(parts[0], sep);
    if |parts| > 1 {
      SplitJoin(parts[1..], sep);
      SplitConcat(parts[0], Join(parts[1..], sep), sep);
    }
  }

  lemma {:induction false} CutJoined(a: string, b: string, sep: char)
    requires sep !in a
    ensures Cut(a + [sep] + b, sep) == (a, b)
  {
    var s := a + [sep] + b;
    if a == "" {
      assert s[1..] == b;
    } else {
      assert s[1..] == a[1..] + [sep] + b;
      CutJoined(a[1..], b, sep);
      assert [a[0]] + a[1..] == a;
    }
  }

  lemma {:induction false} CutWhole(s: string, sep: char)
    requires sep !in s
    ensures Cut(s, sep) == (s, "")
  {
    if s != "" {
      CutWhole(s[1..], sep);
      assert [s[0]] + s[1..] == s;
    }
  }

  // ------------------------------------------------------------- sort.Strings

  predicate Less(a: string, b: string) {
    b != "" && (a == "" || a[0] < b[0] || (a[0] == b[0] && Less(a[1..], b[1..])))
  }

  /** Each of these comes before all later ones. */
  ghost predicate Ascending(s: seq<string>) {
    forall i, j :: 0 <= i < j < |s| ==> Less(s[i], s[j])
  }

  lemma {:induction false} LessIsTransitive(a: string, b: string, c: string)
    requires Less(a, b) && Less(b, c)
    ensures Less(a, c)
  {
    if a != "" && a[0] == b[0] && b[0] == c[0] {
      LessIsTransitive(a[1..], b[1..], c[1..]);
    }
  }

  lemma {:induction false} LessIsStrict(a: string)
    ensures !Less(a, a)
  {
    if a != "" {
      LessIsStrict(a[1..]);
    }
  }

  lemma {:induction false} LessIsTotal(a: string, b: string)
    ensures Less(a, b) || a == b || Less(b, a)
  {
    if a != "" && b != "" && a[0] == b[0] {
      LessIsTotal(a[1..], b[1..]);
      assert a == [a[0]] + a[1..] && b == [b[0]] + b[1..];
    }
  }

  /** The place of s among strings in order. */
  function Rank(sorted: seq<string>, s: string): (n: nat)
    ensures n <= |sorted|
  {
    if sorted != [] && Less(sorted[0], s) then 1 + Rank(sorted[1..], s) else 0
  }

  lemma {:induction false} InsertKeepsOrder(sorted: seq<string>, s: string)
    requires Ascending(sorted) && s !in sorted
    ensures var n := Rank(sorted, s); Ascending(sorted[..n] + [s] + sorted[n..])
  {
    RankSplits(sorted, s);
  }

  lemma {:induction false} RankSplits(sorted: seq<string>, s: string)
    requires Ascending(sorted) && s !in sorted
    ensures forall i :: 0 <= i < |sorted| ==> if i < Rank(sorted, s) then Less(sorted[i], s) else Less(s, sorted[i])
  {
    if sorted != [] {
      LessIsTotal(sorted[0], s);
      if Less(sorted[0], s) {
        assert forall i :: 0 <= i < |sorted| - 1 ==> sorted[1..][i] == sorted[i + 1];
        RankSplits(sorted[1..], s);
      } else {
        forall i | 0 <= i < |sorted| ensures Less(s, sorted[i]) {
          if i > 0 {
            LessIsTransitive(s, sorted[0], sorted[i]);
          }
        }
      }
    }
  }
}
