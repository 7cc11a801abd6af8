/** The target-clusters annotation (internal/controller/cross_cluster.go). */
module TargetClusters {
  import opened Text

  /** One entry: a cluster id and a namespace, "" meaning the source's own. */
  datatype Entry = Entry(id: string, ns: string)

  type Spokes = map<string, seq<string>>

  function ParseEntry(part: string): Entry {
    var (id, ns) := Cut(TrimSpace(part), ':');
    Entry(TrimSpace(id), TrimSpace(ns))
  }

  function Entries(csv: string): seq<Entry> {
    EntriesOf(Split(csv, ','))
  }

  function EntriesOf(parts: seq<string>): (es: seq<Entry>)
    ensures |es| == |parts|
  {
    seq(|parts|, i requires 0 <= i < |parts| => ParseEntry(parts[i]))
  }

  /** The namespaces that entry e lists for one cluster. */
  function ListedBy(e: Entry, id: string): seq<string> {
    if e.id == id then [e.ns] else []
  }

  /** The namespaces the entries list for one cluster, in order, repeats included. */
  function Listed(es: seq<Entry>, id: string): seq<string> {
    if es == [] then []
    else ListedBy(es[0], id) + Listed(es[1..], id)
  }

  /** First occurrences only, in order. */
  function FirstSeen(s: seq<string>): (r: seq<string>)
    ensures forall x :: x in r <==> x in s
    ensures forall i, j :: 0 <= i < j < |r| ==> r[i] != r[j]
  {
    if s == [] then []
    else
      var front := FirstSeen(s[..|s| - 1]);
      var x := s[|s| - 1];
      assert s == s[..|s| - 1] + [x];
      if x in front then front else front + [x]
  }

  /** What the parser's map means: each non-blank id that occurs, with its
      namespaces in first-seen order. */
  ghost predicate Means(m: Spokes, es: seq<Entry>) {
    && (forall id :: id in m <==> id != "" && Listed(es, id) != [])
    && (forall id :: id in m ==> m[id] == FirstSeen(Listed(es, id)))
  }

  lemma {:induction false} ListedConcat(a: seq<Entry>, b: seq<Entry>, id: string)
    ensures Listed(a + b, id) == Listed(a, id) + Listed(b, id)
  {
    if a == [] {
      assert a + b == b;
    } else {
      var rest := a[1..];
      assert (a + b)[1..] == rest + b && (a + b)[0] == a[0];
      ListedConcat(rest, b, id);
      assert Listed(a + b, id) == ListedBy(a[0], id) + Listed(rest + b, id);
      assert Listed(a, id) == ListedBy(a[0], id) + Listed(rest, id);
      hide Listed;
      hide ListedBy;
    }
  }

  lemma ListedSnoc(es: seq<Entry>, e: Entry, id: string)
    ensures Listed(es + [e], id) == if e.id == id then Listed(es, id) + [e.ns] else Listed(es, id)
  {
    ListedConcat(es, [e], id);
    assert [e][1..] == [];
    assert Listed(es, id) + [] == Listed(es, id);
  }

  lemma FirstSeenSnoc(s: seq<string>, x: string)
    ensures FirstSeen(s + [x]) == if x in s then FirstSeen(s) else FirstSeen(s) + [x]
  {
    assert (s + [x])[..|s|] == s;
  }

  lemma {:induction false} FirstSeenOfDistinct(s: seq<string>)
    requires forall i, j :: 0 <= i < j < |s| ==> s[i] != s[j]
    ensures FirstSeen(s) == s
  {
    if s != [] {
      FirstSeenOfDistinct(s[..|s| - 1]);
      assert s == s[..|s| - 1] + [s[|s| - 1]];
    }
  }

  lemma MeansIsUnique(m1: Spokes, m2: Spokes, es: seq<Entry>)
    requires Means(m1, es) && Means(m2, es)
    ensures m1 == m2
  {
    forall id ensures id in m1 <==> id in m2 {}
    forall id | id in m1 ensures m1[id] == m2[id] {}
  }

  /** The parser's loop body: ignore a blank id or a repeated namespace. */
  function AddEntry(m: Spokes, e: Entry): Spokes {
    var had := if e.id in m then m[e.id] else [];
    if e.id == "" || e.ns in had then m else m[e.id := had + [e.ns]]
  }

  ghost predicate MeansFor(m: Spokes, es: seq<Entry>, id: string) {
    if id == "" then id !in m
    else (if id in m then m[id] != [] && m[id] == FirstSeen(Listed(es, id)) else Listed(es, id) == [])
  }

  lemma MeansPointwise(m: Spokes, es: seq<Entry>)
    ensures Means(m, es) <==> forall id :: MeansFor(m, es, id)
  {
    forall id ensures FirstSeen(Listed(es, id)) == [] <==> Listed(es, id) == [] {
      if Listed(es, id) != [] {
        assert Listed(es, id)[0] in FirstSeen(Listed(es, id));
      }
    }
    if Means(m, es) {
      forall id ensures MeansFor(m, es, id) {}
    }
    if forall id :: MeansFor(m, es, id) {
      forall id
        ensures id in m <==> id != "" && Listed(es, id) != []
        ensures id in m ==> m[id] == FirstSeen(Listed(es, id))
      {
        assert MeansFor(m, es, id);
      }
    }
  }

  lemma FirstSeenMembers(s: seq<string>)
    ensures FirstSeen(s) == [] <==> s == []
    ensures forall x :: x in FirstSeen(s) <==> x in s
  {
    if s != [] {
      assert s[0] in FirstSeen(s);
    }
  }

  lemma MeansForSnoc(m: Spokes, es: seq<Entry>, e: Entry, id: string)
    requires MeansFor(m, es, id)
    ensures MeansFor(AddEntry(m, e), es + [e], id)
  {
    hide Listed;
    ListedSnoc(es, e, id);
    if id == e.id && id != "" {
      var before := Listed(es, id);
      FirstSeenMembers(before);
      FirstSeenSnoc(before, e.ns);
      hide FirstSeen;
      assert (if id in m then m[id] else []) == FirstSeen(before);
    }
  }

  lemma MeansSnoc(m: Spokes, es: seq<Entry>, e: Entry)
    requires Means(m, es)
    ensures Means(AddEntry(m, e), es + [e])
  {
    MeansPointwise(m, es);
    MeansPointwise(AddEntry(m, e), es + [e]);
    forall id ensures MeansFor(AddEntry(m, e), es + [e], id) {
      MeansForSnoc(m, es, e, id);
    }
  }

  lemma MeansStep(m: Spokes, parts: seq<string>, i: nat)
    requires i < |parts| && Means(m, EntriesOf(parts[..i]))
    ensures Means(AddEntry(m, ParseEntry(parts[i])), EntriesOf(parts[..i + 1]))
  {
    MeansSnoc(m, EntriesOf(parts[..i]), ParseEntry(parts[i]));
    assert EntriesOf(parts[..i + 1]) == EntriesOf(parts[..i]) + [ParseEntry(parts[i])];
  }

  /** parseTargetClusters. Go returns nil for the empty map; callers only index
      the result, so the two are the same here. */
  method ParseTargetClusters(csv: string) returns (out: Spokes)
    ensures Means(out, Entries(csv))
    ensures out == Parsed(csv)
  {
    out := map[];
    var parts := Split(csv, ',');
    for i := 0 to |parts|
      invariant Means(out, EntriesOf(parts[..i]))
    {
      MeansStep(out, parts, i);
      var (first, second) := Cut(TrimSpace(parts[i]), ':');
      var id, ns := TrimSpace(first), TrimSpace(second);
      assert ParseEntry(parts[i]) == Entry(id, ns);
      var had := if id in out then out[id] else [];
      if id == "" || ns in had {
        continue;
      }
      out := out[id := had + [ns]];
    }
    assert parts[..|parts|] == parts;
    ParsedMeans(csv);
    MeansIsUnique(out, Parsed(csv), Entries(csv));
  }

  /** The parsed map as a value. */
  function Parsed(csv: string): Spokes {
    var es := Entries(csv);
    map i | 0 <= i < |es| && es[i].id != "" :: es[i].id := FirstSeen(Listed(es, es[i].id))
  }

  lemma {:induction false} ListedSome(es: seq<Entry>, id: string)
    ensures Listed(es, id) != [] <==> exists i :: 0 <= i < |es| && es[i].id == id
  {
    if es != [] {
      ListedSome(es[1..], id);
      if Listed(es[1..], id) != [] {
        var i :| 0 <= i < |es[1..]| && es[1..][i].id == id;
        assert es[i + 1].id == id;
      }
      if i :| 0 <= i < |es| && es[i].id == id {
        if i > 0 {
          assert es[1..][i - 1].id == id;
        }
      }
    }
  }

  lemma ParsedMeans(csv: string)
    ensures Means(Parsed(csv), Entries(csv))
  {
    var es := Entries(csv);
    forall id ensures id in Parsed(csv) <==> id != "" && Listed(es, id) != [] {
      ListedSome(es, id);
    }
  }

  // ------------------------------------------------------------- printing back

  function PrintEntry(e: Entry): string {
    if e.ns == "" then e.id else e.id + ":" + e.ns
  }

  function Print(es: seq<Entry>): string {
    Join(seq(|es|, i requires 0 <= i < |es| => PrintEntry(es[i])), ',')
  }

  /** An entry the annotation's syntax can express. */
  predicate Printable(e: Entry) {
    && e.id != "" && Trimmed(e.id) && ',' !in e.id && ':' !in e.id
    && Trimmed(e.ns) && ',' !in e.ns
  }

  lemma TrimmedIsFixed(s: string)
    requires Trimmed(s)
    ensures TrimSpace(s) == s
  {
  }

  lemma PrintedEntryParses(e: Entry)
    requires Printable(e)
    ensures ParseEntry(PrintEntry(e)) == e && ',' !in PrintEntry(e)
  {
    var text := PrintEntry(e);
    assert text[0] == e.id[0];
    if e.ns == "" {
      CutWhole(e.id, ':');
    } else {
      assert e.id + ":" + e.ns == e.id + [':'] + e.ns;
      assert text[|text| - 1] == e.ns[|e.ns| - 1];
      CutJoined(e.id, e.ns, ':');
    }
    TrimmedIsFixed(text);
    TrimmedIsFixed(e.id);
    TrimmedIsFixed(e.ns);
  }

  lemma PrintedEntries(es: seq<Entry>)
    requires es != [] && forall e :: e in es ==> Printable(e)
    ensures Entries(Print(es)) == es
  {
    var parts := seq(|es|, i requires 0 <= i < |es| => PrintEntry(es[i]));
    forall i | 0 <= i < |es| ensures ParseEntry(parts[i]) == es[i] && ',' !in parts[i] {
      PrintedEntryParses(es[i]);
    }
    SplitJoin(parts, ',');
  }

  /** Parsing undoes printing: a map of printable ids to non-empty, repeat-free
      namespace lists, printed entry by entry in any interleaving that keeps each
      id's own order, parses back to itself. */
  lemma ParseUndoesPrint(m: Spokes, es: seq<Entry>)
    requires forall e :: e in es ==> Printable(e)
    requires forall id :: id in m ==> m[id] != [] && Listed(es, id) == m[id]
    requires forall id :: id in m ==> forall i, j :: 0 <= i < j < |m[id]| ==> m[id][i] != m[id][j]
    requires forall id :: id !in m ==> Listed(es, id) == []
    ensures Parsed(Print(es)) == m
  {
    if es == [] {
      assert m == map[] by {
        forall id ensures id !in m {}
      }
      assert Entries("") == [ParseEntry("")];
      assert Parsed(Print(es)) == map[];
    } else {
      PrintedEntries(es);
      ParsedMeans(Print(es));
      forall id ensures id in m ==> id != "" && FirstSeen(Listed(es, id)) == m[id] {
        if id in m {
          ListedSome(es, id);
          var i :| 0 <= i < |es| && es[i].id == id;
          assert Printable(es[i]);
          FirstSeenOfDistinct(m[id]);
        }
      }
      assert Means(m, es);
      MeansIsUnique(m, Parsed(Print(es)), es);
    }
  }

  // -------------------------------------------------------------- white space

  /** How an entry may be written: blanks on either side of the id and of the namespace, and a
      colon, needed only before a namespace. Or nothing but blanks. */
  datatype Piece =
    | Nothing(blanks: string)
    | Spelled(e: Entry, l: string, a: string, colon: bool, b: string, r: string)
  {
    ghost predicate Proper() {
      match this
      case Nothing(blanks) => Blank(blanks)
      case Spelled(e, l, a, colon, b, r) =>
        && Printable(e) && (e.ns != "" ==> colon)
        && Blank(l) && Blank(a) && Blank(b) && Blank(r)
    }

    function Text(): string {
      match this
      case Nothing(blanks) => blanks
      case Spelled(e, l, a, colon, b, r) => l + e.id + a + if colon then ":" + b + e.ns + r else ""
    }
  }

  lemma {:induction false} NoSeparatorInBlanks(s: string, c: char)
    requires Blank(s) && !IsSpace(c)
    ensures c !in s
  {
    if s != "" {
      assert s == [s[0]] + s[1..];
      NoSeparatorInBlanks(s[1..], c);
    }
  }

  /** The entries that pieces spell out, without the blank ones. */
  function Spells(ps: seq<Piece>): seq<Entry> {
    if ps == [] then []
    else (if ps[0].Spelled? then [ps[0].e] else []) + Spells(ps[1..])
  }

  function Texts(ps: seq<Piece>): (ts: seq<string>)
    ensures |ts| == |ps|
  {
    seq(|ps|, i requires 0 <= i < |ps| => ps[i].Text())
  }

  lemma TrimLeftStops(l: string, s: string)
    requires Blank(l) && s != "" && !IsSpace(s[0])
    ensures TrimLeft(l + s) == s
  {
    TrimLeftPadded(l, s);
  }

  lemma {:induction false} TrimRightStops(s: string, rest: string)
    requires s != "" && !IsSpace(s[|s| - 1])
    ensures TrimRight(s + rest) == s + TrimRight(rest)
  {
    if rest == "" {
      assert s + rest == s;
    } else if IsSpace(rest[|rest| - 1]) {
      assert (s + rest)[..|s + rest| - 1] == s + rest[..|rest| - 1];
      TrimRightStops(s, rest[..|rest| - 1]);
    }
  }

  /** The part after the colon has lost its blanks on the right already. */
  lemma NamespaceTrims(b: string, ns: string, r: string)
    requires Blank(b) && Blank(r) && Trimmed(ns)
    ensures TrimSpace(TrimRight(b + ns + r)) == ns
  {
    TrimRightPadded(b + ns, r);
    if ns == "" {
      assert b + ns == "" + b;
      TrimRightPadded("", b);
    } else {
      assert TrimRight(b + ns) == b + ns;
      assert b + ns == b + ns + "";
      TrimSpacePadded(b, ns, "");
    }
  }

  lemma PieceParses(p: Piece)
    requires p.Proper()
    ensures ParseEntry(p.Text()) == (if p.Spelled? then p.e else Entry("", "")) && ',' !in p.Text()
  {
    match p
    case Nothing(blanks) =>
      NoSeparatorInBlanks(blanks, ',');
      assert blanks == blanks + "" + "";
      TrimSpacePadded(blanks, "", "");
    case Spelled(e, l, a, colon, b, r) =>
      NoSeparatorInBlanks(l, ',');
      NoSeparatorInBlanks(a, ',');
      NoSeparatorInBlanks(a, ':');
      NoSeparatorInBlanks(b, ',');
      NoSeparatorInBlanks(r, ',');
      if colon {
        var head, tail := e.id + a + ":", b + e.ns + r;
        assert p.Text() == l + (head + tail);
        TrimLeftStops(l, head + tail);
        TrimRightStops(head, tail);
        assert head + TrimRight(tail) == (e.id + a) + [':'] + TrimRight(tail);
        CutJoined(e.id + a, TrimRight(tail), ':');
        NamespaceTrims(b, e.ns, r);
        assert e.id + a == "" + e.id + a;
        TrimSpacePadded("", e.id, a);
      } else {
        assert p.Text() == l + e.id + a;
        TrimSpacePadded(l, e.id, a);
        CutWhole(e.id, ':');
        TrimmedIsFixed(e.id);
        TrimmedIsFixed("");
      }
  }

  lemma {:induction false} BlankEntriesListNothing(ps: seq<Piece>, es: seq<Entry>, id: string)
    requires |es| == |ps| && id != ""
    requires forall i :: 0 <= i < |ps| ==> es[i] == if ps[i].Spelled? then ps[i].e else Entry("", "")
    ensures Listed(es, id) == Listed(Spells(ps), id)
  {
    if ps != [] {
      BlankEntriesListNothing(ps[1..], es[1..], id);
      if ps[0].Spelled? {
        assert ([ps[0].e] + Spells(ps[1..]))[1..] == Spells(ps[1..]);
      } else {
        assert [] + Spells(ps[1..]) == Spells(ps[1..]);
      }
    }
  }

  /** White space means nothing: a value written piece by piece, with blanks around ids and
      namespaces and blank pieces anywhere, parses to the map of the entries it spells out. */
  lemma ParseIgnoresBlanks(ps: seq<Piece>)
    requires ps != [] && forall p :: p in ps ==> p.Proper()
    ensures Means(Parsed(Join(Texts(ps), ',')), Spells(ps))
  {
    var parts := Texts(ps);
    forall i | 0 <= i < |ps|
      ensures ',' !in parts[i] && ParseEntry(parts[i]) == if ps[i].Spelled? then ps[i].e else Entry("", "")
    {
      PieceParses(ps[i]);
    }
    SplitJoin(parts, ',');
    var csv := Join(parts, ',');
    ParsedMeans(csv);
    forall id | id != "" ensures Listed(Entries(csv), id) == Listed(Spells(ps), id) {
      BlankEntriesListNothing(ps, Entries(csv), id);
    }
  }

  /** Appending one annotation value to another merges entry by entry: every
      cluster gets the namespaces of both, first seen first. */
  lemma ParseOfConcat(a: string, b: string, id: string)
    ensures Entries(a + "," + b) == Entries(a) + Entries(b)
    ensures id in Parsed(a + "," + b) <==> id in Parsed(a) || id in Parsed(b)
    ensures id in Parsed(a + "," + b) ==>
              Parsed(a + "," + b)[id] == FirstSeen(Listed(Entries(a), id) + Listed(Entries(b), id))
    ensures id in Parsed(a) ==> Parsed(a)[id] <= Parsed(a + "," + b)[id]
  {
    assert a + "," + b == a + [','] + b;
    SplitConcat(a, b, ',');
    assert Entries(a + "," + b) == Entries(a) + Entries(b);
    ParsedMeans(a);
    ParsedMeans(b);
    ParsedMeans(a + "," + b);
    ListedConcat(Entries(a), Entries(b), id);
    FirstSeenGrows(Listed(Entries(a), id), Listed(Entries(b), id));
  }

  lemma {:induction false} FirstSeenGrows(a: seq<string>, b: seq<string>)
    ensures FirstSeen(a) <= FirstSeen(a + b)
  {
    if b == [] {
      assert a + b == a;
    } else {
      FirstSeenGrows(a, b[..|b| - 1]);
      assert a + b == (a + b[..|b| - 1]) + [b[|b| - 1]];
      FirstSeenSnoc(a + b[..|b| - 1], b[|b| - 1]);
    }
  }

  // ------------------------------------------------------------ destNamespaces

  /** "" stands for the source's own namespace. */
  function Resolve(home: string, targets: seq<string>): (r: seq<string>)
    ensures |r| == |targets|
    ensures forall i :: 0 <= i < |r| ==> r[i] == if targets[i] == "" then home else targets[i]
  {
    seq(|targets|, i requires 0 <= i < |targets| => if targets[i] == "" then home else targets[i])
  }

  /** The namespaces on cluster id that a source in namespace home asks for. */
  function Dests(home: string, csv: string, id: string): set<string> {
    var m := Parsed(csv);
    if id in m then set ns | ns in Resolve(home, m[id]) else {}
  }

  method DestNamespaces(home: string, targets: seq<string>) returns (out: seq<string>)
    ensures out == FirstSeen(Resolve(home, targets))
  {
    out := [];
    for i := 0 to |targets|
      invariant out == FirstSeen(Resolve(home, targets[..i]))
    {
      var ns := targets[i];
      if ns == "" {
        ns := home;
      }
      assert Resolve(home, targets[..i + 1]) == Resolve(home, targets[..i]) + [ns];
      FirstSeenSnoc(Resolve(home, targets[..i]), ns);
      if ns !in out {
        out := out + [ns];
      }
    }
    assert targets[..|targets|] == targets;
  }
}
