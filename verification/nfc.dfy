/** NFC tag UIDs: one normal form whatever the spelling, and its byte-reverse. */
module NfcUid {
  import opened Quantities

  /** Whitespace, colon and hyphen separate; nothing else is dropped. */
  predicate Separator(c: char) {
    c == ':' || c == '-' || c == ' ' || '\t' <= c <= '\r' || '\U{1c}' <= c <= '\U{1f}'
  }

  function Upper(c: char): char { if 'a' <= c <= 'z' then c - 'a' + 'A' else c }

  predicate Hex(c: char) { '0' <= c <= '9' || 'A' <= c <= 'F' }

  function Compact(s: string): string {
    if s == "" then ""
    else (if Separator(s[0]) then "" else [Upper(s[0])]) + Compact(s[1..])
  }

  /** The byte pairs of a string of even length. */
  function Pairs(s: string): seq<string>
    requires |s| % 2 == 0
  {
    if s == "" then [] else [s[..2]] + Pairs(s[2..])
  }

  function Join(ps: seq<string>): string {
    if ps == [] then "" else if |ps| == 1 then ps[0] else ps[0] + ":" + Join(ps[1..])
  }

  predicate HexPair(p: string) { |p| == 2 && Hex(p[0]) && Hex(p[1]) }

  predicate HexPairs(ps: seq<string>) { forall i :: 0 <= i < |ps| ==> HexPair(ps[i]) }

  /** The normal form, or nothing for what is not a UID. */
  function Normalise(s: string): Option<string> {
    var compact := Compact(s);
    if compact == "" || |compact| % 2 != 0 || !HexPairs(Pairs(compact)) then None
    else Some(Join(Pairs(compact)))
  }

  function Split(s: string): seq<string> {
    if s == "" then [""]
    else
      var rest := Split(s[1..]);
      if s[0] == ':' then [""] + rest
      else if rest == [] then [[s[0]]]
      else [[s[0]] + rest[0]] + rest[1..]
  }

  function Reverse(ps: seq<string>): seq<string> {
    seq(|ps|, i requires 0 <= i < |ps| => ps[|ps| - 1 - i])
  }

  /** The byte-reverse of a normal form. */
  function Reversed(n: string): string { Join(Reverse(Split(n))) }

  predicate Normal(n: string) { Normalise(n) == Some(n) }

  // ----- the normal form -----

  lemma {:induction false} CompactJoin(ps: seq<string>)
    requires HexPairs(ps)
    ensures |Compact(Join(ps))| == 2 * |ps| && Pairs(Compact(Join(ps))) == ps
  {
    if |ps| == 1 {
      CompactPair(ps[0], "");
      assert ps[0] + "" == ps[0];
      assert ps[0][..2] == ps[0];
    } else if |ps| > 1 {
      var rest := Join(ps[1..]);
      CompactJoin(ps[1..]);
      CompactPair(ps[0], ":" + rest);
      assert ps[0] + (":" + rest) == Join(ps);
      assert (":" + rest)[1..] == rest;
      assert Compact(":" + rest) == Compact(rest);
      assert (ps[0] + Compact(rest))[..2] == ps[0] && (ps[0] + Compact(rest))[2..] == Compact(rest);
    }
  }

  lemma {:induction false} CompactPair(p: string, rest: string)
    requires HexPair(p)
    ensures Compact(p + rest) == p + Compact(rest)
  {
    assert (p + rest)[1..][1..] == rest;
    assert p == [p[0]] + [p[1]];
  }

  lemma {:induction false} SplitJoin(ps: seq<string>)
    requires HexPairs(ps) && ps != []
    ensures Split(Join(ps)) == ps
  {
    if |ps| == 1 {
      SplitPair(ps[0], "");
      assert ps[0] + "" == ps[0];
    } else {
      var rest := Join(ps[1..]);
      SplitJoin(ps[1..]);
      assert Join(ps) == ps[0] + (":" + rest);
      assert (":" + rest)[1..] == rest;
      SplitPair(ps[0], ":" + rest);
    }
  }

  lemma {:induction false} SplitPair(p: string, rest: string)
    requires HexPair(p) && (rest == "" || rest[0] == ':')
    ensures Split(p + rest) == if rest == "" then [p] else [p] + Split(rest[1..])
  {
    var s := p + rest;
    assert s[1..] == [p[1]] + rest && s[1..][1..] == rest;
    assert p == [p[0]] + [p[1]];
    var tail := if rest == "" then [[p[1]]] else [[p[1]]] + Split(rest[1..]);
    assert Split(rest) == if rest == "" then [""] else [""] + Split(rest[1..]);
    assert ([p[1]] + rest)[1..] == rest;
    assert [p[1]] + "" == [p[1]];
    assert Split([p[1]] + rest) == tail;
    assert [p[0]] + [p[1]] == p;
    assert Split(s) == [[s[0]] + tail[0]] + tail[1..];
  }

  /** Every join of byte pairs is a normal form. */
  lemma {:induction false} JoinedIsNormal(ps: seq<string>)
    requires HexPairs(ps) && ps != []
    ensures Normal(Join(ps))
  {
    CompactJoin(ps);
  }

  /** Normalising again changes nothing. */
  lemma NormaliseIsIdempotent(s: string)
    requires Normalise(s).Some?
    ensures Normal(Normalise(s).value)
  {
    JoinedIsNormal(Pairs(Compact(s)));
  }

  /** The byte-reverse of a normal form is a normal form, and reversing twice gives it back. */
  lemma ReversalIsAnInvolution(n: string)
    requires Normal(n)
    ensures Normal(Reversed(n)) && Reversed(Reversed(n)) == n
  {
    var ps := Pairs(Compact(n));
    SplitJoin(ps);
    JoinedIsNormal(Reverse(ps));
    SplitJoin(Reverse(ps));
    assert Reverse(Reverse(ps)) == ps;
  }

  // ----- what the forms are, character by character -----

  lemma {:induction false} CompactConcat(a: string, b: string)
    ensures Compact(a + b) == Compact(a) + Compact(b)
  {
    if a == "" {
      assert a + b == b;
    } else {
      assert (a + b)[1..] == a[1..] + b;
      CompactConcat(a[1..], b);
    }
  }

  const SEPARATORS: string := ":- \t\n\U{b}\U{c}\r\U{1c}\U{1d}\U{1e}\U{1f}"

  lemma SeparatorIs(c: char)
    ensures Separator(c) <==> c in SEPARATORS
  {
    var s := SEPARATORS;
    assert s[0] == ':' && s[1] == '-' && s[2] == ' ' && s[3] == '\t' && s[4] == '\n' && s[5] == '\U{b}';
    assert s[6] == '\U{c}' && s[7] == '\r' && s[8] == '\U{1c}' && s[9] == '\U{1d}';
    assert s[10] == '\U{1e}' && s[11] == '\U{1f}';
  }

  /** Separators do not matter, wherever they stand. */
  lemma SeparatorsIgnored(a: string, c: char, b: string)
    requires c in SEPARATORS
    ensures Normalise(a + [c] + b) == Normalise(a + b)
  {
    SeparatorIs(c);
    CompactConcat(a + [c], b);
    CompactConcat(a, [c]);
    CompactConcat(a, b);
    assert Compact([c]) == "";
    assert Compact(a + [c] + b) == Compact(a + b);
  }

  /** Nor does the case of a letter. */
  lemma CaseIgnored(a: string, c: char, b: string)
    requires 'a' <= c <= 'z'
    ensures Normalise(a + [c] + b) == Normalise(a + [(c as int - 32) as char] + b)
  {
    var upper := (c as int - 32) as char;
    CompactConcat(a + [c], b);
    CompactConcat(a, [c]);
    CompactConcat(a + [upper], b);
    CompactConcat(a, [upper]);
    assert Compact([c]) == Compact([upper]);
  }

  lemma {:induction false} PairsAt(s: string)
    requires |s| % 2 == 0
    ensures |Pairs(s)| == |s| / 2 && forall i :: 0 <= i < |s| / 2 ==> Pairs(s)[i] == s[2 * i..2 * i + 2]
  {
    if s != "" {
      PairsAt(s[2..]);
    }
  }

  lemma {:induction false} JoinAt(ps: seq<string>, i: nat)
    requires HexPairs(ps) && i < |ps|
    ensures |Join(ps)| == 3 * |ps| - 1
    ensures Join(ps)[3 * i..3 * i + 2] == ps[i] && (i < |ps| - 1 ==> Join(ps)[3 * i + 2] == ':')
  {
    if |ps| > 1 {
      var rest := Join(ps[1..]);
      JoinAt(ps[1..], if i == 0 then 0 else i - 1);
      assert Join(ps) == ps[0] + (":" + rest);
      if i > 0 {
        assert Join(ps)[3 * i..3 * i + 2] == rest[3 * (i - 1)..3 * (i - 1) + 2];
      }
    }
  }

  lemma {:induction false} CompactPlain(s: string)
    requires forall i :: 0 <= i < |s| ==> !Separator(s[i]) && !('a' <= s[i] <= 'z')
    ensures Compact(s) == s
  {
    if s != "" {
      CompactPlain(s[1..]);
    }
  }

  lemma HexPairsCons(p: string, ps: seq<string>)
    ensures HexPairs([p] + ps) <==> HexPair(p) && HexPairs(ps)
  {
    var all := [p] + ps;
    if HexPairs(all) {
      assert HexPair(all[0]);
      forall i | 0 <= i < |ps| ensures HexPair(ps[i]) {
        assert HexPair(all[i + 1]);
      }
    }
  }

  lemma {:induction false} PairsAreHex(s: string)
    requires |s| % 2 == 0
    ensures HexPairs(Pairs(s)) <==> forall c :: c in s ==> Hex(c)
  {
    if s != "" {
      var rest := s[2..];
      PairsAreHex(rest);
      assert s == [s[0], s[1]] + rest && Pairs(s) == [s[..2]] + Pairs(rest);
      HexPairsCons(s[..2], Pairs(rest));
    }
  }

  predicate JoinsAt(s: string, n: string, i: nat)
    requires i < |s| / 2 && |n| == |s| / 2 * 3 - 1
  {
    n[3 * i..3 * i + 2] == s[2 * i..2 * i + 2] && (i < |s| / 2 - 1 ==> n[3 * i + 2] == ':')
  }

  lemma {:induction false} JoinedPairs(s: string)
    requires s != "" && |s| % 2 == 0 && HexPairs(Pairs(s))
    ensures |Join(Pairs(s))| == |s| / 2 * 3 - 1
    ensures forall i :: 0 <= i < |s| / 2 ==> JoinsAt(s, Join(Pairs(s)), i)
  {
    PairsAt(s);
    JoinAt(Pairs(s), 0);
    forall i | 0 <= i < |s| / 2 ensures JoinsAt(s, Join(Pairs(s)), i) {
      JoinAt(Pairs(s), i);
    }
  }

  /** Of a spelling in capitals without separators: it is a UID exactly when it is an even number of
      hex digits, at least two, and its form has a colon between every two of them. */
  lemma PlainUid(s: string)
    requires forall i :: 0 <= i < |s| ==> s[i] !in SEPARATORS && !('a' <= s[i] <= 'z')
    ensures Normalise(s).Some? <==>
      s != "" && |s| % 2 == 0 && forall c :: c in s ==> '0' <= c <= '9' || 'A' <= c <= 'F'
    ensures Normalise(s).Some? ==> |Normalise(s).value| == |s| / 2 * 3 - 1
    ensures Normalise(s).Some? ==> forall i :: 0 <= i < |s| / 2 ==> JoinsAt(s, Normalise(s).value, i)
  {
    forall i | 0 <= i < |s| ensures !Separator(s[i]) {
      SeparatorIs(s[i]);
    }
    CompactPlain(s);
    hide Separator, Compact, Pairs, Join, HexPairs, JoinsAt;
    if s != "" && |s| % 2 == 0 {
      PairsAreHex(s);
      if HexPairs(Pairs(s)) {
        JoinedPairs(s);
      }
    }
  }

  /** The byte-reverse has the same bytes from the other end. */
  lemma ReversedBytes(n: string, i: nat)
    requires Normal(n) && 3 * i < |n|
    ensures |Reversed(n)| == |n| && |n| % 3 == 2
    ensures Reversed(n)[3 * i..3 * i + 2] == n[|n| - 2 - 3 * i..|n| - 3 * i]
    ensures 3 * i + 2 < |n| ==> Reversed(n)[3 * i + 2] == ':'
  {
    var ps := Pairs(Compact(n));
    SplitJoin(ps);
    JoinAt(ps, 0);
    ReverseAt(ps, i);
  }

  lemma {:induction false} ReverseAt(ps: seq<string>, i: nat)
    requires HexPairs(ps) && i < |ps|
    ensures var a, b := Join(Reverse(ps)), Join(ps);
      && |a| == |b| == 3 * |ps| - 1 && a[3 * i..3 * i + 2] == b[|b| - 2 - 3 * i..|b| - 3 * i]
      && (i < |ps| - 1 ==> a[3 * i + 2] == ':')
  {
    var k := |ps| - 1 - i;
    JoinAt(ps, k);
    JoinAt(Reverse(ps), i);
    assert Reverse(ps)[i] == ps[k];
  }
}

/** The tag store: imports that are all or nothing, and the lookup of a scanned UID. */
module NfcTags {
  import opened Quantities
  import opened NfcUid

  datatype Tag = Tag(outlet: nat, primary: string, reversed: string, active: bool)

  /** A CSV line: the outlet's name, the UID, and its reverse where the file gives it. */
  datatype Line = Line(outlet: string, uid: string, uidReversed: string)

  predicate Has(t: Tag, form: string) { t.primary == form || t.reversed == form }

  /** Both byte orders of a tag are stored, each the other's reverse. */
  ghost predicate BothForms(t: Tag) { Normal(t.primary) && t.reversed == Reversed(t.primary) }

  /** Tags that share a byte order sit on one outlet; the two UNIQUE columns hold. */
  ghost predicate Coherent(tags: seq<Tag>) {
    && (forall i :: 0 <= i < |tags| ==> BothForms(tags[i]))
    && (forall i, j, form :: 0 <= i < |tags| && 0 <= j < |tags| && Has(tags[i], form) && Has(tags[j], form) ==>
          tags[i].outlet == tags[j].outlet)
    && (forall i, j :: 0 <= i < j < |tags| ==> !Clash(tags[i], tags[j]))
  }

  predicate Clash(a: Tag, b: Tag) { a.primary == b.primary || a.reversed == b.reversed }

  // ----- lookup -----

  predicate Answers(t: Tag, n: string) { t.active && Has(t, n) }

  /** What the query may return for a scanned UID: the outlet of any active row with that form, in
      no particular order, and nothing only when there is no such row. */
  ghost predicate MayResolve(tags: seq<Tag>, scanned: string, outlet: Option<nat>) {
    var n := Normalise(scanned);
    if n.None? then outlet.None? else Resolves(tags, n.value, outlet)
  }

  ghost predicate Resolves(tags: seq<Tag>, n: string, outlet: Option<nat>) {
    if outlet.None? then forall i :: 0 <= i < |tags| ==> !Answers(tags[i], n)
    else exists i :: 0 <= i < |tags| && Answers(tags[i], n) && tags[i].outlet == outlet.value
  }

  /** The outlet of a scanned UID, whichever byte order the phone used. */
  method Lookup(tags: seq<Tag>, scanned: string) returns (outlet: Option<nat>)
    ensures MayResolve(tags, scanned, outlet)
  {
    var n := Normalise(scanned);
    if n.None? {
      return None;
    }
    for i := 0 to |tags|
      invariant forall j :: 0 <= j < i ==> !Answers(tags[j], n.value)
    {
      if Answers(tags[i], n.value) {
        return Some(tags[i].outlet);
      }
    }
    outlet := None;
  }

  lemma SameTags(t: Tag, n: string)
    requires BothForms(t) && Normal(n)
    ensures Has(t, n) <==> Has(t, Reversed(n))
  {
    ReversalIsAnInvolution(t.primary);
    ReversalIsAnInvolution(n);
  }

  /** All rows that hold a UID in either byte order sit on one outlet. */
  lemma OneOutletPerUid(tags: seq<Tag>, n: string, i: nat, j: nat)
    requires Coherent(tags) && Normal(n) && i < |tags| && j < |tags|
    requires Has(tags[i], n) && (Has(tags[j], n) || Has(tags[j], Reversed(n)))
    ensures tags[i].outlet == tags[j].outlet
  {
    SameTags(tags[j], n);
  }

  /** A UID and its byte-reverse never resolve to different outlets, nor one of them to none,
      whichever matching row each query returns. */
  lemma BothOrdersResolveAlike(tags: seq<Tag>, scanned: string, r: Option<nat>, r': Option<nat>)
    requires Coherent(tags) && Normalise(scanned).Some?
    requires MayResolve(tags, scanned, r) && MayResolve(tags, Reversed(Normalise(scanned).value), r')
    ensures r == r'
  {
    var n := Normalise(scanned).value;
    NormaliseIsIdempotent(scanned);
    ReversalIsAnInvolution(n);
    forall i | 0 <= i < |tags| ensures Answers(tags[i], n) <==> Answers(tags[i], Reversed(n)) {
      SameTags(tags[i], n);
    }
    if r.Some? && r'.Some? {
      var i :| 0 <= i < |tags| && Answers(tags[i], n) && tags[i].outlet == r.value;
      var j :| 0 <= j < |tags| && Answers(tags[j], Reversed(n)) && tags[j].outlet == r'.value;
      OneOutletPerUid(tags, n, i, j);
    }
  }

  // ----- import -----

  predicate LineReads(outlets: map<string, nat>, l: Line) {
    && l.outlet in outlets
    && Normalise(l.uid).Some?
    && (l.uidReversed != "" ==> Normalise(l.uidReversed) == Some(Reversed(Normalise(l.uid).value)))
  }

  function TagOf(outlets: map<string, nat>, l: Line): Tag
    requires LineReads(outlets, l)
  {
    Tag(outlets[l.outlet], Normalise(l.uid).value, Reversed(Normalise(l.uid).value), true)
  }

  ghost predicate AllRead(outlets: map<string, nat>, lines: seq<Line>) {
    forall i :: 0 <= i < |lines| ==> LineReads(outlets, lines[i])
  }

  /** The tags a file asks for, line by line. */
  function Asked(outlets: map<string, nat>, lines: seq<Line>): seq<Tag>
    requires AllRead(outlets, lines)
  {
    seq(|lines|, i requires 0 <= i < |lines| => TagOf(outlets, lines[i]))
  }

  predicate Meets(a: Tag, b: Tag) { Has(a, b.primary) || Has(a, b.reversed) }

  /** Two tags of one UID on different outlets. */
  predicate Moves(a: Tag, b: Tag) { Meets(a, b) && a.outlet != b.outlet }

  /** What is asked moves nothing: no two lines put a UID on different outlets, and none puts a
      stored UID on another outlet. */
  ghost predicate Fits(tags: seq<Tag>, asked: seq<Tag>) {
    && (forall i, j :: 0 <= i < j < |asked| ==> !Moves(asked[i], asked[j]))
    && (forall k, i :: 0 <= k < |tags| && 0 <= i < |asked| ==> !Moves(tags[k], asked[i]))
  }

  /** A file without errors. */
  ghost predicate Clean(tags: seq<Tag>, outlets: map<string, nat>, lines: seq<Line>) {
    AllRead(outlets, lines) && Fits(tags, Asked(outlets, lines))
  }

  function Existing(tags: seq<Tag>, t: Tag): (k: Option<nat>)
    ensures k.Some? ==> k.value < |tags| && Meets(tags[k.value], t)
    ensures k.None? ==> forall i :: 0 <= i < |tags| ==> !Meets(tags[i], t)
  {
    if tags == [] then None
    else
      var k := Existing(tags[..|tags| - 1], t);
      if k.Some? then k else if Meets(tags[|tags| - 1], t) then Some(|tags| - 1) else None
  }

  /** The tags to add: those asked for that no stored tag meets. */
  function Pending(tags: seq<Tag>, asked: seq<Tag>): (p: seq<Tag>)
    ensures forall t :: t in p <==> t in asked && Existing(tags, t).None?
  {
    if asked == [] then []
    else
      var t := asked[|asked| - 1];
      assert forall u :: u in asked <==> u in asked[..|asked| - 1] || u == t;
      Pending(tags, asked[..|asked| - 1]) + if Existing(tags, t).Some? then [] else [t]
  }

  // ----- the columns -----

  const COLUMN_WIDTH: nat := 64

  predicate TooWide(t: Tag) { |t.primary| > COLUMN_WIDTH || |t.reversed| > COLUMN_WIDTH }

  /** The file brings a new UID that its columns do not hold. */
  ghost predicate Overflows(tags: seq<Tag>, asked: seq<Tag>) {
    exists i :: 0 <= i < |asked| && TooWide(asked[i]) && Existing(tags, asked[i]).None?
  }

  lemma {:induction false} JoinLength(ps: seq<string>)
    requires HexPairs(ps) && ps != []
    ensures |Join(ps)| == 3 * |ps| - 1
  {
    if |ps| > 1 {
      JoinLength(ps[1..]);
    }
  }

  /** The columns hold 21 bytes in either order, and no more. */
  lemma {:induction false} WideIsLong(n: string)
    requires Normal(n)
    ensures |n| == |Reversed(n)| == 3 * |Pairs(Compact(n))| - 1
    ensures TooWide(Tag(0, n, Reversed(n), true)) <==> |Pairs(Compact(n))| > 21
  {
    var ps := Pairs(Compact(n));
    SplitJoin(ps);
    JoinLength(ps);
    JoinLength(Reverse(ps));
  }

  ghost predicate Clashes(tags: seq<Tag>) { exists i, j :: 0 <= i < j < |tags| && Clash(tags[i], tags[j]) }

  predicate Repeated(tags: seq<Tag>, a: Tag, b: Tag) {
    Clash(a, b) && Existing(tags, a).None? && Existing(tags, b).None?
  }

  /** The file brings the same UID twice, in the same byte order, and no stored tag has it. */
  ghost predicate Repeats(tags: seq<Tag>, asked: seq<Tag>) {
    exists i, j :: 0 <= i < j < |asked| && Repeated(tags, asked[i], asked[j])
  }

  lemma ClashesAppend(p: seq<Tag>, t: Tag)
    ensures Clashes(p + [t]) <==> Clashes(p) || exists a :: a in p && Clash(a, t)
  {
    var q := p + [t];
    if Clashes(p) {
      var i, j :| 0 <= i < j < |p| && Clash(p[i], p[j]);
      assert Clash(q[i], q[j]);
    }
    if a :| a in p && Clash(a, t) {
      var i :| 0 <= i < |p| && p[i] == a;
      assert Clash(q[i], q[|p|]);
    }
  }

  lemma RepeatsAppend(tags: seq<Tag>, asked: seq<Tag>, t: Tag)
    ensures Repeats(tags, asked + [t]) <==> Repeats(tags, asked) || exists a :: a in asked && Repeated(tags, a, t)
  {
    var all := asked + [t];
    if Repeats(tags, asked) {
      var i, j :| 0 <= i < j < |asked| && Repeated(tags, asked[i], asked[j]);
      assert Repeated(tags, all[i], all[j]);
    }
    if a :| a in asked && Repeated(tags, a, t) {
      var i :| 0 <= i < |asked| && asked[i] == a;
      assert Repeated(tags, all[i], all[|asked|]);
    }
  }

  lemma {:induction false} NewMeetsNew(tags: seq<Tag>, asked: seq<Tag>, t: Tag)
    requires Existing(tags, t).None?
    ensures (exists a :: a in Pending(tags, asked) && Clash(a, t)) <==> (exists a :: a in asked && Repeated(tags, a, t))
  {
    var p := Pending(tags, asked);
    if a :| a in p && Clash(a, t) {
      assert a in asked && Repeated(tags, a, t);
    }
    if a :| a in asked && Repeated(tags, a, t) {
      assert a in p && Clash(a, t);
    }
  }

  /** The pending tags clash exactly when a new UID is repeated in the same byte order. */
  lemma {:induction false} PendingClashes(tags: seq<Tag>, asked: seq<Tag>)
    ensures Clashes(Pending(tags, asked)) <==> Repeats(tags, asked)
  {
    if asked != [] {
      var init, t := asked[..|asked| - 1], asked[|asked| - 1];
      PendingClashes(tags, init);
      assert asked == init + [t];
      RepeatsAppend(tags, init, t);
      if Existing(tags, t).None? {
        ClashesAppend(Pending(tags, init), t);
        NewMeetsNew(tags, init, t);
      } else {
        assert Pending(tags, asked) == Pending(tags, init);
      }
    }
  }

  lemma PendingApart(tags: seq<Tag>, asked: seq<Tag>, a: Tag, b: Tag, form: string)
    requires Fits(tags, asked) && a in asked && b in asked && Has(a, form) && Has(b, form)
    ensures a.outlet == b.outlet
  {
    var i :| 0 <= i < |asked| && asked[i] == a;
    var j :| 0 <= j < |asked| && asked[j] == b;
    if i < j {
      assert !Moves(asked[i], asked[j]);
    } else if j < i {
      assert !Moves(asked[j], asked[i]);
    }
  }

  /** Adding what a clean file brings keeps the store coherent, unless the constraint stops it. */
  lemma {:induction false} ImportKeepsCoherent(tags: seq<Tag>, asked: seq<Tag>)
    requires Coherent(tags) && Fits(tags, asked) && !Clashes(Pending(tags, asked))
    requires forall i :: 0 <= i < |asked| ==> BothForms(asked[i])
    ensures Coherent(tags + Pending(tags, asked))
  {
    var p := Pending(tags, asked);
    var all := tags + p;
    forall k | 0 <= k < |p| ensures BothForms(p[k]) && Existing(tags, p[k]).None? && p[k] in asked {
      assert p[k] in p;
    }
    forall i, j, form | 0 <= i < |all| && 0 <= j < |all| && Has(all[i], form) && Has(all[j], form)
      ensures all[i].outlet == all[j].outlet
    {
      if i >= |tags| && j >= |tags| {
        PendingApart(tags, asked, all[i], all[j], form);
      }
    }
    forall i, j | 0 <= i < j < |all| ensures !Clash(all[i], all[j]) {
      if i >= |tags| {
        assert !Clash(p[i - |tags|], p[j - |tags|]);
      } else if j >= |tags| {
        assert !Meets(tags[i], all[j]);
      }
    }
  }

  lemma TagOfHasBothForms(outlets: map<string, nat>, l: Line)
    requires LineReads(outlets, l)
    ensures BothForms(TagOf(outlets, l))
  {
    NormaliseIsIdempotent(l.uid);
  }

  /** Of tags in both forms, one stored tag that meets the asked one speaks for all. */
  lemma OneSpeaksForAll(tags: seq<Tag>, k: nat, t: Tag)
    requires Coherent(tags) && BothForms(t) && k < |tags| && Meets(tags[k], t)
    ensures forall j :: 0 <= j < |tags| && Meets(tags[j], t) ==> tags[j].outlet == tags[k].outlet
  {
    forall j | 0 <= j < |tags| && Meets(tags[j], t) ensures tags[j].outlet == tags[k].outlet {
      SameTags(tags[j], t.primary);
      SameTags(tags[k], t.primary);
      assert Has(tags[j], t.primary) && Has(tags[k], t.primary);
    }
  }

  // ----- the import itself -----

  function Names(lines: seq<Line>): seq<string> {
    seq(|lines|, i requires 0 <= i < |lines| => lines[i].outlet)
  }

  /** What the loop has seen: every form asked for so far, under the name it was asked for. */
  ghost predicate SeenAll(seen: map<string, string>, asked: seq<Tag>, names: seq<string>)
    requires |names| == |asked|
  {
    && (forall form :: form in seen ==> exists i :: 0 <= i < |asked| && Has(asked[i], form))
    && (forall i, form :: 0 <= i < |asked| && Has(asked[i], form) ==> form in seen && seen[form] == names[i])
  }

  predicate SeenAs(seen: map<string, string>, t: Tag, name: string) {
    (t.primary in seen ==> seen[t.primary] == name) && (t.reversed in seen ==> seen[t.reversed] == name)
  }

  datatype Report = Imported | HasErrors | ConstraintBroken

  ghost predicate OneNameEach(outlets: map<string, nat>) {
    forall a, b :: a in outlets && b in outlets && outlets[a] == outlets[b] ==> a == b
  }

  /** Whether one more readable line fits what came before. */
  ghost predicate FitsNext(tags: seq<Tag>, asked: seq<Tag>, t: Tag) {
    && (forall i :: 0 <= i < |asked| ==> !Moves(asked[i], t))
    && (forall k :: 0 <= k < |tags| ==> !Moves(tags[k], t))
  }

  lemma FitsAppend(tags: seq<Tag>, asked: seq<Tag>, t: Tag)
    ensures Fits(tags, asked + [t]) <==> Fits(tags, asked) && FitsNext(tags, asked, t)
  {
    var all := asked + [t];
    if Fits(tags, all) {
      forall i, j | 0 <= i < j < |asked| ensures !Moves(asked[i], asked[j]) {
        assert !Moves(all[i], all[j]);
      }
      forall k, i | 0 <= k < |tags| && 0 <= i < |asked| ensures !Moves(tags[k], asked[i]) {
        assert !Moves(tags[k], all[i]);
      }
      forall i | 0 <= i < |asked| ensures !Moves(asked[i], t) {
        assert !Moves(all[i], all[|asked|]);
      }
      forall k | 0 <= k < |tags| ensures !Moves(tags[k], t) {
        assert !Moves(tags[k], all[|asked|]);
      }
    }
  }

  lemma AskedAppend(outlets: map<string, nat>, lines: seq<Line>, l: Line)
    requires AllRead(outlets, lines) && LineReads(outlets, l)
    ensures AllRead(outlets, lines + [l]) && Asked(outlets, lines + [l]) == Asked(outlets, lines) + [TagOf(outlets, l)]
  {}

  lemma SeenDecides(seen: map<string, string>, asked: seq<Tag>, names: seq<string>, t: Tag, name: string)
    requires |names| == |asked| && SeenAll(seen, asked, names)
    requires forall i :: 0 <= i < |asked| ==> (asked[i].outlet == t.outlet <==> names[i] == name)
    ensures (forall i :: 0 <= i < |asked| ==> !Moves(asked[i], t)) <==> SeenAs(seen, t, name)
  {
    if t.primary in seen && seen[t.primary] != name {
      var i :| 0 <= i < |asked| && Has(asked[i], t.primary);
      assert Moves(asked[i], t);
    }
    if t.reversed in seen && seen[t.reversed] != name {
      var i :| 0 <= i < |asked| && Has(asked[i], t.reversed);
      assert Moves(asked[i], t);
    }
  }

  lemma SeenNext(seen: map<string, string>, asked: seq<Tag>, names: seq<string>, t: Tag, name: string)
    requires |names| == |asked| && SeenAll(seen, asked, names) && SeenAs(seen, t, name)
    ensures SeenAll(seen[t.primary := name][t.reversed := name], asked + [t], names + [name])
  {
    var all, after := asked + [t], seen[t.primary := name][t.reversed := name];
    forall form | form in after ensures exists i :: 0 <= i < |all| && Has(all[i], form) {
      if Has(t, form) {
        assert Has(all[|asked|], form);
      } else {
        var i :| 0 <= i < |asked| && Has(asked[i], form);
        assert Has(all[i], form);
      }
    }
  }

  class TagStore {
    var tags: seq<Tag>
    /** The database enforces the columns' width: PostgreSQL does, SQLite does not. */
    const checksWidth: bool

    constructor (checksWidth: bool)
      ensures tags == [] && Coherent(tags) && this.checksWidth == checksWidth
    {
      this.checksWidth := checksWidth;
      tags := [];
    }

    /** One line: may it be added to a file that was clean so far? */
    method CheckLine(seen: map<string, string>, outlets: map<string, nat>, t: Tag, name: string)
        returns (errors: nat, isNew: bool)
      ensures errors == 0 <==>
        && SeenAs(seen, t, name)
        && (Existing(tags, t).Some? ==> tags[Existing(tags, t).value].outlet == t.outlet)
      ensures isNew <==> Existing(tags, t).None?
    {
      errors := 0;
      if t.primary in seen && seen[t.primary] != name {
        errors := errors + 1;
      }
      if t.reversed in seen && seen[t.reversed] != name {
        errors := errors + 1;
      }
      var existing := Existing(tags, t);
      isNew := existing.None?;
      if existing.Some? && tags[existing.value].outlet != t.outlet {
        errors := errors + 1;
      }
    }

    /** Import a file: all of it or nothing. It is refused with errors exactly when it is not
        clean, fails on the table's constraints exactly when it is clean but repeats a new UID or
        brings one too wide for a column that is checked, and otherwise adds exactly the pending
        tags; the store stays coherent either way. */
    method ImportCsv(outlets: map<string, nat>, lines: seq<Line>) returns (r: Report)
      requires Coherent(tags) && OneNameEach(outlets)
      modifies this
      ensures Coherent(tags)
      ensures r.HasErrors? <==> !Clean(old(tags), outlets, lines)
      ensures r.ConstraintBroken? <==>
        && Clean(old(tags), outlets, lines)
        && (Repeats(old(tags), Asked(outlets, lines))
            || (checksWidth && Overflows(old(tags), Asked(outlets, lines))))
      ensures tags == if r.Imported? then old(tags) + Pending(old(tags), Asked(outlets, lines)) else old(tags)
    {
      hide Normalise, Reversed, Normal, Coherent, Repeats, Overflows, SeenAs, Has, Meets, Existing, TagOf;
      var seen: map<string, string>, pending: seq<Tag>, errors := map[], [], 0;
      for n := 0 to |lines|
        invariant tags == old(tags)
        invariant errors == 0 <==> Clean(tags, outlets, lines[..n])
        invariant errors == 0 ==>
          && SeenAll(seen, Asked(outlets, lines[..n]), Names(lines[..n]))
          && pending == Pending(tags, Asked(outlets, lines[..n]))
      {
        var l := lines[n];
        assert lines[..n + 1] == lines[..n] + [l];
        if !LineReads(outlets, l) {
          assert !AllRead(outlets, lines[..n + 1]);
          errors := errors + 1;
          continue;
        }
        var t := TagOf(outlets, l);
        var found, isNew := CheckLine(seen, outlets, t, l.outlet);
        if errors == 0 {
          NextLine(tags, outlets, lines[..n], l, seen);
        } else {
          StaysDirty(tags, outlets, lines[..n], l);
        }
        seen := seen[t.primary := l.outlet][t.reversed := l.outlet];
        errors := errors + found;
        if isNew {
          pending := pending + [t];
        }
      }
      assert lines[..|lines|] == lines;
      if errors > 0 {
        return HasErrors;
      }
      forall i | 0 <= i < |lines| ensures BothForms(Asked(outlets, lines)[i]) {
        TagOfHasBothForms(outlets, lines[i]);
      }
      r := AddAll(pending, Asked(outlets, lines));
    }

    /** The rows are added in one transaction, which a broken constraint stops. */
    method AddAll(pending: seq<Tag>, ghost asked: seq<Tag>) returns (r: Report)
      requires Coherent(tags) && Fits(tags, asked) && pending == Pending(tags, asked)
      requires forall i :: 0 <= i < |asked| ==> BothForms(asked[i])
      modifies this
      ensures Coherent(tags) && !r.HasErrors?
      ensures r.ConstraintBroken? <==> Repeats(old(tags), asked) || (checksWidth && Overflows(old(tags), asked))
      ensures tags == if r.Imported? then old(tags) + pending else old(tags)
    {
      PendingClashes(tags, asked);
      PendingOverflows(tags, asked);
      var clash := exists i, j :: 0 <= i < j < |pending| && Clash(pending[i], pending[j]);
      if clash || (checksWidth && AnyTooWide(pending)) {
        return ConstraintBroken;
      }
      ImportKeepsCoherent(tags, asked);
      tags := tags + pending;
      r := Imported;
    }
  }

  predicate AnyTooWide(tags: seq<Tag>) { exists i :: 0 <= i < |tags| && TooWide(tags[i]) }

  lemma {:induction false} PendingOverflows(tags: seq<Tag>, asked: seq<Tag>)
    ensures AnyTooWide(Pending(tags, asked)) <==> Overflows(tags, asked)
  {
    var p := Pending(tags, asked);
    if AnyTooWide(p) {
      var i :| 0 <= i < |p| && TooWide(p[i]);
      assert p[i] in p;
      var j :| 0 <= j < |asked| && asked[j] == p[i];
      assert TooWide(asked[j]) && Existing(tags, asked[j]).None?;
    }
    if Overflows(tags, asked) {
      var i :| 0 <= i < |asked| && TooWide(asked[i]) && Existing(tags, asked[i]).None?;
      assert asked[i] in p;
      var j :| 0 <= j < |p| && p[j] == asked[i];
      assert TooWide(p[j]);
    }
  }

  function Digits(n: nat): string { if n == 0 then "" else "AB" + Digits(n - 1) }

  lemma {:induction false} DigitsAreHex(n: nat)
    ensures |Digits(n)| == 2 * n && Compact(Digits(n)) == Digits(n)
    ensures HexPairs(Pairs(Digits(n))) && |Pairs(Digits(n))| == n
  {
    if n > 0 {
      DigitsAreHex(n - 1);
      CompactPair("AB", Digits(n - 1));
      assert ("AB" + Digits(n - 1))[..2] == "AB" && ("AB" + Digits(n - 1))[2..] == Digits(n - 1);
    }
  }

  /** A clean file of one line, whose UID has more than 21 bytes, does not fit. */
  lemma {:induction false} LongUidFails(n: nat)
    requires n > 21
    ensures var outlets, lines := map["Q1" := 0], [Line("Q1", Digits(n), "")];
      Clean([], outlets, lines) && Overflows([], Asked(outlets, lines)) && !Repeats([], Asked(outlets, lines))
  {
    var outlets, l := map["Q1" := 0], Line("Q1", Digits(n), "");
    DigitsAreHex(n);
    var uid := Normalise(l.uid).value;
    CompactJoin(Pairs(Digits(n)));
    NormaliseIsIdempotent(l.uid);
    WideIsLong(uid);
    assert LineReads(outlets, l);
    var asked := Asked(outlets, [l]);
    assert asked[0] == Tag(0, uid, Reversed(uid), true) && TooWide(asked[0]);
  }

  /** A line given twice is such a repeat, although each outlet's UID is already "on the same
      outlet" the second time: nothing of the file is written. */
  lemma RepeatedLineFails()
    ensures var outlets, lines := map["Q1" := 0], [Line("Q1", "AB", ""), Line("Q1", "AB", "")];
      Clean([], outlets, lines) && Repeats([], Asked(outlets, lines))
  {
    var outlets, l := map["Q1" := 0], Line("Q1", "AB", "");
    assert Compact("AB") == "AB" by {
      assert "AB"[1..] == "B" && "B"[1..] == "";
    }
    assert "AB"[..2] == "AB" && "AB"[2..] == "";
    assert LineReads(outlets, l);
    var asked := Asked(outlets, [l, l]);
    assert Repeated([], asked[0], asked[1]);
  }

  // ----- what an import means for the phones -----

  /** The UID of a line and of a tag, in whichever byte order, are the same. */
  predicate Alike(n: string, t: Tag) { n in {t.primary, t.reversed} || Reversed(n) in {t.primary, t.reversed} }

  /** A file is free of errors exactly when every line names an outlet of the cabinet and gives a UID,
      with the right reverse if it gives one, no UID stands in the file for two outlets in whichever
      byte order, and none is stored for another outlet. */
  lemma CleanMeans(tags: seq<Tag>, outlets: map<string, nat>, lines: seq<Line>)
    ensures Clean(tags, outlets, lines) <==>
      && (forall i :: 0 <= i < |lines| ==> lines[i].outlet in outlets && Normalise(lines[i].uid).Some?)
      && (forall i :: 0 <= i < |lines| && lines[i].uidReversed != "" ==>
            Normalise(lines[i].uidReversed) == Some(Reversed(Normalise(lines[i].uid).value)))
      && (forall i, j :: 0 <= i < j < |lines| ==>
            var n, m := Normalise(lines[i].uid).value, Normalise(lines[j].uid).value;
            n == m || n == Reversed(m) ==> outlets[lines[i].outlet] == outlets[lines[j].outlet])
      && (forall k, i :: 0 <= k < |tags| && 0 <= i < |lines| ==>
            Alike(Normalise(lines[i].uid).value, tags[k]) ==> tags[k].outlet == outlets[lines[i].outlet])
  {
    if AllRead(outlets, lines) {
      var asked := Asked(outlets, lines);
      forall i, j | 0 <= i < j < |lines|
        ensures Moves(asked[i], asked[j]) <==>
          var n, m := Normalise(lines[i].uid).value, Normalise(lines[j].uid).value;
          (n == m || n == Reversed(m)) && outlets[lines[i].outlet] != outlets[lines[j].outlet]
      {
        NormaliseIsIdempotent(lines[i].uid);
        NormaliseIsIdempotent(lines[j].uid);
        ReversalIsAnInvolution(asked[i].primary);
        ReversalIsAnInvolution(asked[j].primary);
      }
      forall k, i | 0 <= k < |tags| && 0 <= i < |lines|
        ensures Moves(tags[k], asked[i]) <==>
          Alike(Normalise(lines[i].uid).value, tags[k]) && tags[k].outlet != outlets[lines[i].outlet]
      {}
      if Fits(tags, asked) {
        forall i, j | 0 <= i < j < |lines| ensures !Moves(asked[i], asked[j]) {}
        forall k, i | 0 <= k < |tags| && 0 <= i < |lines| ensures !Moves(tags[k], asked[i]) {}
      }
    }
  }

  /** After an import each line's UID, scanned in whichever byte order and spelling, resolves to the
      line's outlet, unless it was stored before and no row with it is active. */
  lemma {:induction false} ImportedResolves(tags: seq<Tag>, outlets: map<string, nat>, lines: seq<Line>, i: nat,
                                            scanned: string, r: Option<nat>)
    requires Coherent(tags) && Clean(tags, outlets, lines) && !Repeats(tags, Asked(outlets, lines)) && i < |lines|
    requires var n, s := Normalise(lines[i].uid), Normalise(scanned); s == n || s == Some(Reversed(n.value))
    requires MayResolve(tags + Pending(tags, Asked(outlets, lines)), scanned, r)
    ensures var n := Normalise(lines[i].uid).value;
      var stored := exists k :: 0 <= k < |tags| && Alike(n, tags[k]);
      var active := exists k :: 0 <= k < |tags| && Alike(n, tags[k]) && tags[k].active;
      r == if !stored || active then Some(outlets[lines[i].outlet]) else None
  {
    var asked := Asked(outlets, lines);
    NormaliseIsIdempotent(lines[i].uid);
    NormaliseIsIdempotent(scanned);
    forall j | 0 <= j < |lines| ensures BothForms(asked[j]) {
      TagOfHasBothForms(outlets, lines[j]);
    }
    AskedResolves(tags, asked, i, Normalise(scanned).value, r);
  }

  lemma {:induction false} AskedResolves(tags: seq<Tag>, asked: seq<Tag>, i: nat, s: string, r: Option<nat>)
    requires Coherent(tags) && Fits(tags, asked) && !Repeats(tags, asked) && i < |asked| && asked[i].active
    requires forall j :: 0 <= j < |asked| ==> BothForms(asked[j])
    requires Has(asked[i], s)
    requires Resolves(tags + Pending(tags, asked), s, r)
    ensures var n := asked[i].primary;
      var stored := exists k :: 0 <= k < |tags| && Alike(n, tags[k]);
      var active := exists k :: 0 <= k < |tags| && Alike(n, tags[k]) && tags[k].active;
      r == if !stored || active then Some(asked[i].outlet) else None
  {
    var t, p := asked[i], Pending(tags, asked);
    MetOnItsOutlet(tags, asked, i);
    hide Coherent, BothForms, Alike, Has, Meets, Fits, Repeats, Resolves, Clash, Pending;
    HasIsAlike(tags, asked, t, s);
    if Existing(tags, t).None? {
      FreshResolves(tags, p, t, s, r);
    } else {
      StoredResolves(tags, p, t, s, r);
    }
  }

  lemma {:induction false} MetOnItsOutlet(tags: seq<Tag>, asked: seq<Tag>, i: nat)
    requires Fits(tags, asked) && i < |asked|
    ensures forall k :: 0 <= k < |tags| && Meets(tags[k], asked[i]) ==> tags[k].outlet == asked[i].outlet
  {
    forall k | 0 <= k < |tags| && Meets(tags[k], asked[i]) ensures tags[k].outlet == asked[i].outlet {
      assert !Moves(tags[k], asked[i]);
    }
  }

  lemma {:induction false} HasIsAlike(tags: seq<Tag>, asked: seq<Tag>, t: Tag, s: string)
    requires Coherent(tags) && Fits(tags, asked) && !Repeats(tags, asked)
    requires forall j :: 0 <= j < |asked| ==> BothForms(asked[j])
    requires BothForms(t) && Has(t, s)
    ensures Coherent(tags + Pending(tags, asked))
    ensures var all := tags + Pending(tags, asked);
      forall k :: 0 <= k < |all| ==> (Has(all[k], s) <==> Alike(t.primary, all[k]))
  {
    PendingClashes(tags, asked);
    ImportKeepsCoherent(tags, asked);
    var all := tags + Pending(tags, asked);
    hide Normal, Reversed;
    forall k | 0 <= k < |all| ensures Has(all[k], s) <==> Alike(t.primary, all[k]) {
      AlikeHas(all[k], t, s);
    }
  }

  lemma {:induction false} FreshResolves(tags: seq<Tag>, p: seq<Tag>, t: Tag, s: string, r: Option<nat>)
    requires Coherent(tags + p) && BothForms(t) && t.active && Existing(tags, t).None? && t in p && Has(t, s)
    requires Resolves(tags + p, s, r)
    ensures r == Some(t.outlet) && forall k :: 0 <= k < |tags| ==> !Alike(t.primary, tags[k])
  {
    hide Normal, Reversed, Coherent;
    forall k | 0 <= k < |tags| ensures !Alike(t.primary, tags[k]) {
      var stored := tags[k];
      assert !Meets(stored, t);
    }
    var k :| 0 <= k < |p| && p[k] == t;
    OutletOf(tags + p, s, |tags| + k, t.outlet, r);
  }

  /** A pending tag does not share a UID with one that was stored before. */
  lemma {:induction false} NewIsUnlike(tags: seq<Tag>, t: Tag, u: Tag, n: string)
    requires forall k :: 0 <= k < |tags| ==> BothForms(tags[k])
    requires BothForms(t) && BothForms(u) && t.primary == n && Existing(tags, t).Some? && Existing(tags, u).None?
    ensures !Alike(n, u)
  {
    var k := Existing(tags, t).value;
    ReversalIsAnInvolution(n);
    SameTags(tags[k], n);
    SameTags(u, n);
    var stored := tags[k];
    assert Meets(stored, t) && !Meets(stored, u);
  }

  lemma AlikeHas(u: Tag, t: Tag, s: string)
    requires BothForms(u) && BothForms(t) && Has(t, s)
    ensures Has(u, s) <==> Alike(t.primary, u)
  {
    SameTags(u, t.primary);
  }

  lemma {:induction false} StoredResolves(tags: seq<Tag>, p: seq<Tag>, t: Tag, s: string, r: Option<nat>)
    requires Coherent(tags + p) && BothForms(t) && Existing(tags, t).Some? && Resolves(tags + p, s, r)
    requires forall k :: 0 <= k < |p| ==> Existing(tags, p[k]).None?
    requires forall k :: 0 <= k < |tags| && Meets(tags[k], t) ==> tags[k].outlet == t.outlet
    requires forall k :: 0 <= k < |tags + p| ==> (Has((tags + p)[k], s) <==> Alike(t.primary, (tags + p)[k]))
    ensures exists k :: 0 <= k < |tags| && Alike(t.primary, tags[k])
    ensures var active := exists k :: 0 <= k < |tags| && Alike(t.primary, tags[k]) && tags[k].active;
      r == if active then Some(t.outlet) else None
  {
    hide Normal, Reversed;
    var all := tags + p;
    assert Meets(tags[Existing(tags, t).value], t);
    forall k | 0 <= k < |tags| ensures BothForms(tags[k]) && all[k] == tags[k] {
      assert BothForms(all[k]);
    }
    forall k | |tags| <= k < |all| ensures !Has(all[k], s) {
      assert all[k] == p[k - |tags|];
      NewIsUnlike(tags, t, all[k], t.primary);
    }
    if k :| 0 <= k < |tags| && Alike(t.primary, tags[k]) && tags[k].active {
      assert Answers(all[k], s) && Meets(tags[k], t);
      OutletOf(all, s, k, t.outlet, r);
    }
  }

  lemma OutletOf(tags: seq<Tag>, s: string, k: nat, outlet: nat, r: Option<nat>)
    requires Coherent(tags) && k < |tags| && Answers(tags[k], s) && tags[k].outlet == outlet && Resolves(tags, s, r)
    ensures r == Some(outlet)
  {
    var i :| 0 <= i < |tags| && Answers(tags[i], s) && tags[i].outlet == r.value;
    assert Has(tags[i], s) && Has(tags[k], s);
  }

  lemma StaysDirty(tags: seq<Tag>, outlets: map<string, nat>, lines: seq<Line>, l: Line)
    requires !Clean(tags, outlets, lines) && LineReads(outlets, l)
    ensures !Clean(tags, outlets, lines + [l])
  {
    var all := lines + [l];
    if AllRead(outlets, lines) {
      AskedAppend(outlets, lines, l);
      FitsAppend(tags, Asked(outlets, lines), TagOf(outlets, l));
    } else {
      var i :| 0 <= i < |lines| && !LineReads(outlets, lines[i]);
      assert all[i] == lines[i];
    }
  }

  lemma {:induction false} NextLine(tags: seq<Tag>, outlets: map<string, nat>, lines: seq<Line>, l: Line,
                                    seen: map<string, string>)
    requires Coherent(tags) && Clean(tags, outlets, lines) && LineReads(outlets, l) && OneNameEach(outlets)
    requires SeenAll(seen, Asked(outlets, lines), Names(lines))
    ensures var t, all := TagOf(outlets, l), lines + [l];
      var fits := SeenAs(seen, t, l.outlet)
        && (Existing(tags, t).Some? ==> tags[Existing(tags, t).value].outlet == t.outlet);
      && (fits <==> Clean(tags, outlets, all))
      && (fits ==>
            && SeenAll(seen[t.primary := l.outlet][t.reversed := l.outlet], Asked(outlets, all), Names(all))
            && Pending(tags, Asked(outlets, all))
               == Pending(tags, Asked(outlets, lines)) + if Existing(tags, t).Some? then [] else [t])
  {
    var t, asked := TagOf(outlets, l), Asked(outlets, lines);
    AskedAppend(outlets, lines, l);
    assert Names(lines + [l]) == Names(lines) + [l.outlet];
    TagOfHasBothForms(outlets, l);
    NextTag(tags, asked, Names(lines), t, l.outlet, seen);
  }

  lemma {:induction false} NextTag(tags: seq<Tag>, asked: seq<Tag>, names: seq<string>, t: Tag, name: string,
                                   seen: map<string, string>)
    requires Coherent(tags) && Fits(tags, asked) && BothForms(t)
    requires |names| == |asked| && SeenAll(seen, asked, names)
    requires forall i :: 0 <= i < |asked| ==> (asked[i].outlet == t.outlet <==> names[i] == name)
    ensures var fits := SeenAs(seen, t, name)
        && (Existing(tags, t).Some? ==> tags[Existing(tags, t).value].outlet == t.outlet);
      && (fits <==> Fits(tags, asked + [t]))
      && (fits ==> SeenAll(seen[t.primary := name][t.reversed := name], asked + [t], names + [name]))
      && Pending(tags, asked + [t]) == Pending(tags, asked) + if Existing(tags, t).Some? then [] else [t]
  {
    FitsAppend(tags, asked, t);
    SeenDecides(seen, asked, names, t, name);
    if SeenAs(seen, t, name) {
      SeenNext(seen, asked, names, t, name);
    }
    if Existing(tags, t).Some? {
      OneSpeaksForAll(tags, Existing(tags, t).value, t);
    }
    assert (asked + [t])[..|asked|] == asked;
  }
}
