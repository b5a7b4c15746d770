/** The cabinet's range route: its list of ended sessions, sorted, and the offset paging over it while it
    grows. */
module RangeRoute {
  import opened Quantities
  import opened Sessions

  const SECOND: int := 1_000_000

  // ----- the cabinet's range route -----

  /** When an ended session ended; nothing for one still running or without its times. */
  function EndedAt(p: Payload): Option<Time> {
    if p.status == "ended" && p.activatedAt.Some? && p.duration.Num?
    then Some(p.activatedAt.value + Microseconds(p.duration.value)) else None
  }

  /** It is the activation plus the minutes, to the nearest microsecond, of a session that ended and has
      both. */
  lemma EndedAtIs(p: Payload)
    ensures EndedAt(p).Some? <==> p.status == "ended" && p.activatedAt.Some? && p.duration.Num?
    ensures EndedAt(p).Some? ==>
      -0.5 <= p.duration.value * 60_000_000.0 - (EndedAt(p).value - p.activatedAt.value) as real <= 0.5
  {}

  /** An ended session as the cabinet lists it. */
  datatype Entry = Entry(endedAt: Time, payload: Payload)

  function EntryOf(p: Payload): Entry
    requires EndedAt(p).Some?
  {
    Entry(EndedAt(p).value, p)
  }

  /** The list's order: by end time, then by id. */
  predicate Before(a: Entry, b: Entry) {
    a.endedAt < b.endedAt || (a.endedAt == b.endedAt && a.payload.sessionId < b.payload.sessionId)
  }

  ghost predicate Sorted(l: seq<Entry>) {
    forall i, j :: 0 <= i < j < |l| ==> Before(l[i], l[j])
  }

  predicate Inside(p: Payload, from: Time, to: Time) {
    EndedAt(p).Some? && from <= EndedAt(p).value < to
  }

  function Insert(l: seq<Entry>, e: Entry): seq<Entry> {
    if l == [] || Before(l[|l| - 1], e) then l + [e] else Insert(l[..|l| - 1], e) + [l[|l| - 1]]
  }

  /** The route's list: the sessions that ended in [from, to), sorted. */
  function Listing(sessions: seq<Payload>, from: Time, to: Time): seq<Entry> {
    if sessions == [] then []
    else
      var l, p := Listing(sessions[..|sessions| - 1], from, to), sessions[|sessions| - 1];
      if Inside(p, from, to) then Insert(l, EntryOf(p)) else l
  }

  ghost predicate DistinctIds(sessions: seq<Payload>) {
    forall i, j :: 0 <= i < j < |sessions| ==> sessions[i].sessionId != sessions[j].sessionId
  }

  lemma {:induction false} InsertSorts(l: seq<Entry>, e: Entry)
    requires Sorted(l) && forall x :: x in l ==> x.payload.sessionId != e.payload.sessionId
    ensures Sorted(Insert(l, e)) && |Insert(l, e)| == |l| + 1
    ensures forall x :: x in Insert(l, e) <==> x in l || x == e
  {
    if l != [] && !Before(l[|l| - 1], e) {
      var init, last := l[..|l| - 1], l[|l| - 1];
      InsertSorts(init, e);
      assert forall x :: x in l <==> x in init || x == last;
      assert Before(e, last);
      forall x | x in Insert(init, e) ensures Before(x, last) {
        if x != e {
          var i :| 0 <= i < |init| && l[i] == x;
        }
      }
    } else if l != [] {
      forall i | 0 <= i < |l| ensures Before(l[i], e) {
        assert i == |l| - 1 || Before(l[i], l[|l| - 1]);
      }
    }
  }

  /** It holds exactly the sessions that ended in the window, by end time and then by id. */
  lemma {:induction false} ListingIs(sessions: seq<Payload>, from: Time, to: Time)
    requires DistinctIds(sessions)
    ensures forall e :: e in Listing(sessions, from, to) <==>
      e.payload in sessions && EndedAt(e.payload) == Some(e.endedAt) && from <= e.endedAt < to
    ensures var l := Listing(sessions, from, to); forall i, j :: 0 <= i < j < |l| ==>
      l[i].endedAt < l[j].endedAt || (l[i].endedAt == l[j].endedAt && l[i].payload.sessionId < l[j].payload.sessionId)
    ensures Sorted(Listing(sessions, from, to)) && |Listing(sessions, from, to)| <= |sessions|
  {
    if sessions != [] {
      var init, p := sessions[..|sessions| - 1], sessions[|sessions| - 1];
      ListingIs(init, from, to);
      assert forall x :: x in sessions <==> x in init || x == p;
      if Inside(p, from, to) {
        InsertSorts(Listing(init, from, to), EntryOf(p));
      }
    }
  }

  /** How the cabinet answers one read: no such route, a refusal, or one page of at most `size`
      sessions of its list, with or without the list's length. */
  datatype Reply = Missing | Failed | Listed(size: nat, withTotal: bool)

  /** The cabinet during one run: its answer to the k-th read, and what the window held then. */
  datatype Cabinet = Cabinet(reply: nat -> Reply, window: nat -> seq<Entry>)

  /** It keeps its order and only adds sessions between reads, anywhere in the order and finitely
      many; a page is not empty while the list goes on. */
  ghost predicate Grows(c: Cabinet, most: nat) {
    forall k: nat :: GrowsAt(c, most, k)
  }

  ghost predicate GrowsAt(c: Cabinet, most: nat, k: nat) {
    && Sorted(c.window(k)) && |c.window(k)| <= most
    && (forall e :: e in c.window(k) ==> e in c.window(k + 1))
    && (c.reply(k).Listed? ==> c.reply(k).size > 0)
  }

  /** The server behind it: its answer to the k-th read, and the sessions it holds then. */
  datatype Server = Server(reply: nat -> Reply, sessions: nat -> seq<Payload>)

  /** One id, one session; an ended session stays as it is; finitely many; a page is not empty while
      the list goes on. */
  ghost predicate Adds(s: Server, most: nat) {
    forall k: nat :: AddsAt(s, most, k)
  }

  ghost predicate AddsAt(s: Server, most: nat, k: nat) {
    && DistinctIds(s.sessions(k)) && |s.sessions(k)| <= most
    && (forall p :: p in s.sessions(k) && EndedAt(p).Some? ==> p in s.sessions(k + 1))
    && (s.reply(k).Listed? ==> s.reply(k).size > 0)
  }

  /** What a run that asks for [from, to) reads. The wire form of a time has whole seconds. */
  function Asking(s: Server, from: Time, to: Time): Cabinet {
    Cabinet(s.reply, (k: nat) => Listing(s.sessions(k), Truncated(from), Truncated(to)))
  }

  function Truncated(t: Time): Time { t - t % SECOND }

  /** The last whole second not after it. */
  lemma TruncatedIs(t: Time)
    ensures Truncated(t) % SECOND == 0 && Truncated(t) <= t < Truncated(t) + SECOND
  {}

  lemma AskingGrows(s: Server, most: nat, from: Time, to: Time)
    requires Adds(s, most)
    ensures Grows(Asking(s, from, to), most)
  {
    forall k: nat ensures GrowsAt(Asking(s, from, to), most, k) {
      assert AddsAt(s, most, k) && AddsAt(s, most, k + 1);
      ListingIs(s.sessions(k), Truncated(from), Truncated(to));
      ListingIs(s.sessions(k + 1), Truncated(from), Truncated(to));
    }
  }

  function Page(l: seq<Entry>, offset: nat, size: nat): seq<Entry> {
    if |l| <= offset then [] else l[offset..Min(offset + size, |l|)]
  }

  /** Insertions never move a session towards the front. */
  lemma {:induction false} PlaceOnlyGrows(l: seq<Entry>, m: seq<Entry>, i: nat, j: nat)
    requires Sorted(l) && Sorted(m) && (forall e :: e in l ==> e in m)
    requires i < |l| && j < |m| && l[i] == m[j]
    ensures i <= j
    decreases i
  {
    if i > 0 {
      assert l[i - 1] in m;
      var j' :| 0 <= j' < |m| && m[j'] == l[i - 1];
      assert Before(l[i - 1], l[i]);
      PlaceOnlyGrows(l, m, i - 1, j');
      assert m[j] != m[j'] && !Before(m[j], m[j']);
    }
  }

  /** All sessions of the first list that stand before the offset have been applied. */
  ghost predicate DoneUpTo(start: seq<Entry>, l: seq<Entry>, offset: nat, applied: seq<Entry>) {
    forall i :: 0 <= i < |l| && i < offset && l[i] in start ==> l[i] in applied
  }

  lemma NextPage(start: seq<Entry>, l: seq<Entry>, m: seq<Entry>, offset: nat, page: seq<Entry>, applied: seq<Entry>)
    requires Sorted(l) && Sorted(m) && (forall e :: e in l ==> e in m) && (forall e :: e in start ==> e in l)
    requires DoneUpTo(start, l, offset, applied)
    requires offset + |page| <= |l| && page == l[offset..offset + |page|]
    ensures DoneUpTo(start, m, offset + |page|, applied + page)
  {
    forall j | 0 <= j < |m| && j < offset + |page| && m[j] in start ensures m[j] in applied + page {
      assert m[j] in l;
      var i :| 0 <= i < |l| && l[i] == m[j];
      PlaceOnlyGrows(l, m, i, j);
      if i >= offset {
        assert l[i] == page[i - offset];
      }
    }
  }

  lemma {:induction false} Still(c: Cabinet, most: nat, k: nat)
    requires Grows(c, most)
    ensures forall e :: e in c.window(0) ==> e in c.window(k)
  {
    if k > 0 {
      Still(c, most, k - 1);
      assert GrowsAt(c, most, k - 1);
    }
  }

  lemma AllDone(start: seq<Entry>, l: seq<Entry>, offset: nat, applied: seq<Entry>)
    requires DoneUpTo(start, l, offset, applied) && |l| <= offset && forall e :: e in start ==> e in l
    ensures forall e :: e in start ==> e in applied
  {
    forall e | e in start ensures e in applied {
      var i :| 0 <= i < |l| && l[i] == e;
    }
  }

  /** Reading one page moves the offset on, in the list as it was and as it is at the next read;
      an empty page, or an offset at the list's length, means that all is done. */
  lemma PageRead(c: Cabinet, most: nat, k: nat, offset: nat, page: seq<Entry>, applied: seq<Entry>)
    requires Grows(c, most) && c.reply(k).Listed? && page == Page(c.window(k), offset, c.reply(k).size)
    requires offset <= most && DoneUpTo(c.window(0), c.window(k), offset, applied)
    ensures offset + |page| <= most
    ensures page != [] ==> DoneUpTo(c.window(0), c.window(k + 1), offset + |page|, applied + page)
    ensures page == [] || |c.window(k)| <= offset + |page| ==> forall e :: e in c.window(0) ==> e in applied + page
  {
    var start, l, m := c.window(0), c.window(k), c.window(k + 1);
    assert GrowsAt(c, most, k) && GrowsAt(c, most, k + 1);
    Still(c, most, k);
    if page == [] {
      AllDone(start, l, offset, applied);
    } else {
      NextPage(start, l, m, offset, page, applied);
      NextPage(start, l, l, offset, page, applied);
      if |l| <= offset + |page| {
        AllDone(start, l, offset + |page|, applied + page);
      }
    }
  }
}
