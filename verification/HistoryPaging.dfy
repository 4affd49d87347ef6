// Reading one thread's history out of the shared message log, in which other
// subjects' messages and purged positions lie between its own.

module HistoryPaging {
  import opened Wrappers

  // data is None when the stored bytes do not decode to an event.
  datatype Message = Message(subject: string, data: Option<string>)

  datatype Stream = Stream(messages: map<nat, Message>, last: nat)

  datatype Record = Record(position: nat, data: string)

  datatype Cursor = NoCursor | BadCursor | Position(n: int)

  datatype Error = BadRecord | CursorInvalid

  ghost predicate ValidStream(s: Stream) {
    forall p :: p in s.messages ==> 1 <= p <= s.last
  }

  predicate On(s: Stream, subject: string, p: nat) {
    p in s.messages && s.messages[p].subject == subject
  }

  // The subject's positions in [lo, hi), ascending.
  function Positions(s: Stream, subject: string, lo: nat, hi: nat): seq<nat>
    decreases hi
  {
    if hi <= lo then []
    else Positions(s, subject, lo, hi - 1) + (if On(s, subject, hi - 1) then [hi - 1] else [])
  }

  function LastN<T>(xs: seq<T>, n: nat): seq<T> {
    if |xs| <= n then xs else xs[|xs| - n..]
  }

  function FirstN<T>(xs: seq<T>, n: nat): seq<T> {
    if |xs| <= n then xs else xs[..n]
  }

  // The events at some positions, unless one of them does not decode.
  function RecordsAt(s: Stream, ps: seq<nat>): Result<seq<Record>, Error> {
    if ps == [] then Ok([])
    else
      var p := ps[|ps| - 1];
      var rest := RecordsAt(s, ps[..|ps| - 1]);
      if rest.Err? || p !in s.messages || s.messages[p].data.None? then Err(BadRecord)
      else Ok(rest.value + [Record(p, s.messages[p].data.value)])
  }

  lemma {:induction false} PositionsSplit(s: Stream, subject: string, lo: nat, mid: nat, hi: nat)
    requires lo <= mid <= hi
    ensures Positions(s, subject, lo, hi) == Positions(s, subject, lo, mid) + Positions(s, subject, mid, hi)
    decreases hi
  {
    if mid < hi {
      PositionsSplit(s, subject, lo, mid, hi - 1);
    }
  }

  // Positions lists exactly the subject's messages of the range, ascending.
  ghost predicate ListsRange(s: Stream, subject: string, lo: nat, hi: nat, ps: seq<nat>) {
    && (forall i :: 0 <= i < |ps| ==> lo <= ps[i] < hi && On(s, subject, ps[i]))
    && (forall i, j :: 0 <= i < j < |ps| ==> ps[i] < ps[j])
    && (forall p :: lo <= p < hi && On(s, subject, p) ==> p in ps)
  }

  lemma ListOneMore(s: Stream, subject: string, lo: nat, hi: nat, init: seq<nat>)
    requires lo < hi && ListsRange(s, subject, lo, hi - 1, init)
    ensures ListsRange(s, subject, lo, hi, init + if On(s, subject, hi - 1) then [hi - 1] else [])
  {
    var ps := init + if On(s, subject, hi - 1) then [hi - 1] else [];
    forall p | lo <= p < hi && On(s, subject, p)
      ensures p in ps
    {
      if p == hi - 1 {
        assert ps[|init|] == p;
      }
    }
  }

  lemma {:induction false} PositionsListRange(s: Stream, subject: string, lo: nat, hi: nat)
    ensures ListsRange(s, subject, lo, hi, Positions(s, subject, lo, hi))
    decreases hi
  {
    if lo < hi {
      PositionsListRange(s, subject, lo, hi - 1);
      ListOneMore(s, subject, lo, hi, Positions(s, subject, lo, hi - 1));
    }
  }

  lemma RecordsFailAlike(s: Stream, ps: seq<nat>)
    ensures RecordsAt(s, ps).Err? ==> RecordsAt(s, ps) == Err(BadRecord)
    ensures RecordsAt(s, ps).Ok? ==> |RecordsAt(s, ps).value| == |ps|
    ensures RecordsAt(s, ps).Ok? ==> forall i :: 0 <= i < |ps| ==> RecordsAt(s, ps).value[i].position == ps[i]
  {
  }

  lemma {:induction false} RecordsOfAppend(s: Stream, ps: seq<nat>, qs: seq<nat>)
    ensures RecordsAt(s, ps + qs)
         == var a, b := RecordsAt(s, ps), RecordsAt(s, qs);
            if a.Ok? && b.Ok? then Ok(a.value + b.value) else Err(BadRecord)
    decreases |qs|
  {
    if qs == [] {
      assert ps + qs == ps;
      RecordsFailAlike(s, ps);
      assert RecordsAt(s, ps).Ok? ==> RecordsAt(s, ps).value + [] == RecordsAt(s, ps).value;
    } else {
      RecordsOfAppend(s, ps, qs[..|qs| - 1]);
      var init, last := qs[..|qs| - 1], qs[|qs| - 1];
      assert (ps + qs)[..|ps + qs| - 1] == ps + init && (ps + qs)[|ps + qs| - 1] == last;
      var a, b := RecordsAt(s, ps), RecordsAt(s, init);
      assert RecordsAt(s, ps + init).Ok? <==> a.Ok? && b.Ok?;
      if a.Ok? && b.Ok? && last in s.messages && s.messages[last].data.Some? {
        var r := Record(last, s.messages[last].data.value);
        assert (a.value + b.value) + [r] == a.value + (b.value + [r]);
      }
      RecordsFailAlike(s, qs);
    }
  }

  // ---------------------------------------------------------------------
  // The two scans
  // ---------------------------------------------------------------------

  function Reversed<T>(xs: seq<T>): seq<T> {
    seq(|xs|, i requires 0 <= i < |xs| => xs[|xs| - 1 - i])
  }

  // reversed holds the subject's events after p, newest first.
  ghost predicate Collected(s: Stream, subject: string, p: nat, hi: nat, reversed: seq<Record>) {
    RecordsAt(s, Positions(s, subject, p + 1, hi)) == Ok(Reversed(reversed))
  }

  lemma ReversedGrows<T>(xs: seq<T>, x: T)
    ensures Reversed(xs + [x]) == [x] + Reversed(xs)
  {
  }

  lemma CollectOne(s: Stream, subject: string, p: nat, hi: nat, reversed: seq<Record>)
    requires 0 < p < hi && On(s, subject, p) && s.messages[p].data.Some? && Collected(s, subject, p, hi, reversed)
    ensures Collected(s, subject, p - 1, hi, reversed + [Record(p, s.messages[p].data.value)])
  {
    var record := Record(p, s.messages[p].data.value);
    PositionsSplit(s, subject, p, p + 1, hi);
    RecordsOfAppend(s, [p], Positions(s, subject, p + 1, hi));
    var none: seq<Record> := [];
    assert [p][..0] == [] && RecordsAt(s, []) == Ok(none) && none + [record] == [record];
    assert RecordsAt(s, [p]) == Ok([record]);
    assert Positions(s, subject, p, p + 1) == [p];
    assert RecordsAt(s, Positions(s, subject, p, hi)) == Ok([record] + Reversed(reversed));
    ReversedGrows(reversed, record);
  }

  lemma LastNKeeps<T>(xs: seq<T>, ys: seq<T>, n: nat)
    requires |ys| <= n
    ensures LastN(xs + ys, n) == LastN(xs, n - |ys|) + ys
  {
  }

  lemma BadRecordInside(s: Stream, before: seq<nat>, p: nat, later: seq<nat>)
    requires p !in s.messages || s.messages[p].data.None?
    ensures RecordsAt(s, before + ([p] + later)) == Err(BadRecord)
  {
    assert RecordsAt(s, [p]) == Err(BadRecord) by {
      RecordsFailAlike(s, [p]);
      assert [p][..0] == [];
    }
    RecordsOfAppend(s, [p], later);
    RecordsOfAppend(s, before, [p] + later);
  }

  // A page that would include an undecodable event fails as a whole.
  lemma BadMessageStops(s: Stream, subject: string, p: nat, hi: nat, reversed: seq<Record>, limit: nat)
    requires 0 < p < hi && On(s, subject, p) && s.messages[p].data.None?
    requires |reversed| < limit && Collected(s, subject, p, hi, reversed)
    ensures RecordsAt(s, LastN(Positions(s, subject, 1, hi), limit)) == Err(BadRecord)
  {
    var later := Positions(s, subject, p + 1, hi);
    RecordsFailAlike(s, later);
    PositionsSplit(s, subject, 1, p, hi);
    PositionsSplit(s, subject, p, p + 1, hi);
    var before, from := Positions(s, subject, 1, p), [p] + later;
    assert Positions(s, subject, 1, hi) == before + from;
    LastNKeeps(before, from, limit);
    BadRecordInside(s, LastN(before, limit - |from|), p, later);
  }

  lemma CollectedAll(s: Stream, subject: string, p: nat, hi: nat, reversed: seq<Record>, limit: nat)
    requires p < hi && |reversed| <= limit && (p == 0 || |reversed| == limit)
    requires Collected(s, subject, p, hi, reversed)
    ensures RecordsAt(s, LastN(Positions(s, subject, 1, hi), limit)) == Ok(Reversed(reversed))
  {
    PositionsSplit(s, subject, 1, p + 1, hi);
    RecordsFailAlike(s, Positions(s, subject, p + 1, hi));
    assert LastN(Positions(s, subject, 1, hi), limit) == Positions(s, subject, p + 1, hi);
  }

  method ScanBackward(s: Stream, subject: string, start: nat, limit: int) returns (r: Result<seq<Record>, Error>)
    requires ValidStream(s)
    ensures limit <= 0 ==> r == Ok([])
    ensures limit > 0 ==> r == RecordsAt(s, LastN(Positions(s, subject, 1, start + 1), limit))
  {
    if limit <= 0 || start == 0 {
      return Ok([]);
    }
    var reversed: seq<Record> := [];
    var p := start;
    assert Reversed(reversed) == [];
    while p > 0 && |reversed| < limit
      invariant 0 <= p <= start && |reversed| <= limit
      invariant Collected(s, subject, p, start + 1, reversed)
    {
      if p in s.messages && s.messages[p].subject == subject {
        if s.messages[p].data.None? {
          BadMessageStops(s, subject, p, start + 1, reversed, limit);
          return Err(BadRecord);
        }
        CollectOne(s, subject, p, start + 1, reversed);
        reversed := reversed + [Record(p, s.messages[p].data.value)];
      } else {
        PositionsSplit(s, subject, p, p + 1, start + 1);
        assert Positions(s, subject, p, start + 1) == Positions(s, subject, p + 1, start + 1);
      }
      p := p - 1;
    }
    CollectedAll(s, subject, p, start + 1, reversed, limit);
    var records := new Record[|reversed|](_ => Record(0, ""));
    for i := 0 to |reversed|
      invariant forall k :: |reversed| - i <= k < |reversed| ==> records[k] == reversed[|reversed| - 1 - k]
    {
      records[|reversed| - 1 - i] := reversed[i];
    }
    assert records[..] == Reversed(reversed);
    r := Ok(records[..]);
  }

  // The next position of the subject at or after a sequence number.
  function NextMatch(s: Stream, subject: string, from: nat): (next: Option<nat>)
    ensures next.None? ==> Positions(s, subject, from, s.last + 1) == []
    ensures next.Some? ==> from <= next.value <= s.last && On(s, subject, next.value)
    ensures next.Some? ==>
      Positions(s, subject, from, s.last + 1) == [next.value] + Positions(s, subject, next.value + 1, s.last + 1)
    decreases s.last + 1 - from
  {
    if from > s.last then None
    else
      PositionsSplit(s, subject, from, from + 1, s.last + 1);
      if On(s, subject, from) then Some(from) else NextMatch(s, subject, from + 1)
  }

  lemma FailsFromHere(s: Stream, found: seq<nat>, p: nat, later: seq<nat>, limit: nat)
    requires |found| < limit && (p !in s.messages || s.messages[p].data.None?)
    ensures RecordsAt(s, FirstN(found + [p] + later, limit)) == Err(BadRecord)
  {
    var page := FirstN(found + [p] + later, limit);
    assert page == (found + [p]) + page[|found| + 1..];
    assert (found + [p])[..|found|] == found;
    RecordsOfAppend(s, found + [p], page[|found| + 1..]);
  }

  lemma FirstFound(all: seq<nat>, found: seq<nat>, rest: seq<nat>, n: nat)
    requires all == found + rest && |found| <= n && (|found| == n || rest == [])
    ensures FirstN(all, n) == found
  {
  }

  // The events found from `start` up to `next`, which is as far as the scan is.
  ghost predicate Scanned(s: Stream, subject: string, start: nat, next: nat, found: seq<nat>, records: seq<Record>) {
    && |records| == |found| && RecordsAt(s, found) == Ok(records)
    && Positions(s, subject, start, s.last + 1) == found + Positions(s, subject, next, s.last + 1)
  }

  lemma ScanFinds(s: Stream, subject: string, start: nat, next: nat, found: seq<nat>, records: seq<Record>, p: nat, limit: nat)
    requires Scanned(s, subject, start, next, found, records) && On(s, subject, p) && |found| < limit
    requires Positions(s, subject, next, s.last + 1) == [p] + Positions(s, subject, p + 1, s.last + 1)
    ensures s.messages[p].data.Some? ==>
      Scanned(s, subject, start, p + 1, found + [p], records + [Record(p, s.messages[p].data.value)])
    ensures s.messages[p].data.None? ==> RecordsAt(s, FirstN(Positions(s, subject, start, s.last + 1), limit)) == Err(BadRecord)
  {
    var later := Positions(s, subject, p + 1, s.last + 1);
    assert found + ([p] + later) == (found + [p]) + later;
    assert (found + [p])[..|found|] == found;
    if s.messages[p].data.None? {
      FailsFromHere(s, found, p, later, limit);
    }
  }

  lemma ScanEnds(s: Stream, subject: string, start: nat, next: nat, found: seq<nat>, records: seq<Record>, limit: nat)
    requires Scanned(s, subject, start, next, found, records) && |found| <= limit
    requires |found| == limit || Positions(s, subject, next, s.last + 1) == []
    ensures RecordsAt(s, FirstN(Positions(s, subject, start, s.last + 1), limit)) == Ok(records)
  {
    FirstFound(Positions(s, subject, start, s.last + 1), found, Positions(s, subject, next, s.last + 1), limit);
  }

  method ScanForward(s: Stream, subject: string, start: nat, limit: int) returns (r: Result<seq<Record>, Error>)
    requires ValidStream(s)
    ensures limit <= 0 ==> r == Ok([])
    ensures limit > 0 ==> r == RecordsAt(s, FirstN(Positions(s, subject, start, s.last + 1), limit))
  {
    if limit <= 0 {
      return Ok([]);
    }
    var records: seq<Record> := [];
    var next := start;
    ghost var found: seq<nat> := [];
    while |records| < limit
      invariant |records| <= limit && Scanned(s, subject, start, next, found, records)
      decreases limit - |records|
    {
      var m := NextMatch(s, subject, next);
      if m.None? {
        break;
      }
      ScanFinds(s, subject, start, next, found, records, m.value, limit);
      if s.messages[m.value].data.None? {
        return Err(BadRecord);
      }
      records := records + [Record(m.value, s.messages[m.value].data.value)];
      found := found + [m.value];
      next := m.value + 1;
    }
    ScanEnds(s, subject, start, next, found, records, limit);
    r := Ok(records);
  }

  // ---------------------------------------------------------------------
  // Pages
  // ---------------------------------------------------------------------

  function NormalizeLimit(limit: int): (n: nat)
    ensures 1 <= n <= 500
    ensures 1 <= limit <= 500 ==> n == limit
    ensures limit <= 0 ==> n == 100
    ensures limit > 500 ==> n == 500
  {
    if limit <= 0 then 100 else if limit > 500 then 500 else limit
  }

  predicate BadPosition(c: Cursor) {
    c.BadCursor? || (c.Position? && c.n <= 0)
  }

  ghost function Page(s: Stream, subject: string, limit: int, after: Cursor, before: Cursor): Result<seq<Record>, Error> {
    var n := NormalizeLimit(limit);
    if after != NoCursor then
      if BadPosition(after) then Err(CursorInvalid)
      else RecordsAt(s, FirstN(Positions(s, subject, after.n + 1, s.last + 1), n))
    else if Positions(s, subject, 1, s.last + 1) == [] then Ok([])
    else if BadPosition(before) then Err(CursorInvalid)
    else RecordsAt(s, LastN(Positions(s, subject, 1, if before == NoCursor then s.last + 1 else before.n), n))
  }

  // The subject's last position, or 0.
  function LastMatch(s: Stream, subject: string, upTo: nat): (p: nat)
    ensures p == 0 ==> Positions(s, subject, 1, upTo + 1) == []
    ensures p > 0 ==> Positions(s, subject, 1, upTo + 1) == Positions(s, subject, 1, p + 1) != []
  {
    if upTo == 0 then 0 else if On(s, subject, upTo) then upTo else LastMatch(s, subject, upTo - 1)
  }

  method ListEvents(s: Stream, subject: string, limit: int, after: Cursor, before: Cursor)
    returns (r: Result<seq<Record>, Error>)
    requires ValidStream(s)
    ensures r == Page(s, subject, limit, after, before)
  {
    var n := NormalizeLimit(limit);
    if after != NoCursor {
      if BadPosition(after) {
        return Err(CursorInvalid);
      }
      r := ScanForward(s, subject, after.n + 1, n);
      return;
    }
    var last := LastMatch(s, subject, s.last);
    if last == 0 {
      return Ok([]);
    }
    var maxSeq := last;
    if before != NoCursor {
      if BadPosition(before) {
        return Err(CursorInvalid);
      }
      if before.n <= 1 {
        assert Positions(s, subject, 1, before.n) == [];
        return Ok([]);
      }
      maxSeq := before.n - 1;
    }
    r := ScanBackward(s, subject, maxSeq, n);
  }

  lemma PageIsReadable(s: Stream, subject: string, bound: nat, n: nat)
    requires RecordsAt(s, Positions(s, subject, 1, bound)).Ok? && n > 0
    ensures var page := LastN(Positions(s, subject, 1, bound), n);
      && RecordsAt(s, page).Ok? && |RecordsAt(s, page).value| == |page|
      && (page == [] <==> Positions(s, subject, 1, bound) == [])
      && (page != [] ==> RecordsAt(s, page).value[0].position == page[0])
  {
    var ps := Positions(s, subject, 1, bound);
    var page := LastN(ps, n);
    assert ps == ps[..|ps| - |page|] + page;
    RecordsOfAppend(s, ps[..|ps| - |page|], page);
    RecordsFailAlike(s, page);
  }

  // A page is exactly the subject's positions from its first one up to the
  // bound.
  lemma {:induction false} SuffixIsRange(s: Stream, subject: string, lo: nat, hi: nat, k: nat)
    requires k < |Positions(s, subject, lo, hi)|
    ensures var ps := Positions(s, subject, lo, hi);
      lo <= ps[k] < hi && ps[k..] == Positions(s, subject, ps[k], hi)
    decreases hi
  {
    var init := Positions(s, subject, lo, hi - 1);
    if k < |init| {
      SuffixIsRange(s, subject, lo, hi - 1, k);
    } else {
      assert Positions(s, subject, hi - 1, hi - 1) == [];
    }
  }

  // The page before a bound: either nothing is older and the history is
  // complete, or the page is exactly what lies between its first event and
  // the bound.
  lemma OlderPage(s: Stream, subject: string, bound: nat, n: nat)
    requires 1 <= bound <= s.last + 1 && n > 0
    requires RecordsAt(s, Positions(s, subject, 1, s.last + 1)).Ok?
    ensures var ps, rest := Positions(s, subject, 1, bound), Positions(s, subject, bound, s.last + 1);
      var page := RecordsAt(s, LastN(ps, n));
      && page.Ok? && RecordsAt(s, rest).Ok?
      && (Positions(s, subject, 1, s.last + 1) == [] ==> ps == [])
      && (page.value == [] ==> ps == [] && rest == Positions(s, subject, 1, s.last + 1))
      && (page.value != [] ==>
            var first := page.value[0].position;
            1 <= first < bound && RecordsAt(s, Positions(s, subject, first, s.last + 1)) == Ok(page.value + RecordsAt(s, rest).value))
  {
    PositionsSplit(s, subject, 1, bound, s.last + 1);
    var ps, rest := Positions(s, subject, 1, bound), Positions(s, subject, bound, s.last + 1);
    RecordsOfAppend(s, ps, rest);
    PageIsReadable(s, subject, bound, n);
    var page := LastN(ps, n);
    if page == [] {
      assert ps + rest == rest;
    } else {
      SuffixIsRange(s, subject, 1, bound, |ps| - |page|);
      assert page == ps[|ps| - |page|..];
      PositionsSplit(s, subject, page[0], bound, s.last + 1);
      RecordsOfAppend(s, page, rest);
    }
  }

  // Page back from the newest page, each time before the first event of the
  // page just read, until a page comes back empty.
  method PageThroughHistory(s: Stream, subject: string, limit: int) returns (all: seq<Record>)
    requires ValidStream(s)
    requires RecordsAt(s, Positions(s, subject, 1, s.last + 1)).Ok?
    ensures Ok(all) == RecordsAt(s, Positions(s, subject, 1, s.last + 1))
  {
    all := [];
    var cursor := NoCursor;
    ghost var bound := s.last + 1;
    while true
      invariant 1 <= bound <= s.last + 1
      invariant (cursor == NoCursor && bound == s.last + 1) || cursor == Position(bound)
      invariant Ok(all) == RecordsAt(s, Positions(s, subject, bound, s.last + 1))
      decreases bound
    {
      OlderPage(s, subject, bound, NormalizeLimit(limit));
      var r := ListEvents(s, subject, limit, NoCursor, cursor);
      if r.Err? || |r.value| == 0 {
        return;
      }
      all := r.value + all;
      cursor := Position(r.value[0].position);
      bound := r.value[0].position;
    }
  }

  // ---------------------------------------------------------------------
  // What a page holds
  // ---------------------------------------------------------------------

  // Records are the stored messages of their positions, and fail exactly when
  // one of those does not decode.
  lemma {:induction false} RecordsAreTheMessages(s: Stream, ps: seq<nat>)
    ensures RecordsAt(s, ps).Ok? <==> forall i :: 0 <= i < |ps| ==> ps[i] in s.messages && s.messages[ps[i]].data.Some?
    ensures RecordsAt(s, ps).Ok? ==> |RecordsAt(s, ps).value| == |ps|
    ensures RecordsAt(s, ps).Ok? ==> forall i :: 0 <= i < |ps| ==>
      ps[i] in s.messages && s.messages[ps[i]].data.Some? && RecordsAt(s, ps).value[i] == Record(ps[i], s.messages[ps[i]].data.value)
    ensures RecordsAt(s, ps).Err? ==> RecordsAt(s, ps).error == BadRecord
  {
    if ps != [] {
      RecordsAreTheMessages(s, ps[..|ps| - 1]);
    }
  }

  // The records are messages of the subject within [lo, hi), ascending.
  ghost predicate FromSubject(s: Stream, subject: string, lo: nat, hi: nat, rs: seq<Record>) {
    && (forall i :: 0 <= i < |rs| ==>
          && lo <= rs[i].position < hi && rs[i].position in s.messages
          && s.messages[rs[i].position] == Message(subject, Some(rs[i].data)))
    && (forall i, j :: 0 <= i < j < |rs| ==> rs[i].position < rs[j].position)
  }

  predicate Holds(rs: seq<Record>, p: nat) {
    exists i :: 0 <= i < |rs| && rs[i].position == p
  }

  lemma NotHeld(rs: seq<Record>, p: nat, i: nat)
    requires !Holds(rs, p) && i < |rs|
    ensures rs[i].position != p
  {
  }

  // Of ascending positions, a stretch leaves out only those before and behind
  // it.
  lemma StretchLeavesOut(ps: seq<nat>, from: nat, to: nat, rs: seq<Record>, k: nat)
    requires from <= to <= |ps| && |rs| == to - from && k < |ps|
    requires forall i, j :: 0 <= i < j < |ps| ==> ps[i] < ps[j]
    requires forall i :: 0 <= i < |rs| ==> rs[i].position == ps[from + i]
    requires !Holds(rs, ps[k])
    ensures (from > 0 && (rs != [] ==> ps[k] < rs[0].position)) || (to < |ps| && (rs != [] ==> rs[|rs| - 1].position < ps[k]))
  {
    if from <= k < to {
      NotHeld(rs, ps[k], k - from);
    }
  }

  lemma SliceOfList(s: Stream, subject: string, lo: nat, hi: nat, ps: seq<nat>, from: nat, to: nat, rs: seq<Record>)
    requires ListsRange(s, subject, lo, hi, ps) && from <= to <= |ps|
    requires RecordsAt(s, ps[from..to]) == Ok(rs)
    ensures FromSubject(s, subject, lo, hi, rs) && |rs| == to - from
    ensures forall p: nat :: lo <= p < hi && On(s, subject, p) && !Holds(rs, p) ==>
      (from > 0 && (rs != [] ==> p < rs[0].position)) || (to < |ps| && (rs != [] ==> rs[|rs| - 1].position < p))
  {
    RecordsAreTheMessages(s, ps[from..to]);
    assert forall i :: 0 <= i < to - from ==> ps[from..to][i] == ps[from + i];
    forall p: nat | lo <= p < hi && On(s, subject, p) && !Holds(rs, p)
      ensures (from > 0 && (rs != [] ==> p < rs[0].position)) || (to < |ps| && (rs != [] ==> rs[|rs| - 1].position < p))
    {
      var k :| 0 <= k < |ps| && ps[k] == p;
      StretchLeavesOut(ps, from, to, rs, k);
    }
  }

  lemma SlicePage(s: Stream, subject: string, lo: nat, hi: nat, from: nat, to: nat, rs: seq<Record>)
    requires from <= to <= |Positions(s, subject, lo, hi)|
    requires RecordsAt(s, Positions(s, subject, lo, hi)[from..to]) == Ok(rs)
    ensures FromSubject(s, subject, lo, hi, rs) && |rs| == to - from
    ensures forall p: nat :: lo <= p < hi && On(s, subject, p) && !Holds(rs, p) ==>
      (from > 0 && (rs != [] ==> p < rs[0].position))
      || (to < |Positions(s, subject, lo, hi)| && (rs != [] ==> rs[|rs| - 1].position < p))
  {
    var ps := Positions(s, subject, lo, hi);
    PositionsListRange(s, subject, lo, hi);
    SliceOfList(s, subject, lo, hi, ps, from, to, rs);
  }

  // A page after a cursor holds the subject's messages behind it, in order and
  // without a gap: whatever it does not hold lies behind a full page.
  lemma PageAfterCursor(s: Stream, subject: string, limit: int, after: int, before: Cursor, rs: seq<Record>)
    requires ValidStream(s) && after > 0 && Page(s, subject, limit, Position(after), before) == Ok(rs)
    ensures FromSubject(s, subject, after + 1, s.last + 1, rs) && |rs| <= NormalizeLimit(limit)
    ensures forall p: nat :: p > after && On(s, subject, p) && !Holds(rs, p) ==>
      |rs| == NormalizeLimit(limit) && p > rs[|rs| - 1].position
  {
    var ps, n := Positions(s, subject, after + 1, s.last + 1), NormalizeLimit(limit);
    var to := if |ps| <= n then |ps| else n;
    assert FirstN(ps, n) == ps[0..to];
    SlicePage(s, subject, after + 1, s.last + 1, 0, to, rs);
  }

  lemma NoMessageIff(s: Stream, subject: string)
    requires ValidStream(s)
    ensures Positions(s, subject, 1, s.last + 1) == [] <==> !(exists p: nat :: On(s, subject, p))
  {
    var all := Positions(s, subject, 1, s.last + 1);
    PositionsListRange(s, subject, 1, s.last + 1);
    if all != [] {
      assert On(s, subject, all[0]);
    }
  }

  lemma LastOnes(s: Stream, subject: string, bound: nat, n: nat, rs: seq<Record>)
    requires ValidStream(s) && n > 0
    requires RecordsAt(s, LastN(Positions(s, subject, 1, bound), n)) == Ok(rs)
    ensures FromSubject(s, subject, 1, bound, rs) && |rs| <= n
    ensures forall p: nat :: p < bound && On(s, subject, p) && !Holds(rs, p) ==> |rs| == n && p < rs[0].position
  {
    var count := |Positions(s, subject, 1, bound)|;
    var from := if count <= n then 0 else count - n;
    assert LastN(Positions(s, subject, 1, bound), n) == Positions(s, subject, 1, bound)[from..count];
    SlicePage(s, subject, 1, bound, from, count, rs);
  }

  // A page before a cursor, or the newest page, holds the subject's messages
  // up to there, in order and without a gap: whatever it does not hold lies
  // before a full page.
  lemma PageBeforeCursor(s: Stream, subject: string, limit: int, before: Cursor, bound: nat, rs: seq<Record>)
    requires ValidStream(s) && Page(s, subject, limit, NoCursor, before) == Ok(rs)
    requires (before == NoCursor && bound == s.last + 1) || before == Position(bound)
    ensures FromSubject(s, subject, 1, bound, rs) && |rs| <= NormalizeLimit(limit)
    ensures forall p: nat :: p < bound && On(s, subject, p) && !Holds(rs, p) ==>
      |rs| == NormalizeLimit(limit) && p < rs[0].position
  {
    NoMessageIff(s, subject);
    if exists p: nat :: On(s, subject, p) {
      LastOnes(s, subject, bound, NormalizeLimit(limit), rs);
    }
  }

  // A cursor that is not a positive number is refused, unless it is a Before
  // of a subject without messages.
  lemma InvalidCursorIff(s: Stream, subject: string, limit: int, after: Cursor, before: Cursor)
    requires ValidStream(s)
    ensures Page(s, subject, limit, after, before) == Err(CursorInvalid) <==>
      (after != NoCursor && !(after.Position? && after.n >= 1))
      || (after == NoCursor && before != NoCursor && !(before.Position? && before.n >= 1) && exists p: nat :: On(s, subject, p))
  {
    var n := NormalizeLimit(limit);
    if after != NoCursor {
      if !BadPosition(after) {
        RecordsFailAlike(s, FirstN(Positions(s, subject, after.n + 1, s.last + 1), n));
      }
    } else {
      NoMessageIff(s, subject);
      if !BadPosition(before) {
        RecordsFailAlike(s, LastN(Positions(s, subject, 1, if before == NoCursor then s.last + 1 else before.n), n));
      }
    }
  }

  // Whatever of a range's positions fails holds a message that does not decode.
  lemma BadRecordIsThere(s: Stream, subject: string, lo: nat, hi: nat, page: seq<nat>)
    requires forall p :: p in page ==> p in Positions(s, subject, lo, hi)
    requires RecordsAt(s, page).Err?
    ensures exists p :: p in s.messages && s.messages[p] == Message(subject, None)
  {
    PositionsListRange(s, subject, lo, hi);
    RecordsAreTheMessages(s, page);
    var i :| 0 <= i < |page| && !(page[i] in s.messages && s.messages[page[i]].data.Some?);
    assert page[i] in page && On(s, subject, page[i]);
    assert s.messages[page[i]] == Message(subject, None);
  }

  // A page fails on its content only for a message of the subject that does
  // not decode.
  lemma BadRecordPage(s: Stream, subject: string, limit: int, after: Cursor, before: Cursor)
    requires ValidStream(s) && Page(s, subject, limit, after, before) == Err(BadRecord)
    ensures exists p :: p in s.messages && s.messages[p] == Message(subject, None)
  {
    var n := NormalizeLimit(limit);
    if after != NoCursor {
      var ps := Positions(s, subject, after.n + 1, s.last + 1);
      BadRecordIsThere(s, subject, after.n + 1, s.last + 1, FirstN(ps, n));
    } else {
      var hi := if before == NoCursor then s.last + 1 else before.n;
      BadRecordIsThere(s, subject, 1, hi, LastN(Positions(s, subject, 1, hi), n));
    }
  }
}
